/**
 * VulkanExample of scenerendering.cpp: the per-frame state of the temporal
 * anti-aliasing demo. Every frame it draws the recorded command buffer, flips
 * the ping-pong index, rotates the velocity matrices, re-jitters the
 * projection, rewrites the descriptor sets and re-records the command buffers.
 * Vulkan objects are modelled by the images behind them; what `draw` submits
 * is kept in the ghost log `submitted`.
 */
module Renderer {
  import opened Vectors
  import opened Projection
  import opened Jitter
  import opened Pipeline

  /** velocity_ubo: the model and view-projection matrices of this frame and of the previous one. */
  datatype VelocityUbo = VelocityUbo(currVP: Mat, currM: Mat, prevVP: Mat, prevM: Mat)

  /** uboSceneMatrices: what the scene pass draws with. */
  datatype SceneUbo = SceneUbo(projection: Mat, model: Mat, view: Mat)

  /** temprolReproj_ubo without `_SinTime`: the history blend limits and the jitter in UV units. */
  datatype ReprojUbo = ReprojUbo(feedbackMinMaxScale: Vec4, jitterUV: UVJitter)

  /** The history blend limits written every frame: feedback between 0.88 and 0.97. */
  const Feedback: Vec4 := Vec4(0.88, 0.97, 0.0, 0.0)

  /** `m` with its entry m[3][0] overwritten by tx. */
  function SetTranslationX(m: Mat, tx: real): Mat
  {
    if m.WithTranslationX? then WithTranslationX(m.m, tx) else WithTranslationX(m, tx)
  }

  /** Overwriting m[3][0] twice keeps only the second value, whatever the matrix. */
  lemma SetTranslationXOverwrites(m: Mat, a: real, b: real)
    ensures SetTranslationX(SetTranslationX(m, a), b) == SetTranslationX(m, b)
    ensures SetTranslationX(m, b).tx == b
  {
  }

  /** The table pair at position p: the point GetHaltonJitter loads from there. */
  function PointAt(p: nat): Vec2
  {
    Vec2(TableEntry(p), TableEntry(p + 1))
  }

  /**
   * The current jitter pair after n calls of updateTemproalUniformBuffers:
   * (0, 0) before the first call, then the eight loaded pairs of the table in
   * turn (`SampleIsTableRead` proves which).
   */
  function SampleAfter(n: nat): Vec2
  {
    if n == 0 then Vec2(0.0, 0.0) else Vec2(UsedEntries[2 * ((n - 1) % 8)], UsedEntries[2 * ((n - 1) % 8) + 1])
  }

  /** After n calls the index is 2n modulo 32, so the next read is at 2 (n mod 8) modulo 16. */
  lemma {:induction false} ReadPosition(n: nat)
    ensures IndexAfter(0, n) == (2 * n) % 32
    ensures IndexAfter(0, n) % 16 == 2 * (n % 8)
  {
    IndexAfterSteps(0, n);
    ReadAt(0, n);
    var q, r := n / 8, n % 8;
    assert n == 8 * q + r;
    Mod16(2 * n, q, 2 * r);
  }

  /**
   * One call of GetHaltonJitter after n calls moves the jitter state from
   * what n calls leave to what n + 1 calls leave.
   */
  lemma {:induction false} SampleAfterStep(n: nat, index: int, s: Vec4, t: Vec4)
    requires index == IndexAfter(0, n) && Vec2(s.z, s.w) == SampleAfter(n)
    requires index % 16 < 15
    requires t == Vec4(s.z, s.w, UsedEntries[index % 16], UsedEntries[index % 16 + 1])
    ensures NextIndex(index) == IndexAfter(0, n + 1)
    ensures Vec2(t.x, t.y) == SampleAfter(n) && Vec2(t.z, t.w) == SampleAfter(n + 1)
    ensures ProjectionAfter(n + 1) == Transpose(OffCentre(s.z, s.w))
  {
    ReadPosition(n);
  }

  /** The projection after n calls of updateTemproalUniformBuffers: the call uses the pair current before it. */
  function ProjectionAfter(n: nat): Mat
  {
    if n == 0 then CameraPerspective
    else Transpose(OffCentre(SampleAfter(n - 1).x, SampleAfter(n - 1).y))
  }

  /** The entries of an off-centre projection term: GetProjectionMatrix for the camera. */
  function Entries(c: Camera, m: Mat): Mat4
    requires ValidCamera(c) && m.OffCentre?
  {
    GetProjectionMatrix(c, m.texelOffsetX, m.texelOffsetY)
  }

  /**
   * JitterUV: the activeSample divided by the window size, x and z by the
   * width and y and w by the height. It is kept as the pair of what is
   * divided and by what; `UVValue` computes the quotients.
   */
  datatype UVJitter = PerWindow(texels: Vec4, width: nat, height: nat)

  /** The four quotients the shader receives. */
  function UVValue(j: UVJitter): Vec4
    requires j.width > 0 && j.height > 0
  {
    Vec4(j.texels.x / j.width as real, j.texels.y / j.height as real,
         j.texels.z / j.width as real, j.texels.w / j.height as real)
  }

  /** Scaled back by the window size, the UV jitter is the texel jitter it was made from. */
  lemma JitterUVScalesBack(s: Vec4, c: Camera)
    requires c.width > 0 && c.height > 0
    ensures var uv := UVValue(PerWindow(s, c.width, c.height));
      uv.x * (c.width as real) == s.x && uv.y * (c.height as real) == s.y &&
      uv.z * (c.width as real) == s.z && uv.w * (c.height as real) == s.w
  {
  }

  /**
   * The jitter index and pair, the projection and the three uniform blocks
   * after n calls of updateTemproalUniformBuffers for camera c, the last of
   * them made with the camera's view `view`.
   */
  ghost predicate UniformsAfter(n: nat, index: int, sample: Vec4, projection: Mat, view: Mat, velocity: VelocityUbo,
                                scene: SceneUbo, reproj: ReprojUbo, c: Camera)
  {
    index == IndexAfter(0, n) &&
    Vec2(sample.z, sample.w) == SampleAfter(n) &&
    (n == 0 ==> sample == Vec4(0.0, 0.0, 0.0, 0.0)) &&
    (n >= 1 ==>
      Vec2(sample.x, sample.y) == SampleAfter(n - 1) &&
      projection == ProjectionAfter(n) &&
      velocity.currVP == Mul(projection, view) &&
      velocity.currM.WithTranslationX? && velocity.currM.m == Identity &&
      scene == SceneUbo(projection, velocity.currM, view) &&
      reproj == ReprojUbo(Feedback, PerWindow(sample, c.width, c.height)))
  }

  /**
   * One call of updateTemproalUniformBuffers keeps the uniforms in step with
   * the call count: the projection is built from the pair current before the
   * call, the previous matrices are the old current ones, and the jitter
   * advances by one point.
   */
  lemma {:induction false} UniformsStep(n: nat, index: int, sample: Vec4, projection: Mat, view: Mat, velocity: VelocityUbo,
                     scene: SceneUbo, reproj: ReprojUbo, c: Camera, modelOffset: real, view': Mat, x: real, y: real)
    requires UniformsAfter(n, index, sample, projection, view, velocity, scene, reproj, c)
    requires n == 0 ==> velocity.currM == Identity
    requires index % 16 < 15 && x == UsedEntries[index % 16] && y == UsedEntries[index % 16 + 1]
    ensures var p := Transpose(OffCentre(sample.z, sample.w));
      var m := SetTranslationX(velocity.currM, modelOffset);
      var t := Vec4(sample.z, sample.w, x, y);
      UniformsAfter(n + 1, NextIndex(index), t, p, view',
                    VelocityUbo(Mul(p, view'), m, velocity.currVP, velocity.currM),
                    SceneUbo(p, m, view'), ReprojUbo(Feedback, PerWindow(t, c.width, c.height)), c)
  {
    SampleAfterStep(n, index, sample, Vec4(sample.z, sample.w, x, y));
  }

  /** Frame k (from 0) drawn into swapchain image `image`: ping-pong index k % 2, frame counter k + 1. */
  function ExpectedFrame(k: nat, image: nat): Frame
  {
    Frame(image, FrameCommands(k % 2, image), DescriptorTables(k % 2, k + 1))
  }

  /** Every frame of the log is the expected frame for its position and its swapchain image. */
  ghost predicate LogMatches(log: seq<Frame>)
    decreases |log|
  {
    |log| == 0 ||
    (LogMatches(log[..|log| - 1]) && log[|log| - 1] == ExpectedFrame(|log| - 1, log[|log| - 1].image))
  }

  /** Frame k of a matching log is the expected frame k. */
  lemma {:induction false} LogMatchesAt(log: seq<Frame>, k: nat)
    requires LogMatches(log) && k < |log|
    ensures log[k] == ExpectedFrame(k, log[k].image)
    decreases |log|
  {
    if k < |log| - 1 {
      LogMatchesAt(log[..|log| - 1], k);
    }
  }

  /** Appending the expected next frame keeps a log matching. */
  lemma {:induction false} LogExtends(log: seq<Frame>, f: Frame)
    requires LogMatches(log) && f == ExpectedFrame(|log|, f.image)
    ensures LogMatches(log + [f])
  {
    assert (log + [f])[..|log|] == log;
  }

  /** Command buffer i holds the passes of swapchain image i for ping-pong index `current`. */
  ghost predicate Recorded(cmds: seq<seq<Pass>>, current: int, images: nat)
    requires 0 <= current <= 1
  {
    |cmds| == images && forall i | 0 <= i < images :: cmds[i] == FrameCommands(current, i)
  }

  /**
   * The frame state after |log| frames: the frame counter and the ping-pong
   * index follow the log, the descriptor sets and the command buffers are
   * those of the next frame, and every logged frame is the expected one.
   */
  ghost predicate FramesAfter(first: int, current: int, log: seq<Frame>, tables: Tables, cmds: seq<seq<Pass>>, images: nat)
  {
    first == |log| + 1 && current == |log| % 2 &&
    tables == DescriptorTables(current, first) &&
    Recorded(cmds, current, images) &&
    LogMatches(log)
  }

  /**
   * Submitting the command buffer of `image` logs the expected frame; after
   * the flip, the counter step, the descriptor update and the re-recording
   * the frame state is that of the next frame.
   */
  lemma {:induction false} FrameSubmitted(first: int, current: int, log: seq<Frame>, tables: Tables, cmds: seq<seq<Pass>>,
                       images: nat, image: nat,
                       first': int, current': int, log': seq<Frame>, tables': Tables, cmds': seq<seq<Pass>>)
    requires FramesAfter(first, current, log, tables, cmds, images) && image < images
    requires log' == log + [Frame(image, cmds[image], tables)]
    requires first' == first + 1 && current' == 1 - current
    requires tables' == DescriptorTables(current', first') && Recorded(cmds', current', images)
    ensures log' == log + [ExpectedFrame(|log|, image)]
    ensures FramesAfter(first', current', log', tables', cmds', images)
  {
    LogExtends(log, Frame(image, cmds[image], tables));
  }

  /** Call n loads the table pair at the position the index held after n - 1 calls. */
  lemma {:induction false} SampleIsTableRead(n: nat)
    requires n >= 1
    ensures SampleAfter(n) == PointAt(IndexAfter(0, n - 1) % 16)
  {
    var p := 2 * ((n - 1) % 8);
    ReadPosition(n - 1);
    UsedEntry(p);
    UsedEntry(p + 1);
  }

  /** The jitter pattern repeats every 8 frames. */
  lemma {:induction false} SamplePeriod(n: nat)
    requires n >= 1
    ensures SampleAfter(n + 8) == SampleAfter(n)
  {
    var q, r := (n - 1) / 8, (n - 1) % 8;
    assert n - 1 == 8 * q + r;
    Mod8(n + 8 - 1, q + 1, r);
  }

  /**
   * Within one period the pairs are pairwise different: every pixel offset
   * of the pattern is visited once per 8 frames.
   */
  lemma {:induction false} SamplesDistinct(n: nat, m: nat)
    requires n >= 1 && 0 < m < 8
    ensures SampleAfter(n + m) != SampleAfter(n)
  {
    var i, j := (n - 1) % 8, (n + m - 1) % 8;
    ShiftChangesMod8(n - 1, m);
    UsedPointsDistinct(2 * i, 2 * j);
    UsedEntry(2 * i);
    UsedEntry(2 * j);
  }

  /** The first frame is drawn with the unjittered, symmetric projection. */
  lemma {:induction false} FirstFrameUnjittered(c: Camera)
    requires ValidCamera(c)
    ensures ProjectionAfter(1) == Transpose(OffCentre(0.0, 0.0))
    ensures Entries(c, OffCentre(0.0, 0.0)).m0.z == 0.0 && Entries(c, OffCentre(0.0, 0.0)).m1.z == 0.0
  {
    ZeroJitterIsSymmetric(c);
  }

  /**
   * The history the reprojection pass of frame k samples is the image the
   * reprojection pass of frame k - 1 rendered; on frame 0 it is the scene
   * colour the same frame rendered first.
   */
  lemma {:induction false} HistoryIsPreviousOutput(k: nat, image: nat, previousImage: nat)
    ensures var f := ExpectedFrame(k, image);
      k == 0 ==> f.tables.reproj[3] == Sampled(f.passes[0].framebuffer.color)
    ensures k >= 1 ==>
      var f, g := ExpectedFrame(k, image), ExpectedFrame(k - 1, previousImage);
      f.tables.reproj[3] == Sampled(g.passes[3].framebuffer.color) &&
      g.passes[3].framebuffer.color !in Attachments(f.passes[3].framebuffer)
  {
    if k >= 1 {
      assert (k - 1) % 2 == 1 - k % 2;
    }
  }

  /** The present pass of every frame shows what the reprojection pass of that frame rendered. */
  lemma {:induction false} PresentShowsReprojection(k: nat, image: nat)
    ensures var f := ExpectedFrame(k, image);
      f.tables.present[0] == Sampled(f.passes[3].framebuffer.color)
  {
  }

  /** Every frame the renderer submits is hazard free, with the previous frame's output as its only carried image. */
  lemma {:induction false} SubmittedFrameHazardFree(k: nat, image: nat)
    ensures var f := ExpectedFrame(k, image);
      HazardFree(f.passes, f.tables, History(k % 2, k + 1))
    ensures k >= 1 ==> History(k % 2, k + 1) == Attachments(ExpectedFrame(k - 1, image).passes[3].framebuffer)
  {
    FrameHazardFree(k % 2, k + 1, image);
    if k >= 1 {
      assert (k - 1) % 2 == 1 - k % 2;
    }
  }

  class VulkanExample {
    /** frustumJitter */
    const jitter: FrustumJitter
    /** The framework's camera: unit-distance extent, aspect, window size and clip planes. */
    const camera: Camera
    /** drawCmdBuffers.size(): one command buffer per swapchain image. */
    const swapchainImages: nat

    /** The ping-pong index: which reprojection framebuffer this frame renders into. */
    var current: int
    /** How many times updateTemproalUniformBuffers has run. */
    var first: int
    /** Set at the end of prepare; render does nothing before. */
    var prepared: bool
    /** camera.matrices.perspective */
    var perspective: Mat
    /**
     * camera.matrices.view as the last temporal update read it. The
     * framework's camera owns the view and may move it between frames, so
     * every update receives its current value.
     */
    var view: Mat
    var velocityUbo: VelocityUbo
    var sceneUbo: SceneUbo
    var reprojUbo: ReprojUbo
    /** building.pass.framebuffers, velocity.pass.framebuffers, velocityMax.pass.framebuffers, temproalReproj.pass.framebuffers */
    var sceneFramebuffers: seq<Framebuffer>
    var velocityFramebuffers: seq<Framebuffer>
    var velocityMaxFramebuffers: seq<Framebuffer>
    var reprojFramebuffers: seq<Framebuffer>
    /** The descriptor set of each pass. */
    var descriptorSets: Tables
    /** The passes recorded in each command buffer. */
    var drawCmdBuffers: seq<seq<Pass>>
    /** The frames `draw` has submitted, in order. */
    ghost var submitted: seq<Frame>

    /** The framebuffers prepare creates. */
    ghost predicate FramebuffersReady()
      reads this`sceneFramebuffers, this`velocityFramebuffers, this`velocityMaxFramebuffers, this`reprojFramebuffers
    {
      sceneFramebuffers == [ColorDepth(SceneColor, SceneDepth)] &&
      velocityFramebuffers == [ColorOnly(Velocity(0))] &&
      velocityMaxFramebuffers == [ColorOnly(VelocityMax(0))] &&
      reprojFramebuffers == [ColorOnly(Reproj(0)), ColorOnly(Reproj(1))]
    }

    /** The uniform and jitter state after `first` calls of updateTemproalUniformBuffers. */
    ghost predicate UniformsValid()
      reads this`first, this`perspective, this`view, this`velocityUbo, this`sceneUbo, this`reprojUbo, jitter
      requires first >= 0
    {
      jitter.Valid() &&
      UniformsAfter(first, jitter.currentIndex, jitter.activeSample, perspective, view, velocityUbo, sceneUbo, reprojUbo, camera)
    }

    /** After prepare: the frame state matches the log of submitted frames. */
    ghost predicate FramesValid()
      reads this`first, this`current, this`submitted, this`descriptorSets, this`drawCmdBuffers
      reads this`sceneFramebuffers, this`velocityFramebuffers, this`velocityMaxFramebuffers, this`reprojFramebuffers
    {
      FramebuffersReady() &&
      FramesAfter(first, current, submitted, descriptorSets, drawCmdBuffers, swapchainImages)
    }

    ghost predicate Valid()
      reads this, jitter
    {
      ValidCamera(camera) && 0 <= current <= 1 && first >= 0 &&
      UniformsValid() &&
      (!prepared ==> first == 0 && current == 0 && submitted == [] && perspective == CameraPerspective) &&
      (prepared ==> FramesValid())
    }

    constructor (c: Camera, images: nat)
      requires ValidCamera(c)
      ensures Valid() && !prepared && fresh(jitter)
      ensures camera == c && swapchainImages == images
    {
      jitter := new FrustumJitter();
      camera := c;
      swapchainImages := images;
      current := 0;
      first := 0;
      prepared := false;
      perspective := CameraPerspective;
      view := Identity;
      velocityUbo := VelocityUbo(Identity, Identity, Identity, Identity);
      sceneUbo := SceneUbo(Identity, Identity, Identity);
      reprojUbo := ReprojUbo(Vec4(0.0, 0.0, 0.0, 0.0), PerWindow(Vec4(0.0, 0.0, 0.0, 0.0), c.width, c.height));
      sceneFramebuffers := [];
      velocityFramebuffers := [];
      velocityMaxFramebuffers := [];
      reprojFramebuffers := [];
      descriptorSets := Tables([], [], [], [], []);
      drawCmdBuffers := [];
      submitted := [];
    }

    /** updateUniformBuffers: the scene pass draws with the current model matrix, projection and view. */
    method UpdateUniformBuffers()
      modifies this`sceneUbo
      ensures sceneUbo == SceneUbo(perspective, velocityUbo.currM, view)
    {
      sceneUbo := SceneUbo(perspective, velocityUbo.currM, view);
    }

    /**
     * updateTemproalUniformBuffers: counts the call, moves the current
     * matrices into the previous ones, animates the model matrix, builds the
     * projection from the jitter pair current before the call, and only then
     * advances the jitter. `cameraView` is the camera's view when the update
     * runs.
     */
    method UpdateTemporalUniformBuffers(modelOffset: real, cameraView: Mat)
      requires ValidCamera(camera) && first >= 0 && UniformsValid()
      requires first == 0 ==> velocityUbo.currM == Identity
      modifies this`first, this`velocityUbo, this`perspective, this`view, this`sceneUbo, this`reprojUbo,
        jitter`currentIndex, jitter`activeSample
      ensures first == old(first) + 1
      ensures velocityUbo.prevM == old(velocityUbo.currM) && velocityUbo.prevVP == old(velocityUbo.currVP)
      // the model matrix is the identity moved by this frame's offset only, whatever came before
      ensures velocityUbo.currM == WithTranslationX(Identity, modelOffset)
      ensures perspective == Transpose(OffCentre(old(jitter.activeSample).z, old(jitter.activeSample).w))
      ensures view == cameraView
      ensures velocityUbo.currVP == Mul(perspective, cameraView)
      ensures sceneUbo == SceneUbo(perspective, velocityUbo.currM, cameraView)
      ensures jitter.currentIndex == NextIndex(old(jitter.currentIndex))
      ensures reprojUbo == ReprojUbo(Feedback, PerWindow(jitter.activeSample, camera.width, camera.height))
      ensures UniformsValid()
    {
      ghost var n := first;
      view := cameraView;
      first := first + 1;
      velocityUbo := velocityUbo.(prevM := velocityUbo.currM, prevVP := velocityUbo.currVP,
                                  currM := SetTranslationX(velocityUbo.currM, modelOffset));
      perspective := Transpose(OffCentre(jitter.activeSample.z, jitter.activeSample.w));
      velocityUbo := velocityUbo.(currVP := Mul(perspective, view));
      UpdateUniformBuffers();
      EvenModSixteen(jitter.currentIndex);
      var texelOffset := jitter.GetHaltonJitter(jitter.currentIndex);
      reprojUbo := ReprojUbo(Feedback, PerWindow(jitter.activeSample, camera.width, camera.height));
      UniformsStep(n, old(jitter.currentIndex), old(jitter.activeSample), old(perspective), old(view), old(velocityUbo),
                   old(sceneUbo), old(reprojUbo), camera, modelOffset, cameraView, jitter.activeSample.z, jitter.activeSample.w);
    }

    /**
     * updateDescriptorSet: rewrites every binding of every pass. The
     * reprojection pass takes the scene colour as history while the frame
     * counter is 1, and the other ping-pong slot afterwards.
     */
    method UpdateDescriptorSet()
      requires 0 <= current <= 1
      modifies this`descriptorSets
      ensures descriptorSets == DescriptorTables(current, first)
    {
      var history: Binding;
      if first == 1 {
        history := Sampled(SceneColor);
      } else {
        history := Sampled(Reproj(1 - current));
      }
      descriptorSets := descriptorSets.(reproj := [
        UniformBuffer, Sampled(SceneDepth), Sampled(SceneColor),
        history, Sampled(VelocityMax(0)), Sampled(Velocity(0))]);
      descriptorSets := descriptorSets.(scene := [UniformBuffer]);
      descriptorSets := descriptorSets.(velocityMax := [Sampled(Velocity(0))]);
      descriptorSets := descriptorSets.(velocity := [UniformBuffer, Sampled(SceneDepth)]);
      descriptorSets := descriptorSets.(present := [Sampled(Reproj(current))]);
    }

    /**
     * buildCommandBuffers: records, for every swapchain image, the scene,
     * velocity, velocity-max, reprojection and present passes in that order;
     * the reprojection pass renders into the ping-pong slot `current`.
     */
    method BuildCommandBuffers()
      requires 0 <= current <= 1 && FramebuffersReady()
      modifies this`drawCmdBuffers
      ensures Recorded(drawCmdBuffers, current, swapchainImages)
    {
      var buffers: seq<seq<Pass>> := [];
      for i := 0 to swapchainImages
        invariant |buffers| == i
        invariant forall j | 0 <= j < i :: buffers[j] == FrameCommands(current, j)
      {
        var passes := [
          Pass(ScenePass, sceneFramebuffers[0]),
          Pass(VelocityPass, velocityFramebuffers[0]),
          Pass(VelocityMaxPass, velocityMaxFramebuffers[0]),
          Pass(ReprojPass, reprojFramebuffers[current]),
          Pass(PresentPass, SwapchainFramebuffer(i))];
        buffers := buffers + [passes];
      }
      drawCmdBuffers := buffers;
    }

    /** draw: submits the command buffer of the acquired swapchain image with the descriptor sets as they are. */
    method Draw(image: nat)
      requires image < |drawCmdBuffers|
      modifies this`submitted
      ensures submitted == old(submitted) + [Frame(image, drawCmdBuffers[image], descriptorSets)]
    {
      submitted := submitted + [Frame(image, drawCmdBuffers[image], descriptorSets)];
    }

    /**
     * prepareUniformBuffers: starts the current model matrix at the identity
     * and the current view-projection at the camera's, then runs the first
     * temporal update. `cameraView` is the camera's view during prepare.
     */
    method PrepareUniformBuffers(modelOffset: real, cameraView: Mat)
      requires ValidCamera(camera) && first == 0 && UniformsValid() && perspective == CameraPerspective
      modifies this`first, this`velocityUbo, this`perspective, this`view, this`sceneUbo, this`reprojUbo,
        jitter`currentIndex, jitter`activeSample
      ensures first == 1 && UniformsValid() && view == cameraView
      ensures velocityUbo.prevM == Identity && velocityUbo.prevVP == Mul(CameraPerspective, cameraView)
    {
      velocityUbo := velocityUbo.(currM := Identity);
      velocityUbo := velocityUbo.(currVP := Mul(perspective, cameraView));
      UpdateTemporalUniformBuffers(modelOffset, cameraView);
    }

    /** prepareBuilding: the scene pass renders into one framebuffer of scene colour and scene depth. */
    method PrepareBuilding()
      modifies this`sceneFramebuffers
      ensures sceneFramebuffers == [ColorDepth(SceneColor, SceneDepth)]
    {
      sceneFramebuffers := [ColorDepth(SceneColor, SceneDepth)];
    }

    /**
     * prepare: sets up the uniforms and runs the first temporal update,
     * creates the framebuffers (1 for the scene, 1 for velocity, 1 for
     * velocity-max, 2 for the reprojection ping-pong), writes the descriptor
     * sets and records the command buffers.
     */
    method Prepare(modelOffset: real, cameraView: Mat)
      requires Valid() && !prepared
      modifies this, jitter`currentIndex, jitter`activeSample
      ensures Valid() && prepared
      ensures first == 1 && current == 0 && submitted == []
      ensures velocityUbo.prevM == Identity && velocityUbo.prevVP == Mul(CameraPerspective, cameraView)
    {
      PrepareUniformBuffers(modelOffset, cameraView);
      PrepareBuilding();
      velocityFramebuffers := PrepareOffscreenRenderpass(VelocityPass, 1);
      velocityMaxFramebuffers := PrepareOffscreenRenderpass(VelocityMaxPass, 1);
      reprojFramebuffers := PrepareOffscreenRenderpass(ReprojPass, 2);
      UpdateDescriptorSet();
      BuildCommandBuffers();
      prepared := true;
    }

    /**
     * The tail of render after the ping-pong flip: the temporal update, the
     * descriptor update and the re-recording, in the order render runs them.
     */
    method PrepareNextFrame(modelOffset: real, cameraView: Mat)
      requires ValidCamera(camera) && 0 <= current <= 1 && first >= 1 && UniformsValid() && FramebuffersReady()
      modifies this`first, this`velocityUbo, this`perspective, this`view, this`sceneUbo, this`reprojUbo,
        jitter`currentIndex, jitter`activeSample, this`descriptorSets, this`drawCmdBuffers
      ensures first == old(first) + 1 && UniformsValid()
      ensures velocityUbo.prevM == old(velocityUbo.currM) && velocityUbo.prevVP == old(velocityUbo.currVP)
      ensures velocityUbo.currVP == Mul(perspective, cameraView) && sceneUbo.view == cameraView
      ensures descriptorSets == DescriptorTables(current, first)
      ensures Recorded(drawCmdBuffers, current, swapchainImages)
    {
      UpdateTemporalUniformBuffers(modelOffset, cameraView);
      UpdateDescriptorSet();
      BuildCommandBuffers();
    }

    /**
     * render: nothing before prepare; afterwards submits the frame recorded
     * for `image`, flips the ping-pong index and prepares the next frame
     * with the camera's current view `cameraView`.
     */
    method Render(modelOffset: real, cameraView: Mat, image: nat)
      requires Valid() && image < swapchainImages
      modifies this, jitter`currentIndex, jitter`activeSample
      ensures Valid() && prepared == old(prepared)
      ensures !old(prepared) ==> unchanged(this) && unchanged(jitter)
      ensures old(prepared) ==>
        current == 1 - old(current) && first == old(first) + 1 &&
        submitted == old(submitted) + [ExpectedFrame(|old(submitted)|, image)] &&
        velocityUbo.prevM == old(velocityUbo.currM) && velocityUbo.prevVP == old(velocityUbo.currVP) &&
        velocityUbo.currVP == Mul(perspective, cameraView) && sceneUbo.view == cameraView
    {
      if !prepared {
        return;
      }
      Draw(image);
      current := 1 - current;
      PrepareNextFrame(modelOffset, cameraView);
      FrameSubmitted(old(first), old(current), old(submitted), old(descriptorSets), old(drawCmdBuffers),
                     swapchainImages, image, first, current, submitted, descriptorSets, drawCmdBuffers);
    }
  }
}
