/**
 * The five render passes of one frame of the temporal anti-aliasing demo in
 * scenerendering.cpp: which image each pass renders into, which images its
 * descriptor set samples, and the hazard rule a frame must keep. GPU handles
 * are replaced by the identity of the image behind them.
 */
module Pipeline {

  /** The images the passes render into and sample. */
  datatype Target =
    | SceneColor               // building.pass.framebuffers[0].color
    | SceneDepth               // building.pass.framebuffers[0].depth
    | Velocity(slot: nat)      // velocity.pass.framebuffers[slot].color
    | VelocityMax(slot: nat)   // velocityMax.pass.framebuffers[slot].color
    | Reproj(slot: nat)        // temproalReproj.pass.framebuffers[slot].color
    | Swapchain(image: nat)    // the framework's swapchain image `image`
    | FrameworkDepth           // the framework's shared depth-stencil image

  /** The five passes, each with its own pipeline and descriptor set. */
  datatype PassKind = ScenePass | VelocityPass | VelocityMaxPass | ReprojPass | PresentPass

  /** What a descriptor binding points at. */
  datatype Binding = UniformBuffer | Sampled(target: Target)

  /** A descriptor set: what is bound at each binding number, bindings 0, 1, ... in order. */
  type DescriptorSet = seq<Binding>

  /** The descriptor set of every pass. */
  datatype Tables = Tables(scene: DescriptorSet, velocity: DescriptorSet, velocityMax: DescriptorSet,
                           reproj: DescriptorSet, present: DescriptorSet)

  /** The descriptor set the pipeline of `kind` binds. */
  function SetOf(tables: Tables, kind: PassKind): DescriptorSet
  {
    match kind
    case ScenePass => tables.scene
    case VelocityPass => tables.velocity
    case VelocityMaxPass => tables.velocityMax
    case ReprojPass => tables.reproj
    case PresentPass => tables.present
  }

  /** A framebuffer, known by the images attached to it. */
  datatype Framebuffer = ColorOnly(color: Target) | ColorDepth(color: Target, depth: Target)

  /** One recorded render pass: the pass (and so its pipeline and descriptor set) and its framebuffer. */
  datatype Pass = Pass(kind: PassKind, framebuffer: Framebuffer)

  /** One submitted frame: the swapchain image, the command buffer and the descriptor sets it saw. */
  datatype Frame = Frame(image: nat, passes: seq<Pass>, tables: Tables)

  /** Images a framebuffer writes. */
  function Attachments(fb: Framebuffer): (s: set<Target>)
    ensures fb.color in s
    ensures fb.ColorDepth? ==> fb.depth in s
  {
    match fb
    case ColorOnly(c) => {c}
    case ColorDepth(c, d) => {c, d}
  }

  /** The images a descriptor set samples. */
  function SampledTargets(ds: DescriptorSet): set<Target>
  {
    set k | 0 <= k < |ds| && ds[k].Sampled? :: ds[k].target
  }

  /** The images a pass samples through its descriptor set. */
  function Reads(p: Pass, tables: Tables): set<Target>
  {
    SampledTargets(SetOf(tables, p.kind))
  }

  /** The images written by passes[0 .. i). */
  function WrittenBefore(passes: seq<Pass>, i: nat): set<Target>
    requires i <= |passes|
  {
    if i == 0 then {} else WrittenBefore(passes, i - 1) + Attachments(passes[i - 1].framebuffer)
  }

  /**
   * No pass samples an image it renders into; every image a pass samples was
   * rendered earlier in the same frame or is carried over from the previous
   * frame (`history`); and no pass of the frame overwrites the carried image.
   */
  ghost predicate HazardFree(passes: seq<Pass>, tables: Tables, history: set<Target>)
  {
    forall i | 0 <= i < |passes| :: PassHazardFree(passes, tables, history, i)
  }

  /** The hazard rule for pass i of a frame. */
  ghost predicate PassHazardFree(passes: seq<Pass>, tables: Tables, history: set<Target>, i: nat)
    requires i < |passes|
  {
    Reads(passes[i], tables) !! Attachments(passes[i].framebuffer) &&
    Reads(passes[i], tables) <= WrittenBefore(passes, i) + history &&
    history !! Attachments(passes[i].framebuffer)
  }

  /** The passes prepare builds with prepareOffscreenRenderpass. */
  predicate OffscreenKind(kind: PassKind)
  {
    kind == VelocityPass || kind == VelocityMaxPass || kind == ReprojPass
  }

  /** The image the offscreen render pass of `kind` creates as framebuffer i. */
  function OffscreenTarget(kind: PassKind, i: nat): Target
    requires OffscreenKind(kind)
  {
    if kind == VelocityPass then Velocity(i)
    else if kind == VelocityMaxPass then VelocityMax(i)
    else Reproj(i)
  }

  /** The framework's framebuffer for swapchain image i. */
  function SwapchainFramebuffer(i: nat): Framebuffer
  {
    ColorDepth(Swapchain(i), FrameworkDepth)
  }

  /** The command buffer recorded for swapchain image `image` while the ping-pong index is `current`. */
  function FrameCommands(current: int, image: nat): seq<Pass>
    requires 0 <= current <= 1
  {
    [ Pass(ScenePass, ColorDepth(SceneColor, SceneDepth)),
      Pass(VelocityPass, ColorOnly(Velocity(0))),
      Pass(VelocityMaxPass, ColorOnly(VelocityMax(0))),
      Pass(ReprojPass, ColorOnly(Reproj(current))),
      Pass(PresentPass, SwapchainFramebuffer(image)) ]
  }

  /**
   * Every command buffer holds the five passes in the order scene, velocity,
   * velocity-max, reprojection, present; the reprojection pass renders into
   * the ping-pong slot `current` and the present pass into the swapchain image.
   */
  lemma PassOrder(current: int, image: nat)
    requires 0 <= current <= 1
    ensures var passes := FrameCommands(current, image);
      |passes| == 5 &&
      passes[0].kind == ScenePass && passes[1].kind == VelocityPass && passes[2].kind == VelocityMaxPass &&
      passes[3].kind == ReprojPass && passes[4].kind == PresentPass &&
      Attachments(passes[3].framebuffer) == {Reproj(current)} &&
      Attachments(passes[4].framebuffer) == {Swapchain(image), FrameworkDepth}
  {
  }

  /** The history image of the reprojection pass: the scene colour on the first frame, else the other ping-pong slot. */
  function HistoryBinding(current: int, first: int): (b: Binding)
    requires 0 <= current <= 1
    ensures first == 1 ==> b == Sampled(SceneColor)
    ensures first != 1 ==> b == Sampled(Reproj(1 - current)) && b != Sampled(Reproj(current))
  {
    if first == 1 then Sampled(SceneColor) else Sampled(Reproj(1 - current))
  }

  /** The descriptor sets updateDescriptorSet writes for ping-pong index `current` and frame counter `first`. */
  function DescriptorTables(current: int, first: int): Tables
    requires 0 <= current <= 1
  {
    Tables(
      [UniformBuffer],
      [UniformBuffer, Sampled(SceneDepth)],
      [Sampled(Velocity(0))],
      [UniformBuffer, Sampled(SceneDepth), Sampled(SceneColor),
       HistoryBinding(current, first), Sampled(VelocityMax(0)), Sampled(Velocity(0))],
      [Sampled(Reproj(current))])
  }

  /** What a frame carries over from the previous one: nothing on the first frame, else the other ping-pong slot. */
  function History(current: int, first: int): set<Target>
    requires 0 <= current <= 1
  {
    if first == 1 then {} else {Reproj(1 - current)}
  }

  /** The images each pass of a frame samples. */
  lemma FrameReads(current: int, first: int, image: nat)
    requires 0 <= current <= 1
    ensures var passes, t := FrameCommands(current, image), DescriptorTables(current, first);
      Reads(passes[0], t) == {} &&
      Reads(passes[1], t) == {SceneDepth} &&
      Reads(passes[2], t) == {Velocity(0)} &&
      Reads(passes[3], t) == {SceneDepth, SceneColor, HistoryBinding(current, first).target, VelocityMax(0), Velocity(0)} &&
      Reads(passes[4], t) == {Reproj(current)}
  {
    var t := DescriptorTables(current, first);
    var h := HistoryBinding(current, first);
    assert t.velocity[1].target == SceneDepth;
    assert t.velocityMax[0].target == Velocity(0);
    assert t.reproj[1].target == SceneDepth && t.reproj[2].target == SceneColor;
    assert t.reproj[3].target == h.target && t.reproj[4].target == VelocityMax(0);
    assert t.reproj[5].target == Velocity(0);
    assert t.present[0].target == Reproj(current);
  }

  /** The images written by the passes of a frame before each pass. */
  lemma FrameWrites(current: int, image: nat)
    requires 0 <= current <= 1
    ensures var passes := FrameCommands(current, image);
      WrittenBefore(passes, 1) == {SceneColor, SceneDepth} &&
      WrittenBefore(passes, 2) == {SceneColor, SceneDepth, Velocity(0)} &&
      WrittenBefore(passes, 3) == {SceneColor, SceneDepth, Velocity(0), VelocityMax(0)} &&
      WrittenBefore(passes, 4) == {SceneColor, SceneDepth, Velocity(0), VelocityMax(0), Reproj(current)}
  {
    var passes := FrameCommands(current, image);
    assert WrittenBefore(passes, 0) == {};
    assert Attachments(passes[0].framebuffer) == {SceneColor, SceneDepth};
    assert Attachments(passes[1].framebuffer) == {Velocity(0)};
    assert Attachments(passes[2].framebuffer) == {VelocityMax(0)};
  }

  /**
   * Every frame the renderer records is hazard free: no pass samples the
   * image it renders into (in particular the reprojection pass never samples
   * the ping-pong slot it writes), and every sampled image comes from an
   * earlier pass of the frame or is the previous frame's reprojection output.
   */
  lemma FrameHazardFree(current: int, first: int, image: nat)
    requires 0 <= current <= 1
    ensures HazardFree(FrameCommands(current, image), DescriptorTables(current, first), History(current, first))
  {
    FrameReads(current, first, image);
    FrameWrites(current, image);
    var passes, t, h := FrameCommands(current, image), DescriptorTables(current, first), History(current, first);
    assert Attachments(passes[0].framebuffer) == {SceneColor, SceneDepth};
    assert Attachments(passes[1].framebuffer) == {Velocity(0)};
    assert Attachments(passes[2].framebuffer) == {VelocityMax(0)};
    assert PassHazardFree(passes, t, h, 0);
    assert PassHazardFree(passes, t, h, 1);
    assert PassHazardFree(passes, t, h, 2);
    assert PassHazardFree(passes, t, h, 3);
    assert PassHazardFree(passes, t, h, 4);
  }

  /**
   * The first-frame rule is needed: a first frame that bound a ping-pong slot
   * as history would sample an image that nothing has rendered.
   */
  lemma BootstrapNeeded(image: nat)
    ensures !HazardFree(FrameCommands(0, image), DescriptorTables(0, 2), History(0, 1))
  {
    FrameReads(0, 2, image);
    FrameWrites(0, image);
    var passes := FrameCommands(0, image);
    assert Reproj(1) in Reads(passes[3], DescriptorTables(0, 2));
    assert Reproj(1) !in WrittenBefore(passes, 3) + History(0, 1);
    assert !PassHazardFree(passes, DescriptorTables(0, 2), History(0, 1), 3);
  }

  /** Builds the framebuffers of an offscreen render pass: `count` colour-only framebuffers, image i behind framebuffer i. */
  method PrepareOffscreenRenderpass(kind: PassKind, count: nat) returns (fbs: seq<Framebuffer>)
    requires OffscreenKind(kind)
    ensures |fbs| == count
    ensures forall i | 0 <= i < count :: fbs[i] == ColorOnly(OffscreenTarget(kind, i))
  {
    fbs := [];
    for i := 0 to count
      invariant |fbs| == i
      invariant forall j | 0 <= j < i :: fbs[j] == ColorOnly(OffscreenTarget(kind, j))
    {
      fbs := fbs + [ColorOnly(OffscreenTarget(kind, i))];
    }
  }
}
