# Temporal anti-aliasing demo: jitter, frame state and off-centre frustum

A Dafny model of the three pieces of logic in `scenerendering.cpp`, a Vulkan
demo of temporal reprojection anti-aliasing (TAA).

- **Halton jitter** (`jitter.dfy`, module `Jitter`). The class
  `FrustumJitter` owns a 32-entry table of 16 centred Halton(2, 3) points.
  `HaltonSeq` computes the radical inverse by repeated division.
  `InitializeHalton_2_3` fills an `array<real>` in a loop. `GetHaltonJitter`
  rotates the four-slot `activeSample` and advances `currentIndex` by 2
  modulo 32. The radical inverse `Halton` is the specification function the
  loop is proved against.
- **Per-frame state machine** (`renderer.dfy`, module `Renderer`; passes
  and descriptor sets in `pipeline.dfy`, module `Pipeline`). The class
  `VulkanExample` holds these fields:
  - the ping-pong index `current` and the frame counter `first`;
  - the velocity, scene and reprojection uniform blocks;
  - the framebuffers and the descriptor set of every pass;
  - the recorded command buffers.

  `Prepare` and `Render` drive it through `UpdateTemporalUniformBuffers`,
  `UpdateDescriptorSet` and `BuildCommandBuffers`, in the source's order.
  GPU handles become the identity of the image behind them (`Target`). A
  ghost log `submitted` records every frame `Draw` submits. The class
  invariant says the whole log is the expected sequence of frames, and
  every expected frame is proved hazard free:
  - no pass samples an image it renders into;
  - everything a pass samples was rendered earlier in the same frame, or is
    the previous frame's reprojection output.
- **Off-centre frustum** (`projection.dfy`, module `Projection`). It models
  `GetProjectionExtents`, `GetProjectionMatrix` and
  `GetPerspectiveProjection` over the reals. The tangent of half the field
  of view is an input, `Camera.oneExtentY`.

`vectors.dfy` (module `Vectors`) holds the GLM values:
- `Vec2`, `Vec4`, and `Mat4` with explicit entries;
- `Mat`, a symbolic matrix built from the identity, the camera's initial
  perspective, the off-centre projection, transposition, products and the
  overwrite of the entry m[3][0].

Descriptor sets are sequences indexed by binding number.

Several functions model the source's computations and are the
specifications the members below are proved against:
- `Projection.GetPerspectiveProjection` models `GetPerspectiveProjection`
  (scenerendering.cpp:114-130).
- `Projection.GetProjectionMatrix` models `GetProjectionMatrix`
  (scenerendering.cpp:772-784).
- `Pipeline.FrameCommands` is the pass list `buildCommandBuffers` records for
  one swapchain image (scenerendering.cpp:439-608).
- `Pipeline.DescriptorTables` is the set of bindings `updateDescriptorSet`
  writes (scenerendering.cpp:918-1013).
- `Renderer.SetTranslationX` is the assignment to `_CurrM[3][0]`
  (scenerendering.cpp:791).
- `Jitter.Halton` is the radical inverse that `HaltonSeq` computes
  (scenerendering.cpp:75-87).

## Model

| member | source | states |
|---|---|---|
| Jitter.FrustumJitter.constructor | scenerendering.cpp:45-56 | the table holds the 16 centred Halton(2, 3) points (entry 2i is Halton(2, i+1) - 0.5, entry 2i+1 is Halton(3, i+1) - 0.5); the index starts at 0 and the active sample at (0, 0, 0, 0) |
| Jitter.FrustumJitter.HaltonSeq | scenerendering.cpp:75-87 | the loop returns the radical inverse of `index` in base `prime`, which lies in [0, 1) and is 0 exactly when `index` is 0 |
| Jitter.FrustumJitter.InitializeHalton_2_3 | scenerendering.cpp:89-98 | positions 0 .. len/2*2 - 1 hold the centred base-2 value (even positions) and base-3 value (odd positions) of point position/2 + 1; every other array cell keeps its old value |
| Jitter.FrustumJitter.GetHaltonJitter | scenerendering.cpp:100-110 | returns the old current pair; the previous slots take the old current pair and the current slots take the table pair at index % 16; the index advances by 2 modulo 32 and stays even and in [0, 32); both reads stay inside the 32-entry table for any index, and inside positions 0 .. 15 when called with currentIndex |
| Jitter.HaltonRange | scenerendering.cpp:75-87 | every radical inverse lies in [0, 1) and is 0 exactly for index 0 |
| Jitter.TableEntryRange | scenerendering.cpp:89-98 | every table entry lies strictly between -0.5 and 0.5 |
| Jitter.EvenReadIsHaltonPoint | scenerendering.cpp:89-98 | the pair at an even position 2k is one whole Halton point: x from base 2 and y from base 3 of the same index k + 1 |
| Jitter.UsedPoints | scenerendering.cpp:89-98 | the first sixteen table entries, the only ones GetHaltonJitter reads, evaluated exactly |
| Jitter.UsedEntry | scenerendering.cpp:100-110 | table entry j, for every position j < 16 that GetHaltonJitter can read, is the evaluated constant |
| Jitter.UsedEntriesDistinct | scenerendering.cpp:89-98 | the sixteen evaluated entries are pairwise different within each coordinate |
| Jitter.UsedPointsDistinct | scenerendering.cpp:89-98 | the first eight points differ pairwise in x and pairwise in y |
| Jitter.IndexAfterSteps | scenerendering.cpp:108 | k index steps add 2k modulo 32 |
| Jitter.IndexAfterCompose | scenerendering.cpp:108 | a steps followed by b steps equal a + b steps, and the index stays in [0, 32) |
| Jitter.IndexPeriod | scenerendering.cpp:108 | the index returns to its start after exactly 16 steps and not before |
| Jitter.IndexStaysEven | scenerendering.cpp:108 | an index starting even (it starts at 0) in [0, 32) stays even and in [0, 32) |
| Jitter.ReadAt | scenerendering.cpp:105-108 | the read position after k steps is (start + 2k) modulo 16 |
| Jitter.EvenModSixteen | scenerendering.cpp:105-106 | an even index leaves a read position below 15, so the second read at position + 1 is in bounds |
| Jitter.SamplePeriodEight | scenerendering.cpp:105-108 | the read position repeats after 8 steps, differs from the start within 8 steps, and is even and below 15 |
| Projection.GetProjectionExtents | scenerendering.cpp:759-771 | xy are the unit-distance extents; zw scaled by the window size are twice the extent times the texel offset (one texel spans 2 * extent / size) |
| Projection.JitteredFrustum | scenerendering.cpp:772-784 | the near-plane bounds are 2 * extentX * near wide and 2 * extentY * near high for every jitter |
| Projection.ZeroJitterIsSymmetric | scenerendering.cpp:759-784 | with zero jitter left == -right and bottom == -top, so the off-centre entries a and b of the matrix are 0 |
| Projection.JitterShiftsFrustum | scenerendering.cpp:772-784 | every bound of the jittered frustum is the unjittered bound plus the unit-distance jitter times near |
| Projection.JitterOnlySkewsByPixelOffset | scenerendering.cpp:772-784 | the jittered matrix equals the unjittered one except entries a and b, which become 2 * texelOffset / size: a jitter of one pixel moves the image by one pixel |
| Projection.SameSizeSameScale | scenerendering.cpp:114-130 | two frusta of equal width and height give matrices that differ only in the entries a and b |
| Projection.OffCentreRow | scenerendering.cpp:114-130 | the x and y rows map the bounds lo and hi to -n and n |
| Projection.NearCornersMapToClipCorners | scenerendering.cpp:114-130 | the near-plane corners (left, bottom) and (right, top) go to clip (-1, -1, 0) and (1, 1, 0) after the divide by w |
| Projection.FarCornersMapToClipCorners | scenerendering.cpp:114-130 | the far-plane corners go to clip (-1, -1, 1) and (1, 1, 1): depth maps onto [0, 1] |
| Pipeline.PassOrder | scenerendering.cpp:439-608 | every command buffer holds the passes scene, velocity, velocity-max, reprojection and present in that order; the reprojection pass writes only Reproj(current) and the present pass only the swapchain image and the framework depth |
| Pipeline.HistoryBinding | scenerendering.cpp:946-959 | the history binding is the scene colour when first == 1, otherwise the other ping-pong slot, never the slot being written |
| Pipeline.FrameReads | scenerendering.cpp:918-1013 | the exact set of images each of the five passes samples |
| Pipeline.FrameWrites | scenerendering.cpp:439-608 | the exact set of images rendered before each pass of a frame |
| Pipeline.FrameHazardFree | scenerendering.cpp:918-1013 | every frame the renderer can record is hazard free with the carried history |
| Pipeline.BootstrapNeeded | scenerendering.cpp:946-951 | without the first-frame rule the first frame would sample a ping-pong slot nothing has rendered |
| Pipeline.PrepareOffscreenRenderpass | scenerendering.cpp:429-433 | for the velocity, velocity-max and reprojection passes, the only ones prepare builds this way, it builds exactly `count` colour-only framebuffers, framebuffer i backed by image i of that pass |
| Renderer.ReadPosition | scenerendering.cpp:798 | after n updates the index is 2n modulo 32, and the next read position is 2 (n mod 8) |
| Renderer.SampleAfterStep | scenerendering.cpp:786-810 | one GetHaltonJitter call after n updates moves the jitter state to what n + 1 updates leave, and the projection is built from the pair current before the call |
| Renderer.UniformsStep | scenerendering.cpp:786-810 | one temporal update keeps every uniform block in step with the update count, with the view the update reads, whatever view the previous update read |
| Renderer.LogMatchesAt | scenerendering.cpp:1210-1222 | every frame in a matching log is the expected frame for its position |
| Renderer.LogExtends | scenerendering.cpp:1210-1222 | appending the expected next frame keeps the log matching |
| Renderer.FrameSubmitted | scenerendering.cpp:1210-1222 | submit, flip, update and re-record log the expected frame and leave the state of the next frame |
| Renderer.SampleIsTableRead | scenerendering.cpp:798-799 | the pair after n updates is the table pair at the position the index held before update n |
| Renderer.SamplePeriod | scenerendering.cpp:798 | the jitter pair repeats every 8 frames |
| Renderer.SamplesDistinct | scenerendering.cpp:798 | within 8 frames no jitter pair repeats |
| Renderer.FirstFrameUnjittered | scenerendering.cpp:792 | the first frame's projection is built from the zero pair, so it is symmetric |
| Renderer.HistoryIsPreviousOutput | scenerendering.cpp:946-959 | the history frame k samples is the image the reprojection pass of frame k - 1 wrote, which frame k does not write; on frame 0 it is the scene colour |
| Renderer.PresentShowsReprojection | scenerendering.cpp:1002-1004 | the present pass samples what the reprojection pass of the same frame rendered |
| Renderer.SubmittedFrameHazardFree | scenerendering.cpp:1210-1222 | every submitted frame is hazard free, and its carried image is the previous frame's reprojection output |
| Renderer.VulkanExample.constructor | scenerendering.cpp:138-139 | current and first start at 0, nothing is prepared or submitted, and the class invariant holds |
| Renderer.VulkanExample.UpdateUniformBuffers | scenerendering.cpp:695-704 | the scene block takes the perspective, the current model matrix and the view the last update read |
| Renderer.VulkanExample.UpdateTemporalUniformBuffers | scenerendering.cpp:786-810 | first grows by 1; the previous matrices are the old current ones; the model matrix is the identity moved by this frame's offset only, whatever came before; the projection uses the pair current before the call; the view-projection and the scene block use the camera's view at this call; the jitter advances; the uniform invariant is kept |
| Renderer.VulkanExample.UpdateDescriptorSet | scenerendering.cpp:918-1013 | the descriptor sets are exactly the tables for the current ping-pong index and frame counter |
| Renderer.VulkanExample.BuildCommandBuffers | scenerendering.cpp:439-608 | command buffer i holds the five passes of swapchain image i for the current ping-pong index |
| Renderer.VulkanExample.Draw | scenerendering.cpp:707-719 | the submitted log grows by the command buffer of the acquired image with the descriptor sets as they are |
| Renderer.VulkanExample.PrepareUniformBuffers | scenerendering.cpp:727-758 | after the first temporal update the frame counter is 1 and the previous matrices are the identity and the camera's perspective times its view during prepare |
| Renderer.VulkanExample.PrepareBuilding | scenerendering.cpp:1015-1091 | the scene pass has one framebuffer, of scene colour and scene depth |
| Renderer.VulkanExample.Prepare | scenerendering.cpp:1189-1208 | after prepare the frame counter is 1, the index 0, nothing is submitted, and the class invariant holds with every framebuffer, descriptor set and command buffer in place |
| Renderer.VulkanExample.PrepareNextFrame | scenerendering.cpp:1217-1220 | the temporal update, descriptor update and re-recording leave the uniforms, tables and command buffers of the next frame, the view-projection and scene view built from this frame's camera view |
| Renderer.VulkanExample.Render | scenerendering.cpp:1210-1222 | does nothing before prepare; afterwards it logs the expected frame, flips current, raises first by 1, rotates the matrix history, builds the new view-projection and scene view from the camera's view at this frame, and keeps the class invariant |

## Left out

- Vulkan object creation and teardown are not modelled: images, memory, views, render passes, pipelines, samplers, the descriptor pool and layouts, and the destructor. They are foreign API calls with no logic of their own. Framebuffers are known only by the images behind them.
- `draw` submits and presents through the framework. The model keeps only which command buffer and which descriptor sets a frame used, in the ghost log `submitted`. The acquired swapchain image is a parameter of `Render`.
- Several steps of `render` are asynchronous on the GPU: frames in flight, the queue, and synchronisation between frames. The model treats each frame as complete before the next one is recorded.
- `setupDescriptorSet` allocates the descriptor sets and then writes them. `Prepare` models only the write, as `UpdateDescriptorSet`.
- Shaders, models and other assets are external files and are not modelled.
- `FrustumJitter::Sample` is not modelled. It reads a freshly allocated, uninitialised array and is never called.
- The tangent of the field of view is the input `Camera.oneExtentY`.
- The animated translation `sin(timer) * 10` is the parameter `modelOffset`.
- `_SinTime` of the reprojection block is not modelled, because it depends only on the clock.
- Renderer.VulkanExample.UpdateTemporalUniformBuffers: keeps `JitterUV` as the pair of the texel jitter and the window size (`PerWindow`). It does not hold the four quotients themselves; `UVValue` computes them and `JitterUVScalesBack` relates them back.
- All arithmetic is over the reals and unbounded integers. IEEE single-precision rounding is not modelled. Neither is the float division `floorf(i / (float)prime)` in `HaltonSeq`, which is exact for the indices used. The 32-bit `first` counter is also modelled unbounded; it would wrap only after 2^31 frames.
- GLM matrix multiplication and transposition are kept as the symbolic terms `Mul` and `Transpose`. The off-centre projection inside `camera.matrices.perspective` is the term `OffCentre(x, y)`, and `Renderer.Entries` gives its entries through `GetProjectionMatrix`.
- `camera.matrices.perspective` is the field `perspective`. Its value before the first update is the symbolic `CameraPerspective` set by the framework's camera.
- `camera.matrices.view` belongs to the framework's camera, which may move it between frames. `Prepare` and `Render` receive its current value as the parameter `cameraView`; the field `view` keeps the value the last update read. Its initial value, before any update, is taken as the identity and is never read.
- Default-constructed GLM matrices are taken as the identity in the constructor. The source overwrites them before any use.
- The swapchain framebuffers belong to the framework. Framebuffer i of the present pass is modelled as swapchain image i with the shared framework depth image.
- `InitializeHalton_2_3` fills an array. The constructor then keeps the table as an immutable sequence, because nothing writes it again.
- Descriptor sets are sequences of bindings in binding order, not maps.
- Renderer.VulkanExample.PrepareNextFrame: groups the three calls that follow the ping-pong flip in `render`. It does not exist in the source.
