# Bunnymark, modelled in Dafny

This project models the bunnymark example of the blade graphics library (`examples/bunnymark.rs`).
The example is a sprite benchmark. It sets up a window, a render pipeline and a one-texel sprite
texture. Space adds bunnies. Every frame, it records one render pass that binds the shared
`Globals`, then binds each bunny's `Locals` and draws its sprite. It submits the frame, waits for
the previous frame's sync point, and presents.

The model has five modules:

- `GpuTypes` (`gpu_types.dfy`): the values the example exchanges with the library.
  - Floats are kept as opaque 32-bit patterns.
  - The binding kinds a shader-data layout is made of.
  - Opaque, copyable handles, each compared by identity.
  - Sync points, numbered in submission order.
- `ShaderDataProtocol` (`shader_data.dfy`): the library's shader-data contract.
  - A layout is an ordered list of named slots.
  - Data pushed into an encoder is one call per slot, in order, with a matching kind (`Conforms`).
  - `DataEncoder` is a class that records the calls made on it.
- `BunnyData` (`bunny_data.dfy`): the `Globals` and `Locals` types.
  - Their `layout()` as functions.
  - Their `fill()` as methods that drive a `DataEncoder`.
  - The functions giving the calls each `fill` makes, proved to conform to the layout.
- `Recorder` (`recorder.dfy`): the GPU context and its one command encoder, seen from outside.
  - `Context` is a class whose methods append each call to a log.
  - Handles come back as arbitrary values.
  - `submit` returns a fresh sync point.
  - The order the calls must follow is one step function, `Step`, lifted to sequences by `Run`:
    - the encoder goes create, `start`, scope, end of scope, `submit`, and back to `start`;
    - draws and binds need a bound pipeline;
    - a frame can be acquired once the surface is configured.
  - `Context.Valid()` says that the log is a run `Step` accepts and that only submitted sync
    points are waited for.
- `Bunnymark` (`bunnymark.dfy`): the `Example` class with `new`, `increase` and `render`.
  - Each operation is proved against a function that lists the calls it makes (`NewCalls`,
    `RenderCalls`) or the population it leaves (`Increase`).
  - Lemmas prove the ordering and synchronisation facts about those functions.
  - `Example.Valid()` is kept by every operation. It states the following:
    - the whole log is an accepted run that ends between frames;
    - the unwaited submissions are exactly the upload's and the previous frame's;
    - the previous frame's sync point exists from the first frame on.

The sync point of `new`'s texture upload is discarded (`bunnymark.rs:215`), and no call waits for
it. So between frames the unwaited submissions are that upload plus the previous frame, not the
previous frame alone. The model states this exactly (`Example.Render`: `UnwaitedSyncs == {upload,
sp}`). It also proves what makes it harmless when the queue completes in submission order
(`CoveredInOrder`): every frame's sync point is numbered after the upload's. From the second frame
on, the wait on the previous frame therefore covers the upload (`SyncsBetweenFrames`, kept by
`FrameKeepsSyncs`). `FramesInFlight` states the resulting bound. After the first frame, two
submissions are in flight. From the second frame on, only one is, apart from submissions the last
wait covers in order.

## Model

The specification functions have no row of their own. Each is covered by the rows of the members whose contracts use it:

- `BunnyData.GlobalsLayout` models `Globals::layout` (24-56): the four named slots, in order, with their kinds. Covered by `GlobalsFillCalls`, `GlobalsFill` and the constants `MVP_TRANSFORM` to `SPRITE_SAMPLER`.
- `BunnyData.LocalsLayout` models `Locals::layout` (66-92): the three named slots. Covered by `LocalsFillCalls` and `LocalsFill`.
- `BunnyData.ShaderLayouts` models the data layouts handed to `create_shader` (137-143). Covered by `NewCalls` and `FrameBindsMatchShaderLayouts`.
- `PipelineCalls`, `SpriteCalls` and `UploadCalls` model the parts of `new`. Each is covered by the method that logs it (`CreatePipeline`, `CreateSprite`, `UploadTexture`) and by its protocol lemma. `NewCalls` joins the three parts.
- `DrawCalls` models the draw loop (293-296). Covered by `DrawBunnies`, `DrawCallsAt`, `DrawCallsCount` and `DrawCallsFollowProtocol`.
- `FramePrologue`, `FrameEpilogue` and `RenderCalls` model the calls of `render` (262-305). Covered by `BeginFrame`, `EndFrame` and `Example.Render`, and by the frame lemmas from `RenderCallsAt` to `RenderFollowsProtocol`.

| member | source | states |
|---|---|---|
| ShaderDataProtocol.ConformsCoversEachSlotOnce | examples/bunnymark.rs:23-98 | When a fill conforms to a layout, it writes every slot exactly once. It writes no slot outside the layout, visits slots in strictly ascending order, and gives each slot the kind the layout declares. |
| ShaderDataProtocol.DataEncoder.constructor | examples/bunnymark.rs:57 | A fresh encoder has recorded nothing. |
| ShaderDataProtocol.DataEncoder.SetPlain | examples/bunnymark.rs:94 | `set_plain` adds one plain write of that value at that index to the encoder's record, and changes nothing else. |
| ShaderDataProtocol.DataEncoder.SetTexture | examples/bunnymark.rs:60 | `set_texture` adds one texture write of that view at that index. |
| ShaderDataProtocol.DataEncoder.SetSampler | examples/bunnymark.rs:61 | `set_sampler` adds one sampler write of that sampler at that index. |
| BunnyData.GlobalsFillCalls | examples/bunnymark.rs:24-62 | `Globals::fill` conforms to `Globals::layout` (mvp_transform as a 4x4 f32 matrix, sprite_size as an f32 pair, sprite_texture as a 2D texture, sprite_sampler as a non-comparison sampler). Each field is written into the slot of the same name. |
| BunnyData.LocalsFillCalls | examples/bunnymark.rs:66-97 | `Locals::fill` conforms to `Locals::layout` (position and velocity as f32 pairs, color as a u32 scalar). Every write is plain, and each field goes into the slot of the same name. |
| BunnyData.GlobalsFill | examples/bunnymark.rs:57-62 | Running `Globals::fill` on an encoder appends exactly the conforming calls of `GlobalsFillCalls`. |
| BunnyData.LocalsFill | examples/bunnymark.rs:93-97 | Running `Locals::fill` on an encoder appends exactly the conforming calls of `LocalsFillCalls`. |
| Bunnymark.StagingSize | examples/bunnymark.rs:185 | The staging size is a multiple of four bytes. When the u32 product `width * height` does not wrap, it is four bytes per texel. |
| Bunnymark.SpawnCount | examples/bunnymark.rs:233 | A press adds at least 64 bunnies, and the population becomes `3/2` of the old one (rounded down) plus 64. |
| Bunnymark.Example.Increase | examples/bunnymark.rs:231-243 | The population grows by exactly `SpawnCount` of its old length. The old bunnies are kept unchanged, in order, as a prefix. Every new bunny starts at x = 0 at half the window height with zero vertical speed. The set-up invariant is kept. |
| Bunnymark.NewCalls | examples/bunnymark.rs:114-215 | `new`'s calls: 15 in all. The surface is configured at the window size for two frames. The shader gets the Globals (group 0) and Locals (group 1) layouts, and the pipeline gets the surface's format. The staging buffer's size equals both the 4 bytes written into it and the bytes the one-row copy reads. `start` comes once, before the transfer scope, which closes before the only submission, the upload's. |
| Bunnymark.PipelineFollowsProtocol | examples/bunnymark.rs:127-159 | Surface configuration and pipeline creation are accepted from a fresh context, leave it configured with no encoder, and neither submit nor wait. |
| Bunnymark.SpriteFollowsProtocol | examples/bunnymark.rs:161-200 | Creating the texture, view, buffer and sampler and writing the buffer change no protocol state, and neither submit nor wait. |
| Bunnymark.UploadFollowsProtocol | examples/bunnymark.rs:209-215 | The upload creates the encoder, starts it, records one transfer scope and submits. This is accepted, ends with the encoder submitted, submits exactly the upload's sync point and waits for nothing. |
| Bunnymark.NewFollowsProtocol | examples/bunnymark.rs:114-215 | All of `new` is accepted from a fresh context and leaves the encoder submitted and the surface configured. Its only submission is the upload, and it waits for nothing. |
| Bunnymark.CreatePipeline | examples/bunnymark.rs:127-159 | Logs exactly `PipelineCalls` for the handles returned and leaves the surface configured with no encoder. |
| Bunnymark.CreateSprite | examples/bunnymark.rs:161-200 | Logs exactly `SpriteCalls` for the handles returned, with the staging buffer sized by `StagingSize` of the 1x1x1 extent. The protocol state is unchanged. |
| Bunnymark.UploadTexture | examples/bunnymark.rs:209-215 | Logs exactly `UploadCalls` and leaves the encoder submitted. The returned sync point is the next number in submission order. |
| Bunnymark.Example.New | examples/bunnymark.rs:114-229 | The log is exactly `NewCalls` for the handles obtained, and the example is valid between frames. The upload is the one unwaited submission. The population is the one initial bunny, and there is no previous sync point. |
| Bunnymark.DrawCallsAt | examples/bunnymark.rs:293-296 | The draw loop has two calls per bunny: at 2k bunny k's Locals bound at group 1, at 2k+1 one four-vertex sprite instance. |
| Bunnymark.DrawCallsCount | examples/bunnymark.rs:293-296 | The draw loop issues one draw per bunny. |
| Bunnymark.DrawCallsFollowProtocol | examples/bunnymark.rs:293-296 | The draw loop is accepted inside a render pass with a bound pipeline, and leaves it so. |
| Bunnymark.DrawBunnies | examples/bunnymark.rs:293-296 | Logs exactly `DrawCalls` of the population, without leaving the render pass. |
| Bunnymark.BindGlobals | examples/bunnymark.rs:278-291 | `bind_data(0, ..)` logs one group-0 bind whose data is exactly what `Globals::fill` produces. |
| Bunnymark.BindLocals | examples/bunnymark.rs:294 | `bind_data(1, local)` logs one group-1 bind whose data is exactly what `Locals::fill` produces. |
| Bunnymark.BeginFrame | examples/bunnymark.rs:263-291 | Logs exactly `FramePrologue`, moving from between frames to a render pass with the pipeline bound. |
| Bunnymark.EndFrame | examples/bunnymark.rs:297-303 | Logs exactly `FrameEpilogue`: the end of the scope, a submission with a fresh sync point, the wait when there is a previous one, then the present. Ends between frames. |
| Bunnymark.RenderCallsAt | examples/bunnymark.rs:262-304 | One frame's calls have the frame layout. Positions 0-4 are acquire, start, render pass on the acquired frame, pipeline, and globals at group 0. Bunny k's bind and draw follow at 5+2k and 6+2k. Then come the end of scope, the submission, the wait for the previous sync point with timeout `!0` when there is one, and the present of the acquired frame, last. |
| Bunnymark.FrameLoopSlot | examples/bunnymark.rs:293-296 | Every position of a frame's draw loop is bunny `(i-5)/2`'s bind or its draw. |
| Bunnymark.RenderDrawCount | examples/bunnymark.rs:278-296 | A frame issues exactly as many draws as there are bunnies. |
| Bunnymark.FrameDrawsEachBunny | examples/bunnymark.rs:278-296 | Every draw of a frame is one four-vertex instance right after the group-1 bind of one bunny's Locals. Globals are bound at group 0 exactly once, before any draw. |
| Bunnymark.FrameBindsMatchShaderLayouts | examples/bunnymark.rs:278-296 | Every bind of a frame uses a group the shader was created with, and its data conforms to that group's layout. |
| Bunnymark.FrameOrder | examples/bunnymark.rs:262-304 | `start` comes once, before every scope call. The scope closes once, after every scope call and right before the one submission. The only wait happens exactly when there is a previous sync point: it waits for that point, without timeout, right after the submission. `present` comes last. |
| Bunnymark.FrameSyncs | examples/bunnymark.rs:299-304 | A frame submits exactly its own sync point and waits exactly for the previous one, if any. |
| Bunnymark.RenderSyncs | examples/bunnymark.rs:299-304 | The calls of `render` submit exactly the frame's sync point and wait exactly for the previous one, if any. |
| Bunnymark.PrologueFollowsProtocol | examples/bunnymark.rs:263-291 | The part of the frame before the draw loop is accepted between frames and opens a render pass with the pipeline bound. |
| Bunnymark.EpilogueFollowsProtocol | examples/bunnymark.rs:297-303 | The part of the frame after the draw loop is accepted in that render pass and returns to between frames. |
| Bunnymark.RenderFollowsProtocol | examples/bunnymark.rs:262-305 | A whole frame is accepted between frames and returns to between frames, so frames can follow each other indefinitely. |
| Bunnymark.Example.Render | examples/bunnymark.rs:262-305 | Logs exactly `RenderCalls` for the frame acquired, the current population and the previous sync point. Afterwards `prev_sync_point` holds this frame's point, the population is unchanged, and the example stays valid. Exactly the upload and this frame are unwaited. |
| Bunnymark.FrameLeavesUploadAndFrameUnwaited | examples/bunnymark.rs:299-304 | Suppose, before a frame, the unwaited submissions are the upload and the previous frame. The frame submits a new point and waits for the previous one. Then the upload and the new point are exactly what is left unwaited. |
| Bunnymark.FrameCoversUpload | examples/bunnymark.rs:299-302 | Under submission-order completion, once a frame waits for a point submitted after the upload, the upload stays covered. |
| Bunnymark.FramesInFlight | examples/bunnymark.rs:299-304 | After the first frame, two submissions are in flight, the upload and that frame, and they differ. From the second frame on, every unwaited submission except the previous frame's is covered in submission order, so one frame is in flight. |
| Bunnymark.FrameKeepsSyncs | examples/bunnymark.rs:299-304 | A frame whose submission is numbered after every earlier one, and which waits for the previous frame's, keeps the synchronisation state between frames, with itself as the previous frame. |
| Recorder.Context.InitWindowed | examples/bunnymark.rs:116-125 | A new context's log is the one initialisation call with validation on and capture off. Nothing is submitted yet, and no surface is configured. |
| Recorder.Context.Resize | examples/bunnymark.rs:127-135 | `resize` configures the surface and leaves the encoder's state alone. |
| Recorder.Context.CreateShader | examples/bunnymark.rs:140-143 | `create_shader` logs the data layouts it was given, with the returned shader. |
| Recorder.Context.CreateRenderPipeline | examples/bunnymark.rs:145-159 | `create_render_pipeline` logs the shader and the color target's format, with the returned pipeline. |
| Recorder.Context.CreateTexture | blade-graphics/src/traits.rs:10 | `create_texture` logs the format and size, with the returned handle. |
| Recorder.Context.CreateTextureView | blade-graphics/src/traits.rs:12 | `create_texture_view` logs the source texture, format and dimension, with the returned handle. |
| Recorder.Context.CreateBuffer | blade-graphics/src/traits.rs:8 | `create_buffer` logs the byte size and memory kind, with the returned handle. |
| Recorder.Context.HostWrite | examples/bunnymark.rs:189-195 | Copying bytes into a buffer's mapped memory logs the copied bytes. |
| Recorder.Context.CreateSampler | blade-graphics/src/traits.rs:14 | `create_sampler` logs the returned handle. |
| Recorder.Context.CreateCommandEncoder | blade-graphics/src/traits.rs:22 | `create_command_encoder` is allowed only while no encoder exists, and creates one. |
| Recorder.Context.Start | examples/bunnymark.rs:211 | `start` is allowed on a new or a submitted encoder and begins recording. |
| Recorder.Context.WithTransfers | examples/bunnymark.rs:212 | A transfer scope opens only on a recording encoder. |
| Recorder.Context.CopyBufferToTexture | examples/bunnymark.rs:213 | A buffer-to-texture copy is allowed only inside a transfer scope. |
| Recorder.Context.WithRenderTargets | examples/bunnymark.rs:266-275 | A render pass opens only on a recording encoder, on the given frame. |
| Recorder.Context.WithPipeline | examples/bunnymark.rs:277 | Binding a pipeline needs an open render pass and marks the pipeline bound. |
| Recorder.Context.BindData | examples/bunnymark.rs:278 | `bind_data` needs a bound pipeline and leaves the state unchanged. |
| Recorder.Context.Draw | examples/bunnymark.rs:295 | `draw` needs a bound pipeline and leaves the state unchanged. |
| Recorder.Context.EndScope | examples/bunnymark.rs:297 | The end of a transfer or render scope returns the encoder to recording. |
| Recorder.Context.Submit | blade-graphics/src/traits.rs:24 | `submit` needs a recording encoder, marks it submitted, and returns a sync point never returned before, numbered next in submission order. |
| Recorder.Context.WaitFor | blade-graphics/src/traits.rs:25 | `wait_for` takes a submitted sync point and a u32 timeout, and changes no protocol state. |
| Recorder.Context.AcquireFrame | examples/bunnymark.rs:263 | A frame can be acquired only once the surface is configured. |
| Recorder.Context.Present | examples/bunnymark.rs:303 | `present` logs the presented frame and leaves the state unchanged. |

## Left out

- `Example::step` (`bunnymark.rs:245-260`): floating-point physics and bounce tests. Floats are opaque bit patterns.
- The float values `render` and `increase` compute from the window size are not computed here: the orthographic `mvp_transform` (282-285) and the spawn height `0.5 * height` (237). They come into `Example.New` as a `WindowFloats` input and are used unchanged in every frame.
- The random speed and colour from `ThreadRng` (235, 239) are arbitrary values.
- The winit event loop, keyboard handling, frame-time printing and `main` (312-375) are user interface and I/O. So is the population `println!` in `increase` (242).
- Reading the shader source file (139) is I/O. The shader is an opaque handle, and the file's contents are not modelled.
- The unsafe `ptr::copy_nonoverlapping` (189-195) is a raw-memory copy. It is modelled as one logged `HostWrite` of the four bytes, and the buffer's memory is not modelled.
- The library's internals (`init_windowed`, `resize`, `create_*`, `acquire_frame`, `submit`, `wait_for`, `present`) have no bodies to model. Returned handles and the surface format are arbitrary values. The requirements on the order of calls are modelled as the state machine in `Recorder.Step`. The requirement that `wait_for` only takes a sync point that `submit` returned is part of `Context.Valid` and of `WaitFor`'s precondition.
- The failure of `init_windowed(..).unwrap()` (124) is not modelled. The model covers the successful path only.
- Recorder.Context.CreateCommandEncoder: the context models the example's one command encoder, so `Step` accepts its creation only while no encoder exists. The library allows several encoders, and `destroy_command_encoder` is not modelled.
- GPU execution, CPU/GPU concurrency and the blocking in `wait_for` and `acquire_frame` are left out. The `bool` that `wait_for` returns is arbitrary and ignored, as in `render`. Completion in submission order is a stated assumption (`CoveredInOrder`), not modelled behaviour.
- `deinit` (307-309) has an empty body.
- Bunnymark.Example.Increase: does not model `usize` overflow of `64 + len / 2` or of the population's length, which would need more bunnies than memory allows.
- Bunnymark.Example.New: requires the window size to fit in `u32`, which is the type `inner_size` returns.
- Bunnymark.Example.Render: returns the acquired frame and the new sync point as ghost values only, so that its contract can name them. The source keeps the sync point in `prev_sync_point`, which the model keeps too.
- Dropping a scope value at the end of its `if let` block is modelled as an explicit `EndScope` call.
