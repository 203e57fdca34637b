/** The bunnymark example: set-up (`Example::new`), population growth (`Example::increase`) and
    the per-frame command sequence (`Example::render`), each proved against a function that gives
    the calls it makes, with the ordering and synchronisation facts proved about those functions. */
module Bunnymark {
  import opened GpuTypes
  import opened ShaderDataProtocol
  import opened BunnyData
  import opened Recorder

  // f32 constants of the example, as bit patterns.
  const ZERO: Float32 := Float32(0x0000_0000)
  const MINUS_100: Float32 := Float32(0xC2C8_0000)
  const PLUS_100: Float32 := Float32(0x42C8_0000)
  const PLUS_10: Float32 := Float32(0x4120_0000)
  /** `BUNNY_SIZE = 0.15 * 256.0`, that is 38.4 rounded to f32. */
  const BUNNY_SIZE: Float32 := Float32(0x4219_999A)

  /** The bunny `new` starts the population with. */
  const FIRST_BUNNY: Locals := Locals(Vec2(MINUS_100, PLUS_100), Vec2(PLUS_10, ZERO), 0xFFFF_FFFF)

  /** The sprite texture: one RGBA8 texel, and the four bytes (opaque white) uploaded into it. */
  const TEXTURE_EXTENT: Extent := Extent(1, 1, 1)
  const TEXTURE_DATA: seq<bv8> := [0xFF, 0xFF, 0xFF, 0xFF]
  /** The row pitch `new` passes to `copy_buffer_to_texture`. */
  const BYTES_PER_ROW: nat := 4

  /** Vertices per sprite: a four-vertex triangle strip. */
  const SPRITE_VERTICES: nat := 4

  /** The float values the example derives from the window size: the orthographic transform
      (2/width, 2/height, offset -1) and half the window height, where new bunnies spawn. */
  datatype WindowFloats = WindowFloats(mvp: Mat4, spawnHeight: Float32)

  /** The handles `new` gets back from the library, and the sync point of its upload. */
  datatype Setup = Setup(
    surfaceFormat: TextureFormat,
    shader: Shader,
    pipeline: RenderPipeline,
    texture: Texture,
    view: TextureView,
    staging: Buffer,
    sampler: Sampler,
    uploadSync: SyncPoint)

  /** `(extent.width * extent.height) as u64 * 4`: the product is taken in u32 (it wraps in
      release builds and panics in debug builds; the wrapping is modelled), the result counts
      four bytes per texel. */
  function StagingSize(e: Extent): (n: nat)
    ensures n % 4 == 0
    ensures e.width * e.height < U32_LIMIT ==> n == 4 * (e.width * e.height)
  {
    ((e.width * e.height) % U32_LIMIT) * 4
  }

  /** `64 + len / 2` new bunnies: at least 64, and the population grows by half (rounded down). */
  function SpawnCount(len: nat): (k: nat)
    ensures k >= 64
    ensures len + k == (3 * len) / 2 + 64
  {
    64 + len / 2
  }

  /** `new`'s surface configuration and pipeline set-up. */
  function PipelineCalls(size: Extent, surfaceFormat: TextureFormat, shader: Shader, pipeline: RenderPipeline): seq<Call> {
    [ Resize(size, 2),
      CreateShader(shader, ShaderLayouts()),
      CreateRenderPipeline(pipeline, shader, surfaceFormat) ]
  }

  /** `new`'s sprite resources: the texture, its view, the staging buffer and its contents, the sampler. */
  function SpriteCalls(texture: Texture, view: TextureView, staging: Buffer, sampler: Sampler): seq<Call> {
    [ CreateTexture(texture, Rgba8Unorm, TEXTURE_EXTENT),
      CreateTextureView(view, texture, Rgba8Unorm, D2),
      CreateBuffer(staging, StagingSize(TEXTURE_EXTENT), Upload),
      HostWrite(staging, TEXTURE_DATA),
      CreateSampler(sampler) ]
  }

  /** `new`'s upload of the staging buffer into the texture. */
  function UploadCalls(staging: Buffer, texture: Texture, uploadSync: SyncPoint): seq<Call> {
    [ CreateCommandEncoder,
      Start,
      BeginTransfers,
      CopyBufferToTexture(staging, BYTES_PER_ROW, texture, TEXTURE_EXTENT),
      EndScope,
      Submit(uploadSync) ]
  }

  /** The calls `new` makes, in order. The staging buffer is exactly as large as the bytes written
      into it and as the one-row copy into the texture reads (4 bytes); the data layouts handed to
      the shader are those of Globals (group 0) and Locals (group 1); the pipeline is created for
      the surface's format; `start` comes once, before the transfer scope, which closes before the
      only submission, the upload's. */
  function NewCalls(width: nat, height: nat, s: Setup): (r: seq<Call>)
    ensures |r| == 15
    ensures r[1] == Resize(Extent(width, height, 1), 2)
    ensures r[2] == CreateShader(s.shader, [Some(GlobalsLayout()), Some(LocalsLayout())])
    ensures r[3] == CreateRenderPipeline(s.pipeline, s.shader, s.surfaceFormat)
    ensures r[6] == CreateBuffer(s.staging, 4, Upload) && r[7] == HostWrite(s.staging, TEXTURE_DATA)
    ensures r[12] == CopyBufferToTexture(s.staging, BYTES_PER_ROW, s.texture, TEXTURE_EXTENT)
    ensures r[6].byteSize == |r[7].bytes| == r[12].bytesPerRow * r[12].extent.height * r[12].extent.depth
    ensures forall i :: 0 <= i < |r| && r[i].Start? ==> i == 10
    ensures forall i :: 0 <= i < |r| && (r[i].BeginTransfers? || r[i].CopyBufferToTexture? || r[i].EndScope?) ==> 10 < i < 14
    ensures forall i :: 0 <= i < |r| && r[i].EndScope? ==> i == 13
    ensures forall i :: 0 <= i < |r| && r[i].Submit? ==> i == 14 && r[i].sp == s.uploadSync
  {
    [InitWindowed(true, false)]
    + PipelineCalls(Extent(width, height, 1), s.surfaceFormat, s.shader, s.pipeline)
    + SpriteCalls(s.texture, s.view, s.staging, s.sampler)
    + UploadCalls(s.staging, s.texture, s.uploadSync)
  }

  /** Configuring the surface and creating the pipeline need no encoder, and configure the surface. */
  lemma PipelineFollowsProtocol(size: Extent, surfaceFormat: TextureFormat, shader: Shader, pipeline: RenderPipeline)
    ensures Run(FRESH, PipelineCalls(size, surfaceFormat, shader, pipeline)) == Some(ProtocolState(NoEncoder, true))
    ensures SubmittedSyncs(PipelineCalls(size, surfaceFormat, shader, pipeline)) == {}
    ensures WaitedSyncs(PipelineCalls(size, surfaceFormat, shader, pipeline)) == {}
  {
    var c := ProtocolState(NoEncoder, true);
    RunTrace(FRESH, PipelineCalls(size, surfaceFormat, shader, pipeline), [FRESH, c, c, c]);
  }

  /** Creating the sprite's resources changes no protocol state. */
  lemma SpriteFollowsProtocol(texture: Texture, view: TextureView, staging: Buffer, sampler: Sampler)
    ensures Run(ProtocolState(NoEncoder, true), SpriteCalls(texture, view, staging, sampler)) == Some(ProtocolState(NoEncoder, true))
    ensures SubmittedSyncs(SpriteCalls(texture, view, staging, sampler)) == {}
    ensures WaitedSyncs(SpriteCalls(texture, view, staging, sampler)) == {}
  {
    var c := ProtocolState(NoEncoder, true);
    RunTrace(c, SpriteCalls(texture, view, staging, sampler), [c, c, c, c, c, c]);
  }

  /** The upload creates the encoder, records one transfer pass and submits it, once. */
  lemma UploadFollowsProtocol(staging: Buffer, texture: Texture, uploadSync: SyncPoint)
    ensures Run(ProtocolState(NoEncoder, true), UploadCalls(staging, texture, uploadSync)) == Some(ProtocolState(Submitted, true))
    ensures SubmittedSyncs(UploadCalls(staging, texture, uploadSync)) == {uploadSync}
    ensures WaitedSyncs(UploadCalls(staging, texture, uploadSync)) == {}
  {
    var calls := UploadCalls(staging, texture, uploadSync);
    RunTrace(ProtocolState(NoEncoder, true), calls,
             [ProtocolState(NoEncoder, true), ProtocolState(Initial, true), ProtocolState(Recording, true),
              ProtocolState(Transfers, true), ProtocolState(Transfers, true), ProtocolState(Recording, true),
              ProtocolState(Submitted, true)]);
    assert calls[5] == Submit(uploadSync);
  }

  /** The protocol accepts the set-up calls from a fresh context and leaves the encoder submitted
      and the surface configured; the upload is submitted and nothing is waited for. */
  lemma NewFollowsProtocol(width: nat, height: nat, s: Setup)
    ensures Run(FRESH, NewCalls(width, height, s)) == Some(ProtocolState(Submitted, true))
    ensures SubmittedSyncs(NewCalls(width, height, s)) == {s.uploadSync}
    ensures WaitedSyncs(NewCalls(width, height, s)) == {}
  {
    var init := [InitWindowed(true, false)];
    var pipe := PipelineCalls(Extent(width, height, 1), s.surfaceFormat, s.shader, s.pipeline);
    var sprite := SpriteCalls(s.texture, s.view, s.staging, s.sampler);
    var upload := UploadCalls(s.staging, s.texture, s.uploadSync);
    RunTrace(FRESH, init, [FRESH, FRESH]);
    SyncsOne(init[0]);
    PipelineFollowsProtocol(Extent(width, height, 1), s.surfaceFormat, s.shader, s.pipeline);
    SpriteFollowsProtocol(s.texture, s.view, s.staging, s.sampler);
    UploadFollowsProtocol(s.staging, s.texture, s.uploadSync);
    RunConcat(FRESH, init, pipe);
    RunConcat(FRESH, init + pipe, sprite);
    RunConcat(FRESH, init + pipe + sprite, upload);
    SyncsConcat(init, pipe);
    SyncsConcat(init + pipe, sprite);
    SyncsConcat(init + pipe + sprite, upload);
  }

  /** The calls of the draw loop: for each bunny, its Locals bound at group 1, then one sprite. */
  function DrawCalls(bunnies: seq<Locals>): seq<Call> {
    if bunnies == [] then []
    else DrawCalls(bunnies[..|bunnies| - 1])
         + [BindData(1, LocalsFillCalls(bunnies[|bunnies| - 1])), Draw(0, SPRITE_VERTICES, 0, 1)]
  }

  /** What `render` records before the draw loop: the frame, `start`, the render pass, the
      pipeline and the globals at group 0. */
  function FramePrologue(frame: Frame, pipeline: RenderPipeline, globals: Globals): seq<Call> {
    [AcquireFrame(frame), Start, BeginRenderPass(frame), BindPipeline(pipeline), BindData(0, GlobalsFillCalls(globals))]
  }

  /** What `render` records after the draw loop: the scope closes, the frame is submitted, the
      previous sync point (if any) is waited for, the frame is presented. */
  function FrameEpilogue(frame: Frame, sp: SyncPoint, prev: Option<SyncPoint>): seq<Call> {
    [EndScope, Submit(sp)]
    + (if prev.Some? then [WaitFor(prev.value, WAIT_FOREVER)] else [])
    + [Present(frame)]
  }

  /** The calls `render` makes for one frame. */
  function RenderCalls(frame: Frame, pipeline: RenderPipeline, globals: Globals, bunnies: seq<Locals>,
                       sp: SyncPoint, prev: Option<SyncPoint>): seq<Call>
  {
    FramePrologue(frame, pipeline, globals) + DrawCalls(bunnies) + FrameEpilogue(frame, sp, prev)
  }

  /** Where the submission of a frame sits in `RenderCalls`. */
  function SubmitIndex(bunnyCount: nat): nat {
    6 + 2 * bunnyCount
  }

  /** How many draws a sequence of calls issues. */
  function CountDraws(calls: seq<Call>): nat {
    if calls == [] then 0
    else CountDraws(calls[..|calls| - 1]) + (if calls[|calls| - 1].Draw? then 1 else 0)
  }

  lemma {:induction false} CountDrawsConcat(a: seq<Call>, b: seq<Call>)
    ensures CountDraws(a + b) == CountDraws(a) + CountDraws(b)
  {
    if b == [] {
      assert a + b == a;
    } else {
      assert (a + b)[..|a + b| - 1] == a + b[..|b| - 1];
      CountDrawsConcat(a, b[..|b| - 1]);
    }
  }

  lemma {:induction false} CountNoDraws(calls: seq<Call>)
    requires forall i :: 0 <= i < |calls| ==> !calls[i].Draw?
    ensures CountDraws(calls) == 0
  {
    if calls != [] {
      CountNoDraws(calls[..|calls| - 1]);
    }
  }

  /** The draw loop: bunny k's Locals are bound at position 2k, its sprite drawn at 2k+1. */
  lemma {:induction false} DrawCallsAt(bunnies: seq<Locals>)
    ensures |DrawCalls(bunnies)| == 2 * |bunnies|
    ensures forall k :: 0 <= k < |bunnies| ==>
      DrawCalls(bunnies)[2 * k] == BindData(1, LocalsFillCalls(bunnies[k]))
      && DrawCalls(bunnies)[2 * k + 1] == Draw(0, SPRITE_VERTICES, 0, 1)
  {
    if bunnies != [] {
      var n := |bunnies|;
      var init := bunnies[..n - 1];
      var front := DrawCalls(init);
      var tail := [BindData(1, LocalsFillCalls(bunnies[n - 1])), Draw(0, SPRITE_VERTICES, 0, 1)];
      DrawCallsAt(init);
      assert DrawCalls(bunnies) == front + tail;
      forall k | 0 <= k < n
        ensures (front + tail)[2 * k] == BindData(1, LocalsFillCalls(bunnies[k]))
        ensures (front + tail)[2 * k + 1] == Draw(0, SPRITE_VERTICES, 0, 1)
      {
        if k < n - 1 {
          assert bunnies[k] == init[k];
          assert (front + tail)[2 * k] == front[2 * k] && (front + tail)[2 * k + 1] == front[2 * k + 1];
        } else {
          assert (front + tail)[2 * k] == tail[0] && (front + tail)[2 * k + 1] == tail[1];
        }
      }
    }
  }

  /** The draw loop issues one draw per bunny. */
  lemma {:induction false} DrawCallsCount(bunnies: seq<Locals>)
    ensures CountDraws(DrawCalls(bunnies)) == |bunnies|
  {
    if bunnies != [] {
      var init := bunnies[..|bunnies| - 1];
      var tail := [BindData(1, LocalsFillCalls(bunnies[|bunnies| - 1])), Draw(0, SPRITE_VERTICES, 0, 1)];
      DrawCallsCount(init);
      CountDrawsConcat(DrawCalls(init), tail);
      assert tail[..1] == [tail[0]] && [tail[0]][..0] == [];
      assert CountDraws([tail[0]]) == 0;
      assert CountDraws(tail) == 1;
    }
  }

  /** The draw loop is accepted inside a render pass with its pipeline bound, and leaves it so. */
  lemma {:induction false} DrawCallsFollowProtocol(bunnies: seq<Locals>)
    ensures Run(ProtocolState(Rendering(true), true), DrawCalls(bunnies)) == Some(ProtocolState(Rendering(true), true))
  {
    if bunnies != [] {
      var init := bunnies[..|bunnies| - 1];
      var tail := [BindData(1, LocalsFillCalls(bunnies[|bunnies| - 1])), Draw(0, SPRITE_VERTICES, 0, 1)];
      var r := ProtocolState(Rendering(true), true);
      DrawCallsFollowProtocol(init);
      RunConcat(r, DrawCalls(init), tail);
      RunTrace(r, tail, [r, r, r]);
    }
  }

  /** The layout of one frame's calls: the prologue, bunny k's bind and draw at 5 + 2k and 6 + 2k,
      then the epilogue. */
  predicate FrameLayout(calls: seq<Call>, frame: Frame, pipeline: RenderPipeline, globals: Globals,
      bunnies: seq<Locals>, sp: SyncPoint, prev: Option<SyncPoint>)
  {
    var s := SubmitIndex(|bunnies|);
    && |calls| == s + 2 + |OptionSet(prev)|
    && calls[0] == AcquireFrame(frame) && calls[1] == Start && calls[2] == BeginRenderPass(frame)
    && calls[3] == BindPipeline(pipeline) && calls[4] == BindData(0, GlobalsFillCalls(globals))
    && (forall k :: 0 <= k < |bunnies| ==>
          calls[5 + 2 * k] == BindData(1, LocalsFillCalls(bunnies[k]))
          && calls[6 + 2 * k] == Draw(0, SPRITE_VERTICES, 0, 1))
    && calls[s - 1] == EndScope && calls[s] == Submit(sp)
    && (prev.Some? ==> calls[s + 1] == WaitFor(prev.value, WAIT_FOREVER))
    && calls[|calls| - 1] == Present(frame)
  }

  /** A prologue, a draw loop with bunny k's bind and draw at 2k and 2k + 1, and an epilogue make
      up a frame. */
  lemma LayoutOfParts(calls: seq<Call>, loop: seq<Call>, frame: Frame, pipeline: RenderPipeline, globals: Globals,
                      bunnies: seq<Locals>, sp: SyncPoint, prev: Option<SyncPoint>)
    requires |loop| == 2 * |bunnies|
    requires forall k :: 0 <= k < |bunnies| ==>
      loop[2 * k] == BindData(1, LocalsFillCalls(bunnies[k])) && loop[2 * k + 1] == Draw(0, SPRITE_VERTICES, 0, 1)
    requires calls == FramePrologue(frame, pipeline, globals) + loop + FrameEpilogue(frame, sp, prev)
    ensures FrameLayout(calls, frame, pipeline, globals, bunnies, sp, prev)
  {
    var pro := FramePrologue(frame, pipeline, globals);
    var epi := FrameEpilogue(frame, sp, prev);
    if prev.Some? { assert |OptionSet(prev)| == 1; } else { assert OptionSet(prev) == {}; }
    forall k | 0 <= k < |bunnies|
      ensures calls[5 + 2 * k] == loop[2 * k] && calls[6 + 2 * k] == loop[2 * k + 1]
    {
    }
    assert calls[5 + |loop|] == epi[0] && calls[6 + |loop|] == epi[1];
    assert calls[|calls| - 1] == epi[|epi| - 1];
    if prev.Some? { assert calls[7 + |loop|] == epi[2]; }
  }

  /** The calls `render` makes have the layout of a frame. */
  lemma RenderCallsAt(frame: Frame, pipeline: RenderPipeline, globals: Globals, bunnies: seq<Locals>,
                      sp: SyncPoint, prev: Option<SyncPoint>)
    ensures FrameLayout(RenderCalls(frame, pipeline, globals, bunnies, sp, prev), frame, pipeline, globals, bunnies, sp, prev)
  {
    DrawCallsAt(bunnies);
    LayoutOfParts(RenderCalls(frame, pipeline, globals, bunnies, sp, prev), DrawCalls(bunnies),
                  frame, pipeline, globals, bunnies, sp, prev);
  }

  /** A position inside a frame's draw loop belongs to bunny `(i - 5) / 2`: its bind or its draw. */
  lemma FrameLoopSlot(calls: seq<Call>, frame: Frame, pipeline: RenderPipeline, globals: Globals,
      bunnies: seq<Locals>, sp: SyncPoint, prev: Option<SyncPoint>, i: int)
    requires FrameLayout(calls, frame, pipeline, globals, bunnies, sp, prev)
    requires 5 <= i < SubmitIndex(|bunnies|) - 1
    ensures var k := (i - 5) / 2;
      && 0 <= k < |bunnies|
      && ((i == 5 + 2 * k && calls[i] == BindData(1, LocalsFillCalls(bunnies[k])))
          || (i == 6 + 2 * k && calls[i] == Draw(0, SPRITE_VERTICES, 0, 1)))
  {
    var k := (i - 5) / 2;
    assert i - 5 == 2 * k || i - 5 == 2 * k + 1;
  }

  /** One frame issues exactly one draw per bunny. */
  lemma RenderDrawCount(frame: Frame, pipeline: RenderPipeline, globals: Globals, bunnies: seq<Locals>,
                        sp: SyncPoint, prev: Option<SyncPoint>)
    ensures CountDraws(RenderCalls(frame, pipeline, globals, bunnies, sp, prev)) == |bunnies|
  {
    var pro := FramePrologue(frame, pipeline, globals);
    var epi := FrameEpilogue(frame, sp, prev);
    DrawCallsCount(bunnies);
    CountNoDraws(pro);
    CountNoDraws(epi);
    CountDrawsConcat(pro, DrawCalls(bunnies));
    CountDrawsConcat(pro + DrawCalls(bunnies), epi);
  }

  /** A frame draws each bunny: every draw is one four-vertex sprite instance right after the
      group-1 bind of some bunny's Locals, and globals are bound at group 0 exactly once, before
      any draw. */
  lemma FrameDrawsEachBunny(calls: seq<Call>, frame: Frame, pipeline: RenderPipeline, globals: Globals,
      bunnies: seq<Locals>, sp: SyncPoint, prev: Option<SyncPoint>)
    requires FrameLayout(calls, frame, pipeline, globals, bunnies, sp, prev)
    ensures forall i :: 0 <= i < |calls| && calls[i].Draw? ==>
      exists k :: 0 <= k < |bunnies| && i == 6 + 2 * k
                 && calls[i - 1] == BindData(1, LocalsFillCalls(bunnies[k])) && calls[i] == Draw(0, SPRITE_VERTICES, 0, 1)
    ensures forall i :: 0 <= i < |calls| && calls[i].BindData? && calls[i].group == 0 ==> i == 4
  {
    var s := SubmitIndex(|bunnies|);
    forall i | 0 <= i < |calls| && (calls[i].Draw? || (calls[i].BindData? && calls[i].group == 0))
      ensures calls[i].Draw? ==>
        exists k :: 0 <= k < |bunnies| && i == 6 + 2 * k
          && calls[i - 1] == BindData(1, LocalsFillCalls(bunnies[k])) && calls[i] == Draw(0, SPRITE_VERTICES, 0, 1)
      ensures calls[i].BindData? && calls[i].group == 0 ==> i == 4
    {
      if 5 <= i < s - 1 {
        FrameLoopSlot(calls, frame, pipeline, globals, bunnies, sp, prev, i);
      }
    }
  }

  /** Every bind of a frame fits the layout the shader was created with for that group. */
  lemma FrameBindsMatchShaderLayouts(calls: seq<Call>, frame: Frame, pipeline: RenderPipeline, globals: Globals,
      bunnies: seq<Locals>, sp: SyncPoint, prev: Option<SyncPoint>)
    requires FrameLayout(calls, frame, pipeline, globals, bunnies, sp, prev)
    ensures forall i :: 0 <= i < |calls| && calls[i].BindData? ==>
      calls[i].group < |ShaderLayouts()| && ShaderLayouts()[calls[i].group].Some?
      && Conforms(ShaderLayouts()[calls[i].group].value, calls[i].data)
  {
    var s := SubmitIndex(|bunnies|);
    forall i | 0 <= i < |calls| && calls[i].BindData?
      ensures calls[i].group < |ShaderLayouts()| && ShaderLayouts()[calls[i].group].Some?
              && Conforms(ShaderLayouts()[calls[i].group].value, calls[i].data)
    {
      if 5 <= i < s - 1 {
        FrameLoopSlot(calls, frame, pipeline, globals, bunnies, sp, prev, i);
      }
    }
  }

  /** A frame's order: `start` comes once, first, before every scope call; every scope call
      comes before the scope closes; the scope closes once, right before the one submission; the
      only wait, present exactly when there is a previous sync point, waits for it without
      timeout right after the submission; `present` of the acquired frame comes last. */
  lemma FrameOrder(calls: seq<Call>, frame: Frame, pipeline: RenderPipeline, globals: Globals,
      bunnies: seq<Locals>, sp: SyncPoint, prev: Option<SyncPoint>)
    requires FrameLayout(calls, frame, pipeline, globals, bunnies, sp, prev)
    ensures var s := SubmitIndex(|bunnies|);
      && (forall i :: (0 <= i < |calls| && (calls[i].BeginRenderPass? || calls[i].BindPipeline?
                                            || calls[i].BindData? || calls[i].Draw?)) ==> 1 < i < s - 1)
      && (forall i :: 0 <= i < |calls| && calls[i].Start? ==> i == 1)
      && (forall i :: 0 <= i < |calls| && calls[i].EndScope? ==> i == s - 1)
      && (forall i :: 0 <= i < |calls| && calls[i].Submit? ==> i == s)
      && (forall i :: 0 <= i < |calls| && calls[i].WaitFor? ==>
            prev.Some? && i == s + 1 && calls[i] == WaitFor(prev.value, WAIT_FOREVER))
      && (forall i :: 0 <= i < |calls| && calls[i].Present? ==> i == |calls| - 1)
  {
    var s := SubmitIndex(|bunnies|);
    forall i | 5 <= i < s - 1
      ensures calls[i].BindData? || calls[i].Draw?
    {
      FrameLoopSlot(calls, frame, pipeline, globals, bunnies, sp, prev, i);
    }
  }

  /** A frame submits exactly once, at its own sync point, and waits only for the previous one. */
  lemma FrameSyncs(calls: seq<Call>, frame: Frame, pipeline: RenderPipeline, globals: Globals,
      bunnies: seq<Locals>, sp: SyncPoint, prev: Option<SyncPoint>)
    requires FrameLayout(calls, frame, pipeline, globals, bunnies, sp, prev)
    ensures SubmittedSyncs(calls) == {sp}
    ensures WaitedSyncs(calls) == OptionSet(prev)
  {
    FrameOrder(calls, frame, pipeline, globals, bunnies, sp, prev);
    assert calls[SubmitIndex(|bunnies|)] == Submit(sp);
  }

  /** One frame of `render` submits exactly once, at its own sync point, and waits only for the
      previous frame's. */
  lemma RenderSyncs(frame: Frame, pipeline: RenderPipeline, globals: Globals, bunnies: seq<Locals>,
                    sp: SyncPoint, prev: Option<SyncPoint>)
    ensures SubmittedSyncs(RenderCalls(frame, pipeline, globals, bunnies, sp, prev)) == {sp}
    ensures WaitedSyncs(RenderCalls(frame, pipeline, globals, bunnies, sp, prev)) == OptionSet(prev)
  {
    RenderCallsAt(frame, pipeline, globals, bunnies, sp, prev);
    FrameSyncs(RenderCalls(frame, pipeline, globals, bunnies, sp, prev), frame, pipeline, globals, bunnies, sp, prev);
  }

  /** The frame's prologue opens a render pass with its pipeline bound. */
  lemma PrologueFollowsProtocol(frame: Frame, pipeline: RenderPipeline, globals: Globals)
    ensures Run(ProtocolState(Submitted, true), FramePrologue(frame, pipeline, globals))
            == Some(ProtocolState(Rendering(true), true))
  {
    var between := ProtocolState(Submitted, true);
    var drawing := ProtocolState(Rendering(true), true);
    RunTrace(between, FramePrologue(frame, pipeline, globals),
             [between, between, ProtocolState(Recording, true), ProtocolState(Rendering(false), true), drawing, drawing]);
  }

  /** The frame's epilogue closes the render pass and leaves the encoder submitted. */
  lemma EpilogueFollowsProtocol(frame: Frame, sp: SyncPoint, prev: Option<SyncPoint>)
    ensures Run(ProtocolState(Rendering(true), true), FrameEpilogue(frame, sp, prev))
            == Some(ProtocolState(Submitted, true))
  {
    var between := ProtocolState(Submitted, true);
    var drawing := ProtocolState(Rendering(true), true);
    var recording := ProtocolState(Recording, true);
    if prev.Some? {
      assert FrameEpilogue(frame, sp, prev) == [EndScope, Submit(sp), WaitFor(prev.value, WAIT_FOREVER), Present(frame)];
      RunTrace(drawing, FrameEpilogue(frame, sp, prev), [drawing, recording, between, between, between]);
    } else {
      assert FrameEpilogue(frame, sp, prev) == [EndScope, Submit(sp), Present(frame)];
      RunTrace(drawing, FrameEpilogue(frame, sp, prev), [drawing, recording, between, between]);
    }
  }

  /** The protocol accepts one frame's calls from the state between frames (encoder submitted,
      surface configured) and returns to that state. */
  lemma RenderFollowsProtocol(frame: Frame, pipeline: RenderPipeline, globals: Globals, bunnies: seq<Locals>,
                              sp: SyncPoint, prev: Option<SyncPoint>)
    ensures Run(ProtocolState(Submitted, true), RenderCalls(frame, pipeline, globals, bunnies, sp, prev))
            == Some(ProtocolState(Submitted, true))
  {
    var between := ProtocolState(Submitted, true);
    var pro := FramePrologue(frame, pipeline, globals);
    var loop := DrawCalls(bunnies);
    var epi := FrameEpilogue(frame, sp, prev);
    PrologueFollowsProtocol(frame, pipeline, globals);
    DrawCallsFollowProtocol(bunnies);
    EpilogueFollowsProtocol(frame, sp, prev);
    RunConcat(between, pro, loop);
    RunConcat(between, pro + loop, epi);
  }

  /** `(position, velocity)` of a bunny spawned by `increase`, apart from its random speed and colour. */
  predicate Spawned(b: Locals, spawnHeight: Float32) {
    b.position == Vec2(ZERO, spawnHeight) && b.velocity.y == ZERO
  }

  /** `bind_data(0, &globals)`: the library has the value fill a fresh encoder and binds the result. */
  method BindGlobals(context: Context, g: Globals)
    requires context.Valid() && context.state.encoder == Rendering(true)
    modifies context
    ensures context.Valid() && context.state == old(context.state) && context.nextSync == old(context.nextSync)
    ensures context.log == old(context.log) + [BindData(0, GlobalsFillCalls(g))]
  {
    var encoder := new DataEncoder();
    GlobalsFill(g, encoder);
    assert encoder.trace == GlobalsFillCalls(g);
    context.BindData(0, encoder.trace);
  }

  /** `bind_data(1, local)`. */
  method BindLocals(context: Context, l: Locals)
    requires context.Valid() && context.state.encoder == Rendering(true)
    modifies context
    ensures context.Valid() && context.state == old(context.state) && context.nextSync == old(context.nextSync)
    ensures context.log == old(context.log) + [BindData(1, LocalsFillCalls(l))]
  {
    var encoder := new DataEncoder();
    LocalsFill(l, encoder);
    assert encoder.trace == LocalsFillCalls(l);
    context.BindData(1, encoder.trace);
  }

  class Example {
    const pipeline: RenderPipeline
    const texture: Texture
    const view: TextureView
    const sampler: Sampler
    const windowWidth: nat
    const windowHeight: nat
    const floats: WindowFloats
    const context: Context
    var prevSyncPoint: Option<SyncPoint>
    var bunnies: seq<Locals>
    /** What `new` got back from the library. */
    ghost const setup: Setup
    /** Frames rendered so far. */
    ghost var frames: nat

    /** Between frames: the whole log is a protocol run with the encoder submitted and the surface
        configured; exactly the upload's and the previous frame's submissions are unwaited; a
        previous frame exists once a frame has been rendered, and it was submitted after the
        upload, so from the second frame on a wait covers the upload in submission order. */
    ghost predicate Valid()
      reads this, context
    {
      && context.Valid()
      && context.state == ProtocolState(Submitted, true)
      && setup.pipeline == pipeline && setup.texture == texture && setup.view == view && setup.sampler == sampler
      && SyncsBetweenFrames(context.log, setup.uploadSync, prevSyncPoint, frames)
      && |bunnies| >= 1
    }

    /** The globals of every frame. */
    function FrameGlobals(): Globals {
      Globals(floats.mvp, Vec2(BUNNY_SIZE, BUNNY_SIZE), view, sampler)
    }

    constructor New(windowWidth: nat, windowHeight: nat, floats: WindowFloats)
      requires windowWidth < U32_LIMIT && windowHeight < U32_LIMIT
      ensures Valid() && fresh(context)
      ensures context.log == NewCalls(windowWidth, windowHeight, setup)
      ensures UnwaitedSyncs(context.log) == {setup.uploadSync}
      ensures bunnies == [FIRST_BUNNY] && prevSyncPoint == None && frames == 0
      ensures this.windowWidth == windowWidth && this.windowHeight == windowHeight && this.floats == floats
    {
      var ctx := new Context.InitWindowed(true, false);
      var surfaceFormat, shader, pipeline := CreatePipeline(ctx, Extent(windowWidth, windowHeight, 1));
      var texture, view, staging, sampler := CreateSprite(ctx);
      var uploadSync := UploadTexture(ctx, staging, texture);

      this.pipeline := pipeline;
      this.texture := texture;
      this.view := view;
      this.sampler := sampler;
      this.windowWidth := windowWidth;
      this.windowHeight := windowHeight;
      this.floats := floats;
      this.context := ctx;
      this.setup := Setup(surfaceFormat, shader, pipeline, texture, view, staging, sampler, uploadSync);
      prevSyncPoint := None;
      bunnies := [FIRST_BUNNY];
      frames := 0;
      new;
      NewFollowsProtocol(windowWidth, windowHeight, setup);
    }

    method Increase()
      requires Valid()
      modifies this`bunnies
      ensures Valid()
      ensures |bunnies| == |old(bunnies)| + SpawnCount(|old(bunnies)|)
      ensures bunnies[..|old(bunnies)|] == old(bunnies)
      ensures forall i :: |old(bunnies)| <= i < |bunnies| ==> Spawned(bunnies[i], floats.spawnHeight)
    {
      var spawnCount := SpawnCount(|bunnies|);
      for k := 0 to spawnCount
        invariant |bunnies| == |old(bunnies)| + k
        invariant bunnies[..|old(bunnies)|] == old(bunnies)
        invariant forall i :: |old(bunnies)| <= i < |bunnies| ==> Spawned(bunnies[i], floats.spawnHeight)
      {
        var speed: Float32 := *;
        var color: bv32 := *;
        bunnies := bunnies + [Locals(Vec2(ZERO, floats.spawnHeight), Vec2(speed, ZERO), color)];
      }
    }

    method Render() returns (ghost frame: Frame, ghost sp: SyncPoint)
      requires Valid()
      modifies this, context
      ensures Valid()
      ensures context.log == old(context.log) + RenderCalls(frame, pipeline, FrameGlobals(), bunnies, sp, old(prevSyncPoint))
      ensures prevSyncPoint == Some(sp) && bunnies == old(bunnies) && frames == old(frames) + 1
      ensures UnwaitedSyncs(context.log) == {setup.uploadSync, sp}
    {
      ghost var log0 := context.log;
      var acquired := BeginFrame(context, pipeline, FrameGlobals());
      DrawBunnies(context, bunnies);
      ghost var drawn := FramePrologue(acquired, pipeline, FrameGlobals()) + DrawCalls(bunnies);
      AppendAssoc(log0, FramePrologue(acquired, pipeline, FrameGlobals()), DrawCalls(bunnies));
      SyncsConcat(log0, drawn);
      var prev := prevSyncPoint;
      prevSyncPoint := None;
      var submitted := EndFrame(context, acquired, prev);
      prevSyncPoint := Some(submitted);
      frames := frames + 1;
      frame, sp := acquired, submitted;

      ghost var calls := RenderCalls(frame, pipeline, FrameGlobals(), bunnies, sp, prev);
      AppendAssoc(log0, drawn, FrameEpilogue(frame, sp, prev));
      RenderSyncs(frame, pipeline, FrameGlobals(), bunnies, sp, prev);
      FrameKeepsSyncs(log0, calls, setup.uploadSync, prev, sp, frames - 1);
    }
  }

  /** `new` after `init_windowed`: configures the surface for two frames at the window's size,
      creates the shader with the Globals and Locals layouts and the pipeline for the surface's format. */
  method CreatePipeline(ctx: Context, size: Extent) returns (surfaceFormat: TextureFormat, shader: Shader, pipeline: RenderPipeline)
    requires ctx.Valid() && ctx.state == FRESH
    modifies ctx
    ensures ctx.Valid() && ctx.state == ProtocolState(NoEncoder, true) && ctx.nextSync == old(ctx.nextSync)
    ensures ctx.log == old(ctx.log) + PipelineCalls(size, surfaceFormat, shader, pipeline)
  {
    surfaceFormat := ctx.Resize(size, 2);
    shader := ctx.CreateShader(ShaderLayouts());
    pipeline := ctx.CreateRenderPipeline(shader, surfaceFormat);
  }

  /** The sprite's resources: a 1x1 RGBA8 texture and its 2D view, an upload buffer sized for the
      texture and filled with opaque white, and a default sampler. */
  method CreateSprite(ctx: Context) returns (texture: Texture, view: TextureView, staging: Buffer, sampler: Sampler)
    requires ctx.Valid()
    modifies ctx
    ensures ctx.Valid() && ctx.state == old(ctx.state) && ctx.nextSync == old(ctx.nextSync)
    ensures ctx.log == old(ctx.log) + SpriteCalls(texture, view, staging, sampler)
  {
    texture := ctx.CreateTexture(Rgba8Unorm, TEXTURE_EXTENT);
    view := ctx.CreateTextureView(texture, Rgba8Unorm, D2);
    staging := ctx.CreateBuffer(StagingSize(TEXTURE_EXTENT), Upload);
    ctx.HostWrite(staging, TEXTURE_DATA);
    sampler := ctx.CreateSampler();
  }

  /** The upload at the end of `new`: creates the command encoder, starts it, copies the staging
      buffer into the texture in a transfer pass and submits. */
  method UploadTexture(ctx: Context, staging: Buffer, texture: Texture) returns (uploadSync: SyncPoint)
    requires ctx.Valid() && ctx.state == ProtocolState(NoEncoder, true)
    modifies ctx
    ensures ctx.Valid() && ctx.state == ProtocolState(Submitted, true)
    ensures uploadSync == SyncPoint(old(ctx.nextSync)) && ctx.nextSync == old(ctx.nextSync) + 1
    ensures ctx.log == old(ctx.log) + UploadCalls(staging, texture, uploadSync)
  {
    ctx.CreateCommandEncoder();
    ctx.Start();
    ctx.WithTransfers();
    ctx.CopyBufferToTexture(staging, BYTES_PER_ROW, texture, TEXTURE_EXTENT);
    ctx.EndScope();
    uploadSync := ctx.Submit();
  }

  /** `render` up to its draw loop: acquires a frame, starts the encoder, opens a render pass on
      the frame, binds the pipeline and the globals. */
  method BeginFrame(context: Context, pipeline: RenderPipeline, globals: Globals) returns (frame: Frame)
    requires context.Valid() && context.state == ProtocolState(Submitted, true)
    modifies context
    ensures context.Valid() && context.state == ProtocolState(Rendering(true), true)
    ensures context.nextSync == old(context.nextSync)
    ensures context.log == old(context.log) + FramePrologue(frame, pipeline, globals)
  {
    frame := context.AcquireFrame();
    context.Start();
    context.WithRenderTargets(frame);
    context.WithPipeline(pipeline);
    BindGlobals(context, globals);
  }

  /** `render` after its draw loop: closes the pass, submits, waits for the previous frame's sync
      point without timeout, presents the frame. */
  method EndFrame(context: Context, frame: Frame, prev: Option<SyncPoint>) returns (sp: SyncPoint)
    requires context.Valid() && context.state == ProtocolState(Rendering(true), true)
    requires prev.Some? ==> prev.value in SubmittedSyncs(context.log)
    modifies context
    ensures context.Valid() && context.state == ProtocolState(Submitted, true)
    ensures sp == SyncPoint(old(context.nextSync)) && sp !in old(SubmittedSyncs(context.log))
    ensures context.nextSync == old(context.nextSync) + 1
    ensures context.log == old(context.log) + FrameEpilogue(frame, sp, prev)
  {
    ghost var log0 := context.log;
    context.EndScope();
    sp := context.Submit();
    SyncsConcat(log0, [EndScope, Submit(sp)]);
    if prev.Some? {
      var reached := context.WaitFor(prev.value, WAIT_FOREVER);
    }
    context.Present(frame);
  }

  /** The draw loop of `render`: for each bunny, binds its Locals and draws one sprite. */
  method DrawBunnies(context: Context, bunnies: seq<Locals>)
    requires context.Valid() && context.state == ProtocolState(Rendering(true), true)
    modifies context
    ensures context.Valid() && context.state == ProtocolState(Rendering(true), true)
    ensures context.nextSync == old(context.nextSync)
    ensures context.log == old(context.log) + DrawCalls(bunnies)
  {
    var i := 0;
    while i < |bunnies|
      invariant 0 <= i <= |bunnies|
      invariant context.Valid() && context.state == ProtocolState(Rendering(true), true)
      invariant context.nextSync == old(context.nextSync)
      invariant context.log == old(context.log) + DrawCalls(bunnies[..i])
    {
      assert bunnies[..i + 1][..i] == bunnies[..i];
      BindLocals(context, bunnies[i]);
      context.Draw(0, SPRITE_VERTICES, 0, 1);
      i := i + 1;
    }
    assert bunnies[..i] == bunnies;
  }

  /** After a frame that submits `sp` and waits for the previous frame's sync point, the upload
      and `sp` are exactly the submissions nobody has waited for. */
  lemma FrameLeavesUploadAndFrameUnwaited(log0: seq<Call>, calls: seq<Call>, upload: SyncPoint,
                                          prev: Option<SyncPoint>, sp: SyncPoint)
    requires WaitedSyncs(log0) <= SubmittedSyncs(log0)
    requires UnwaitedSyncs(log0) == {upload} + OptionSet(prev)
    requires prev.Some? ==> prev.value != upload
    requires sp !in SubmittedSyncs(log0)
    requires SubmittedSyncs(calls) == {sp} && WaitedSyncs(calls) == OptionSet(prev)
    ensures UnwaitedSyncs(log0 + calls) == {upload, sp}
  {
    SyncsConcat(log0, calls);
  }

  /** Under first-in-first-out completion, once a frame waits for a sync point submitted after
      the upload, the upload stays covered for the rest of the run. */
  lemma FrameCoversUpload(log0: seq<Call>, calls: seq<Call>, upload: SyncPoint, prev: Option<SyncPoint>)
    requires WaitedSyncs(calls) == OptionSet(prev)
    requires prev.Some? ==> upload.n < prev.value.n
    ensures CoveredInOrder(log0, upload) || prev.Some? ==> CoveredInOrder(log0 + calls, upload)
  {
    SyncsConcat(log0, calls);
    if prev.Some? {
      assert prev.value in WaitedSyncs(log0 + calls);
    } else if CoveredInOrder(log0, upload) {
      var w :| w in WaitedSyncs(log0) && upload.n <= w.n;
      assert w in WaitedSyncs(log0 + calls);
    }
  }

  /** The synchronisation state between frames: exactly the upload's and the previous frame's
      submissions are unwaited; a previous frame exists once a frame has been rendered, and it was
      submitted after the upload, so from the second frame on a wait covers the upload in
      submission order. */
  ghost predicate SyncsBetweenFrames(log: seq<Call>, upload: SyncPoint, prev: Option<SyncPoint>, frames: nat) {
    && UnwaitedSyncs(log) == {upload} + OptionSet(prev)
    && (prev.Some? <==> frames > 0)
    && (prev.Some? ==> upload.n < prev.value.n)
    && (frames >= 2 ==> CoveredInOrder(log, upload))
  }

  /** What the synchronisation state between frames bounds: after the first frame the upload and
      that frame are both in flight; from the second frame on, every unwaited submission other
      than the previous frame's is covered in submission order, so one frame is in flight. */
  lemma FramesInFlight(log: seq<Call>, upload: SyncPoint, prev: Option<SyncPoint>, frames: nat)
    requires SyncsBetweenFrames(log, upload, prev, frames)
    ensures frames == 1 ==> prev.Some? && UnwaitedSyncs(log) == {upload, prev.value} && upload != prev.value
    ensures frames >= 2 ==> prev.Some? && forall x :: x in UnwaitedSyncs(log) ==> x == prev.value || CoveredInOrder(log, x)
  {
  }

  /** A frame that submits a sync point numbered after every earlier one, and waits for the
      previous frame's, keeps the synchronisation state with itself as the previous frame. */
  lemma FrameKeepsSyncs(log0: seq<Call>, calls: seq<Call>, upload: SyncPoint, prev: Option<SyncPoint>,
                        sp: SyncPoint, frames: nat)
    requires SyncsBetweenFrames(log0, upload, prev, frames)
    requires WaitedSyncs(log0) <= SubmittedSyncs(log0)
    requires forall x :: x in SubmittedSyncs(log0) ==> x.n < sp.n
    requires SubmittedSyncs(calls) == {sp} && WaitedSyncs(calls) == OptionSet(prev)
    ensures SyncsBetweenFrames(log0 + calls, upload, Some(sp), frames + 1)
  {
    assert upload in SubmittedSyncs(log0);
    FrameLeavesUploadAndFrameUnwaited(log0, calls, upload, prev, sp);
    FrameCoversUpload(log0, calls, upload, prev);
  }

  /** Under the queue's first-in-first-out order, `sp` has completed once some later-or-equal
      submission has been waited for. */
  ghost predicate CoveredInOrder(log: seq<Call>, sp: SyncPoint) {
    exists w :: w in WaitedSyncs(log) && sp.n <= w.n
  }
}
