/** The GPU context and its command encoder as the example uses them, seen from outside: every
    call is appended to a log; handles come back as arbitrary values; submissions return sync
    points numbered in submission order. The protocol the calls must follow (the encoder's states,
    and the surface being configured before a frame is acquired) is one step function, `Step`. */
module Recorder {
  import opened GpuTypes
  import opened ShaderDataProtocol

  /** The command encoder's recording state. The context holds one encoder. */
  datatype EncoderState =
    | NoEncoder
    | Initial
    | Recording
    | Transfers
    | Rendering(pipelineBound: bool)
    | Submitted

  datatype ProtocolState = ProtocolState(encoder: EncoderState, surfaceConfigured: bool)

  const FRESH: ProtocolState := ProtocolState(NoEncoder, false)

  /** One call on the context, the encoder or one of its scopes. */
  datatype Call =
    | InitWindowed(validation: bool, capture: bool)
    | Resize(size: Extent, frameCount: nat)
    | CreateShader(shader: Shader, dataLayouts: seq<Option<ShaderDataLayout>>)
    | CreateRenderPipeline(pipeline: RenderPipeline, program: Shader, colorFormat: TextureFormat)
    | CreateTexture(texture: Texture, format: TextureFormat, size: Extent)
    | CreateTextureView(view: TextureView, source: Texture, format: TextureFormat, dimension: TextureViewDimension)
    | CreateBuffer(buffer: Buffer, byteSize: nat, memory: Memory)
    | HostWrite(written: Buffer, bytes: seq<bv8>)
    | CreateSampler(sampler: Sampler)
    | CreateCommandEncoder
    | Start
    | BeginTransfers
    | CopyBufferToTexture(src: Buffer, bytesPerRow: nat, dst: Texture, extent: Extent)
    | BeginRenderPass(renderTarget: Frame)
    | BindPipeline(bound: RenderPipeline)
    | BindData(group: nat, data: seq<DataCall>)
    | Draw(firstVertex: nat, vertexCount: nat, firstInstance: nat, instanceCount: nat)
    | EndScope
    | Submit(sp: SyncPoint)
    | WaitFor(awaited: SyncPoint, timeoutMs: nat)
    | AcquireFrame(frame: Frame)
    | Present(presented: Frame)

  /** The state after call `c`, or None when `c` is not allowed in state `s`. */
  function Step(s: ProtocolState, c: Call): Option<ProtocolState> {
    match c
    case Resize(_, _) => Some(s.(surfaceConfigured := true))
    case AcquireFrame(_) => if s.surfaceConfigured then Some(s) else None
    case CreateCommandEncoder => if s.encoder == NoEncoder then Some(s.(encoder := Initial)) else None
    case Start =>
      if s.encoder == Initial || s.encoder == Submitted then Some(s.(encoder := Recording)) else None
    case BeginTransfers => if s.encoder == Recording then Some(s.(encoder := Transfers)) else None
    case CopyBufferToTexture(_, _, _, _) => if s.encoder == Transfers then Some(s) else None
    case BeginRenderPass(_) => if s.encoder == Recording then Some(s.(encoder := Rendering(false))) else None
    case BindPipeline(_) => if s.encoder.Rendering? then Some(s.(encoder := Rendering(true))) else None
    case BindData(_, _) => if s.encoder == Rendering(true) then Some(s) else None
    case Draw(_, _, _, _) => if s.encoder == Rendering(true) then Some(s) else None
    case EndScope =>
      if s.encoder == Transfers || s.encoder.Rendering? then Some(s.(encoder := Recording)) else None
    case Submit(_) => if s.encoder == Recording then Some(s.(encoder := Submitted)) else None
    case _ => Some(s)
  }

  /** The state after a whole sequence of calls, or None if one of them is not allowed. */
  function Run(s: ProtocolState, calls: seq<Call>): Option<ProtocolState> {
    if calls == [] then Some(s)
    else match Run(s, calls[..|calls| - 1])
      case None => None
      case Some(t) => Step(t, calls[|calls| - 1])
  }

  /** The sync points returned by the submissions in `calls`. */
  function SubmittedSyncs(calls: seq<Call>): set<SyncPoint> {
    set i | 0 <= i < |calls| && calls[i].Submit? :: calls[i].sp
  }

  /** The sync points waited for in `calls`. */
  function WaitedSyncs(calls: seq<Call>): set<SyncPoint> {
    set i | 0 <= i < |calls| && calls[i].WaitFor? :: calls[i].awaited
  }

  /** Submissions nobody has waited for. */
  function UnwaitedSyncs(calls: seq<Call>): set<SyncPoint> {
    SubmittedSyncs(calls) - WaitedSyncs(calls)
  }

  lemma AppendAssoc<T>(a: seq<T>, b: seq<T>, c: seq<T>)
    ensures a + b + c == a + (b + c)
  {
  }

  lemma {:induction false} RunConcat(s: ProtocolState, a: seq<Call>, b: seq<Call>)
    ensures Run(s, a + b) == if Run(s, a).Some? then Run(Run(s, a).value, b) else None
  {
    if b == [] {
      assert a + b == a;
    } else {
      assert (a + b)[..|a + b| - 1] == a + b[..|b| - 1];
      RunConcat(s, a, b[..|b| - 1]);
    }
  }

  /** A run is accepted when each call steps from one state of `states` to the next. */
  lemma {:induction false} RunTrace(s: ProtocolState, calls: seq<Call>, states: seq<ProtocolState>)
    requires |states| == |calls| + 1 && states[0] == s
    requires forall i :: 0 <= i < |calls| ==> Step(states[i], calls[i]) == Some(states[i + 1])
    ensures Run(s, calls) == Some(states[|calls|])
  {
    if calls != [] {
      var n := |calls|;
      RunTrace(s, calls[..n - 1], states[..n]);
    }
  }

  lemma SyncsConcat(a: seq<Call>, b: seq<Call>)
    ensures SubmittedSyncs(a + b) == SubmittedSyncs(a) + SubmittedSyncs(b)
    ensures WaitedSyncs(a + b) == WaitedSyncs(a) + WaitedSyncs(b)
  {
    var ab := a + b;
    forall x | x in SubmittedSyncs(ab) ensures x in SubmittedSyncs(a) + SubmittedSyncs(b) {
      var i :| 0 <= i < |ab| && ab[i].Submit? && ab[i].sp == x;
      if i < |a| { assert ab[i] == a[i]; } else { assert ab[i] == b[i - |a|]; }
    }
    forall x | x in SubmittedSyncs(b) ensures x in SubmittedSyncs(ab) {
      var i :| 0 <= i < |b| && b[i].Submit? && b[i].sp == x;
      assert ab[|a| + i] == b[i];
    }
    forall x | x in SubmittedSyncs(a) ensures x in SubmittedSyncs(ab) {
      var i :| 0 <= i < |a| && a[i].Submit? && a[i].sp == x;
      assert ab[i] == a[i];
    }
    forall x | x in WaitedSyncs(ab) ensures x in WaitedSyncs(a) + WaitedSyncs(b) {
      var i :| 0 <= i < |ab| && ab[i].WaitFor? && ab[i].awaited == x;
      if i < |a| { assert ab[i] == a[i]; } else { assert ab[i] == b[i - |a|]; }
    }
    forall x | x in WaitedSyncs(b) ensures x in WaitedSyncs(ab) {
      var i :| 0 <= i < |b| && b[i].WaitFor? && b[i].awaited == x;
      assert ab[|a| + i] == b[i];
    }
    forall x | x in WaitedSyncs(a) ensures x in WaitedSyncs(ab) {
      var i :| 0 <= i < |a| && a[i].WaitFor? && a[i].awaited == x;
      assert ab[i] == a[i];
    }
  }

  /** The sync points of one call. */
  lemma SyncsOne(c: Call)
    ensures SubmittedSyncs([c]) == (if c.Submit? then {c.sp} else {})
    ensures WaitedSyncs([c]) == (if c.WaitFor? then {c.awaited} else {})
  {
    if c.Submit? { assert [c][0] == c; }
    if c.WaitFor? { assert [c][0] == c; }
  }

  class Context {
    var log: seq<Call>
    var state: ProtocolState
    /** The number the next submission's sync point gets. */
    var nextSync: nat

    /** The log is a run the protocol accepts, ending in `state`; sync points are numbered below
        `nextSync`, and only submitted ones have been waited for. */
    ghost predicate Valid()
      reads this
    {
      && Run(FRESH, log) == Some(state)
      && (forall sp :: sp in SubmittedSyncs(log) ==> sp.n < nextSync)
      && WaitedSyncs(log) <= SubmittedSyncs(log)
    }

    constructor InitWindowed(validation: bool, capture: bool)
      ensures Valid()
      ensures log == [Call.InitWindowed(validation, capture)] && state == FRESH && nextSync == 0
    {
      log := [Call.InitWindowed(validation, capture)];
      state := FRESH;
      nextSync := 0;
      assert [Call.InitWindowed(validation, capture)][..0] == [];
    }

    /** Appends a call that does not submit. */
    method Record(c: Call)
      requires Valid() && Step(state, c).Some? && !c.Submit?
      requires c.WaitFor? ==> c.awaited in SubmittedSyncs(log)
      modifies this
      ensures Valid()
      ensures log == old(log) + [c] && state == Step(old(state), c).value && nextSync == old(nextSync)
    {
      assert (log + [c])[..|log|] == log;
      SyncsConcat(log, [c]);
      SyncsOne(c);
      log := log + [c];
      state := Step(state, c).value;
    }

    method Resize(size: Extent, frameCount: nat) returns (format: TextureFormat)
      requires Valid()
      modifies this
      ensures Valid() && state.surfaceConfigured && state.encoder == old(state.encoder)
      ensures log == old(log) + [Call.Resize(size, frameCount)] && nextSync == old(nextSync)
    {
      format := *;
      Record(Call.Resize(size, frameCount));
    }

    method CreateShader(dataLayouts: seq<Option<ShaderDataLayout>>) returns (shader: Shader)
      requires Valid()
      modifies this
      ensures Valid() && state == old(state) && nextSync == old(nextSync)
      ensures log == old(log) + [Call.CreateShader(shader, dataLayouts)]
    {
      shader := *;
      Record(Call.CreateShader(shader, dataLayouts));
    }

    method CreateRenderPipeline(program: Shader, colorFormat: TextureFormat) returns (pipeline: RenderPipeline)
      requires Valid()
      modifies this
      ensures Valid() && state == old(state) && nextSync == old(nextSync)
      ensures log == old(log) + [Call.CreateRenderPipeline(pipeline, program, colorFormat)]
    {
      pipeline := *;
      Record(Call.CreateRenderPipeline(pipeline, program, colorFormat));
    }

    method CreateTexture(format: TextureFormat, size: Extent) returns (texture: Texture)
      requires Valid()
      modifies this
      ensures Valid() && state == old(state) && nextSync == old(nextSync)
      ensures log == old(log) + [Call.CreateTexture(texture, format, size)]
    {
      texture := *;
      Record(Call.CreateTexture(texture, format, size));
    }

    method CreateTextureView(source: Texture, format: TextureFormat, dimension: TextureViewDimension)
      returns (view: TextureView)
      requires Valid()
      modifies this
      ensures Valid() && state == old(state) && nextSync == old(nextSync)
      ensures log == old(log) + [Call.CreateTextureView(view, source, format, dimension)]
    {
      view := *;
      Record(Call.CreateTextureView(view, source, format, dimension));
    }

    method CreateBuffer(byteSize: nat, memory: Memory) returns (buffer: Buffer)
      requires Valid()
      modifies this
      ensures Valid() && state == old(state) && nextSync == old(nextSync)
      ensures log == old(log) + [Call.CreateBuffer(buffer, byteSize, memory)]
    {
      buffer := *;
      Record(Call.CreateBuffer(buffer, byteSize, memory));
    }

    /** A copy of `bytes` to the start of `target`'s CPU-visible memory. */
    method HostWrite(target: Buffer, bytes: seq<bv8>)
      requires Valid()
      modifies this
      ensures Valid() && state == old(state) && nextSync == old(nextSync)
      ensures log == old(log) + [Call.HostWrite(target, bytes)]
    {
      Record(Call.HostWrite(target, bytes));
    }

    method CreateSampler() returns (sampler: Sampler)
      requires Valid()
      modifies this
      ensures Valid() && state == old(state) && nextSync == old(nextSync)
      ensures log == old(log) + [Call.CreateSampler(sampler)]
    {
      sampler := *;
      Record(Call.CreateSampler(sampler));
    }

    method CreateCommandEncoder()
      requires Valid() && state.encoder == NoEncoder
      modifies this
      ensures Valid() && state == old(state).(encoder := Initial) && nextSync == old(nextSync)
      ensures log == old(log) + [Call.CreateCommandEncoder]
    {
      Record(Call.CreateCommandEncoder);
    }

    method Start()
      requires Valid() && (state.encoder == Initial || state.encoder == Submitted)
      modifies this
      ensures Valid() && state == old(state).(encoder := Recording) && nextSync == old(nextSync)
      ensures log == old(log) + [Call.Start]
    {
      Record(Call.Start);
    }

    method WithTransfers()
      requires Valid() && state.encoder == Recording
      modifies this
      ensures Valid() && state == old(state).(encoder := Transfers) && nextSync == old(nextSync)
      ensures log == old(log) + [Call.BeginTransfers]
    {
      Record(Call.BeginTransfers);
    }

    method CopyBufferToTexture(src: Buffer, bytesPerRow: nat, dst: Texture, extent: Extent)
      requires Valid() && state.encoder == Transfers
      modifies this
      ensures Valid() && state == old(state) && nextSync == old(nextSync)
      ensures log == old(log) + [Call.CopyBufferToTexture(src, bytesPerRow, dst, extent)]
    {
      Record(Call.CopyBufferToTexture(src, bytesPerRow, dst, extent));
    }

    method WithRenderTargets(target: Frame)
      requires Valid() && state.encoder == Recording
      modifies this
      ensures Valid() && state == old(state).(encoder := Rendering(false)) && nextSync == old(nextSync)
      ensures log == old(log) + [Call.BeginRenderPass(target)]
    {
      Record(Call.BeginRenderPass(target));
    }

    method WithPipeline(pipeline: RenderPipeline)
      requires Valid() && state.encoder.Rendering?
      modifies this
      ensures Valid() && state == old(state).(encoder := Rendering(true)) && nextSync == old(nextSync)
      ensures log == old(log) + [Call.BindPipeline(pipeline)]
    {
      Record(Call.BindPipeline(pipeline));
    }

    method BindData(group: nat, data: seq<DataCall>)
      requires Valid() && state.encoder == Rendering(true)
      modifies this
      ensures Valid() && state == old(state) && nextSync == old(nextSync)
      ensures log == old(log) + [Call.BindData(group, data)]
    {
      Record(Call.BindData(group, data));
    }

    method Draw(firstVertex: nat, vertexCount: nat, firstInstance: nat, instanceCount: nat)
      requires Valid() && state.encoder == Rendering(true)
      modifies this
      ensures Valid() && state == old(state) && nextSync == old(nextSync)
      ensures log == old(log) + [Call.Draw(firstVertex, vertexCount, firstInstance, instanceCount)]
    {
      Record(Call.Draw(firstVertex, vertexCount, firstInstance, instanceCount));
    }

    /** The end of the open transfer or render scope (the scope value going out of use). */
    method EndScope()
      requires Valid() && (state.encoder == Transfers || state.encoder.Rendering?)
      modifies this
      ensures Valid() && state == old(state).(encoder := Recording) && nextSync == old(nextSync)
      ensures log == old(log) + [Call.EndScope]
    {
      Record(Call.EndScope);
    }

    method Submit() returns (sp: SyncPoint)
      requires Valid() && state.encoder == Recording
      modifies this
      ensures Valid() && state == old(state).(encoder := Submitted)
      ensures sp == SyncPoint(old(nextSync)) && sp !in old(SubmittedSyncs(log)) && nextSync == old(nextSync) + 1
      ensures log == old(log) + [Call.Submit(sp)]
    {
      sp := SyncPoint(nextSync);
      assert (log + [Call.Submit(sp)])[..|log|] == log;
      SyncsConcat(log, [Call.Submit(sp)]);
      SyncsOne(Call.Submit(sp));
      log := log + [Call.Submit(sp)];
      state := state.(encoder := Submitted);
      nextSync := nextSync + 1;
    }

    /** Blocks until `sp` is reached or the timeout elapses; tells which (an arbitrary answer here). */
    method WaitFor(sp: SyncPoint, timeoutMs: nat) returns (reached: bool)
      requires Valid() && sp in SubmittedSyncs(log) && timeoutMs < U32_LIMIT
      modifies this
      ensures Valid() && state == old(state) && nextSync == old(nextSync)
      ensures log == old(log) + [Call.WaitFor(sp, timeoutMs)]
    {
      reached := *;
      Record(Call.WaitFor(sp, timeoutMs));
    }

    method AcquireFrame() returns (frame: Frame)
      requires Valid() && state.surfaceConfigured
      modifies this
      ensures Valid() && state == old(state) && nextSync == old(nextSync)
      ensures log == old(log) + [Call.AcquireFrame(frame)]
    {
      frame := *;
      Record(Call.AcquireFrame(frame));
    }

    method Present(frame: Frame)
      requires Valid()
      modifies this
      ensures Valid() && state == old(state) && nextSync == old(nextSync)
      ensures log == old(log) + [Call.Present(frame)]
    {
      Record(Call.Present(frame));
    }
  }
}
