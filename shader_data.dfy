/** The shader-data protocol: a type declares an ordered layout of binding slots and pushes its
    fields into an encoder, slot by slot. */
module ShaderDataProtocol {
  import opened GpuTypes

  /** One call a `fill` makes on its encoder. */
  datatype DataCall =
    | PlainCall(index: nat, value: PlainValue)
    | TextureCall(index: nat, view: TextureView)
    | SamplerCall(index: nat, sampler: Sampler)

  /** A call fits a slot when the setter matches the slot's kind (and, for plain data, its shape). */
  predicate KindMatches(b: ShaderBinding, c: DataCall) {
    match c
    case PlainCall(_, v) => PlainShape(v) == b
    case TextureCall(_, _) => b.Texture?
    case SamplerCall(_, _) => b.Sampler?
  }

  /** The agreement a `fill` owes its `layout`: the i-th call writes slot i, with the slot's kind,
      and there is one call per slot. */
  predicate Conforms(layout: ShaderDataLayout, calls: seq<DataCall>) {
    && |calls| == |layout.bindings|
    && forall i :: 0 <= i < |calls| ==> calls[i].index == i && KindMatches(layout.bindings[i].1, calls[i])
  }

  /** How many calls write slot `j`. */
  function CountAt(calls: seq<DataCall>, j: nat): nat {
    if calls == [] then 0
    else (if calls[0].index == j then 1 else 0) + CountAt(calls[1..], j)
  }

  lemma {:induction false} CountAtShifted(calls: seq<DataCall>, offset: nat, j: nat)
    requires forall i :: 0 <= i < |calls| ==> calls[i].index == offset + i
    ensures CountAt(calls, j) == if offset <= j < offset + |calls| then 1 else 0
  {
    if calls != [] {
      CountAtShifted(calls[1..], offset + 1, j);
    }
  }

  /** A conforming sequence of calls writes every slot of the layout exactly once, writes nothing
      outside it, visits the slots in strictly ascending order and gives each its declared kind. */
  lemma {:induction false} ConformsCoversEachSlotOnce(layout: ShaderDataLayout, calls: seq<DataCall>)
    requires Conforms(layout, calls)
    ensures forall j :: 0 <= j < |layout.bindings| ==> CountAt(calls, j) == 1
    ensures forall j: nat :: j >= |layout.bindings| ==> CountAt(calls, j) == 0
    ensures forall i, k :: 0 <= i < k < |calls| ==> calls[i].index < calls[k].index
    ensures forall c :: c in calls ==> c.index < |layout.bindings| && KindMatches(layout.bindings[c.index].1, c)
  {
    forall j: nat {
      CountAtShifted(calls, 0, j);
    }
  }

  /** The encoder handed to `fill`; it records the calls made on it, in order. */
  class DataEncoder {
    var trace: seq<DataCall>

    constructor ()
      ensures trace == []
    {
      trace := [];
    }

    method SetPlain(index: nat, value: PlainValue)
      modifies this
      ensures trace == old(trace) + [PlainCall(index, value)]
    {
      trace := trace + [PlainCall(index, value)];
    }

    method SetTexture(index: nat, view: TextureView)
      modifies this
      ensures trace == old(trace) + [TextureCall(index, view)]
    {
      trace := trace + [TextureCall(index, view)];
    }

    method SetSampler(index: nat, sampler: Sampler)
      modifies this
      ensures trace == old(trace) + [SamplerCall(index, sampler)]
    {
      trace := trace + [SamplerCall(index, sampler)];
    }
  }
}
