// A ragged batch: inputs of different sizes gathered into one tensor, with the index that tells them apart.

module Ragged {
  import opened Memory
  import opened Layout
  import opened Shapes
  import opened Runs
  import opened GatherBooks
  import opened Gather
  import opened BatchInputs
  import AsyncCopy

  // Every input has as many bytes as its shape says, and the elements can be counted in 32 bits.
  ghost predicate Countable(batch: Batch, shapes: seq<seq<int>>, name: string, elementSize: nat) {
    && |shapes| == |batch| && Named(batch, name)
    && (forall k :: 0 <= k < |batch| ==> CountableOne(batch, shapes, name, elementSize, k))
    && Sum(Numbers(shapes), |shapes|) < 0x8000_0000
  }

  ghost predicate CountableOne(batch: Batch, shapes: seq<seq<int>>, name: string, elementSize: nat, k: nat) {
    && k < |batch| && k < |shapes| && 0 <= ElementCount(shapes[k])
    && name in batch[k] && |batch[k][name].data| == ElementCount(shapes[k]) * elementSize
  }

  function Numbers(shapes: seq<seq<int>>): (r: seq<int>)
    ensures |r| == |shapes| && forall k :: 0 <= k < |r| ==> r[k] == ElementCount(shapes[k])
  {
    seq(|shapes|, k requires 0 <= k < |shapes| => ElementCount(shapes[k]))
  }

  function Known(shapes: seq<seq<int>>): (r: InputShapes)
    ensures |r| == |shapes| && forall k :: 0 <= k < |r| ==> r[k] == Some(shapes[k])
  {
    seq(|shapes|, k requires 0 <= k < |shapes| => Some(shapes[k]))
  }

  lemma {:induction false} AllKnown(shapes: seq<seq<int>>)
    ensures Present(Known(shapes)) == |shapes| && Counts(Known(shapes)) == Numbers(shapes)
  {
    hide ElementCount;
    assert Counts(Known(shapes)) == Numbers(shapes);
  }

  // Neighbours of the index enclose the bytes of request 'k'.
  ghost predicate Enclosed(index: seq<int>, elementSize: nat, block: seq<byte>, k: nat, data: seq<byte>) {
    && k + 1 < |index|
    && var lo, hi := index[k] * elementSize, index[k + 1] * elementSize;
    0 <= lo <= hi <= |block| && block[lo..hi] == data
  }

  lemma {:induction false} Agrees(batch: Batch, shapes: seq<seq<int>>, name: string, elementSize: nat, was: seq<byte>,
                                  block: seq<byte>, live: seq<bool>, index: seq<int>, k: nat)
    requires Countable(batch, shapes, name, elementSize) && k < |batch| == |live| && live[k]
    requires Total(InputsOf(batch, name)) <= |was| && Delivered(InputsOf(batch, name), was, block, live)
    requires |index| == |batch| + 1 && Filled(BatchAccumulatedWithZero, Known(shapes), index)
    ensures Enclosed(index, elementSize, block, k, InputsOf(batch, name)[k])
  {
    hide ElementCount, Delivered;
    var parts, counts := InputsOf(batch, name), Numbers(shapes);
    AllKnown(shapes);
    AllThere(BatchAccumulatedWithZero, Known(shapes), |index|);
    forall j | 0 <= j < |counts| ensures 0 <= counts[j] && |parts[j]| == counts[j] * elementSize {
      assert CountableOne(batch, shapes, name, elementSize, j);
    }
    hide BatchValue;
    RaggedAgrees(parts, counts, elementSize, was, block, live, k);
  }

  // The index has the size BatchInputShape gives; the tensor and the index belong together for every batch, for
  // all requests not sent before but those that something may be refused for, themselves or in a run they share.
  method GatherRagged(batch: Batch, shapes: seq<seq<int>>, elementSize: nat, mem: Mem, b: Binding, sent: seq<bool>,
      risky: set<nat>, roomy: bool, hostile: bool, s: Settings)
    returns (r: Ending, live: seq<bool>, index: seq<int>)
    requires |sent| == |batch| < AsyncCopy.COUNTER_MODULUS
    requires Bindable(batch, mem, b, s) && Countable(batch, shapes, b.name, elementSize)
    requires Total(InputsOf(batch, b.name)) <= |mem[b.block]|
    ensures r.Returned? ==> b.block < |r.mem| && |live| == |batch|
    ensures r.Returned? ==> forall k :: 0 <= k < |batch| && live[k] ==>
      Enclosed(index, elementSize, r.mem[b.block], k, batch[k][b.name].data)
    ensures r.Returned? ==> forall k :: 0 <= k < |batch| ==>
      (live[k] ==> !sent[k]) && (!sent[k] ==> live[k] || Excused(FlushesOf(batch, mem, b, s), risky, k))
    ensures r.Crashed? ==> exists k :: 0 <= k < |batch| && k in risky && sent[k]
    ensures Smooth(FlushesOf(batch, mem, b, s), s.workers, risky) ==> !r.Waiting?
    ensures Stuck(FlushesOf(batch, mem, b, s), s.workers, roomy) ==> !r.Returned?
  {
    hide ElementCount, Delivered, Filled, Countable, Bindable, Enclosed, Smooth, Stuck, Excused, FlushesOf;
    assert Named(batch, b.name) && b.block < |mem| by { BoundFacts(batch, mem, b, s); }
    SizesAgree(batch, shapes, b.name, elementSize);
    var status, dim := BatchInputShape(BatchAccumulatedWithZero, Known(shapes));
    ShapeHasRoom(BatchAccumulatedWithZero, Known(shapes), dim);
    var byteSize := GetByteSize(WORD, [dim]);
    var buf := new int[byteSize / WORD];
    var late;
    status, late := ProcessBatchInput(BatchAccumulatedWithZero, Known(shapes), buf, byteSize, Cpu, hostile);
    index := buf[..];
    assert Bindable(batch, mem, [b][0], s);
    OneFlush(batch, mem, b, s);
    StagedFits(batch, mem, [b], sent);
    r, live := GatherBatch(batch, mem, [b], sent, risky, roomy, hostile, s);
    if r.Crashed? { OneMayReuse(batch, mem, b, sent, s, risky); }
    if r.Returned? {
      assert GatheredOne(batch, mem, [b][0], r.mem, live, risky);
      forall k | 0 <= k < |batch| && live[k]
        ensures Enclosed(index, elementSize, r.mem[b.block], k, batch[k][b.name].data)
      {
        Agrees(batch, shapes, b.name, elementSize, mem[b.block], r.mem[b.block], live, index, k);
      }
    }
  }

  lemma {:induction false} SizesAgree(batch: Batch, shapes: seq<seq<int>>, name: string, elementSize: nat)
    requires Countable(batch, shapes, name, elementSize)
    ensures |shapes| == |batch|
  {}
}
