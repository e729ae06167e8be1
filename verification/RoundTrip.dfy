// Gather and scatter are inverses: an input gathered into a tensor, and the tensor cut up again by the shapes of
// that input, gives every request its own bytes back.

module RoundTrip {
  import opened Memory
  import opened Layout
  import G = Gather
  import opened Runs
  import opened GatherBooks
  import S = Scatter
  import SB = ScatterBooks
  import opened Handouts
  import R = Responders
  import opened Shapes
  import AsyncCopy

  // The output repeats the input 'b.name': all its dimensions are wildcards, and the bytes of every input are as
  // many as its shape says.
  ghost predicate Mirrors(batch: G.Batch, requests: seq<R.Request>, b: G.Binding, o: S.Output) {
    && |requests| == |batch| && o.block == b.block && o.like == Some(b.name)
    && (forall i :: 0 <= i < |o.shape| ==> o.shape[i] == WILDCARD_DIM)
    && forall k :: 0 <= k < |batch| ==> MirrorsOne(batch, requests, b, o, k)
  }

  ghost predicate MirrorsOne(batch: G.Batch, requests: seq<R.Request>, b: G.Binding, o: S.Output, k: nat) {
    && k < |requests| && k < |batch|
    && b.name in requests[k].inputShapes && b.name in batch[k]
    && |requests[k].inputShapes[b.name]| == |o.shape|
    && ByteSize(o.elementSize, requests[k].inputShapes[b.name]) == |batch[k][b.name].data|
  }

  // The slices of the output lie where the inputs do.
  lemma {:induction false} SlicesMirror(batch: G.Batch, requests: seq<R.Request>, b: G.Binding, o: S.Output,
      s: S.Settings, k: nat)
    requires Mirrors(batch, requests, b, o) && k <= |batch|
    ensures |requests| == |batch| && o.block == b.block
    ensures var sizes, parts := S.SliceSizes(requests, o, s), G.InputsOf(batch, b.name);
      && R.Before(sizes, k) == Off(parts, k) && (k < |batch| ==> sizes[k] == |parts[k]|)
  {
    hide ByteSize;
    if k < |batch| {
      assert MirrorsOne(batch, requests, b, o, k);
      ResolvedLike(o.shape, requests[k].inputShapes[b.name]);
    }
    if k > 0 { SlicesMirror(batch, requests, b, o, s, k - 1); }
  }

  lemma {:induction false} MirrorCuttable(batch: G.Batch, requests: seq<R.Request>, b: G.Binding, o: S.Output,
      s: S.Settings, mem: Mem)
    requires Mirrors(batch, requests, b, o) && b.block < |mem| && Total(G.InputsOf(batch, b.name)) <= |mem[b.block]|
    ensures S.Cuttable(requests, mem, o, s)
  {
    hide ByteSize, R.Before, S.SliceShape, Off;
    var sizes := S.SliceSizes(requests, o, s);
    forall k | 0 <= k < |sizes| ensures sizes[k] >= 0 { SlicesMirror(batch, requests, b, o, s, k); }
    SlicesMirror(batch, requests, b, o, s, |batch|);
    assert R.Fitting(sizes, |mem[b.block]|);
    forall k | 0 <= k < |requests|
      ensures b.name in requests[k].inputShapes && |o.shape| == |requests[k].inputShapes[b.name]|
    {
      assert MirrorsOne(batch, requests, b, o, k);
    }
    assert S.Shaped(requests, o, s);
  }

  // The response of request 'k' has an output 'o' with the bytes of the input.
  ghost predicate GotBack(m: Mem, slots: seq<SB.Slot>, k: nat, name: string, data: seq<byte>) {
    exists j :: 0 <= j < |slots| && slots[j].req == k && slots[j].name == name
                && slots[j].block < |m| && m[slots[j].block] == data
  }

  // Its copy may be in flight when the pinned buffer that holds it is given back.
  predicate Exposed(r: R.Request, o: S.Output, u: Setup, data: seq<byte>) {
    u.copyOnStream && S.StagedFor(r, o, u) && data != []
  }

  lemma {:induction false} SlotBack(parts: seq<seq<byte>>, was: seq<byte>, mid: Mem, m: Mem, live: seq<bool>, k: nat,
                                    x: SB.Slot, name: string, t: nat)
    requires k < |parts| && t < |mid| && Delivered(parts, was, mid[t], live) && |live| == |parts| && live[k]
    requires Off(parts, k + 1) <= |was|
    requires x.req == k && x.name == name && x.tensor == t && x.off == Off(parts, k) && x.size == |parts[k]|
    requires SB.Supplied(mid, x, m)
    ensures x.req == k && x.name == name && x.block < |m| && m[x.block] == parts[k]
  {
    OffStep(parts, k);
  }

  lemma {:induction false} SlotWrong(parts: seq<seq<byte>>, was: seq<byte>, mid: Mem, m: Mem, live: seq<bool>, k: nat,
                                     x: SB.Slot, t: nat)
    requires k < |parts| && t < |mid| && Delivered(parts, was, mid[t], live) && |live| == |parts| && live[k]
    requires Off(parts, k + 1) <= |was| && parts[k] != []
    requires x.req == k && x.tensor == t && x.off == Off(parts, k) && x.size == |parts[k]|
    requires S.Overwritten(mid, x, m)
    ensures x.block < |m| && m[x.block] != parts[k]
  {
    OffStep(parts, k);
    assert SliceBytes(mid, x) == parts[k];
    assert parts[k][0] != m[x.block][0];
  }

  // A copy to the output may be refused.
  predicate Refused(r: R.Request, o: S.Output, u: Setup, k: nat) {
    k in u.risky && R.PlaceOf(r, o.name, o.memType).Gpu?
  }

  lemma {:induction false} AllBack(batch: G.Batch, requests: seq<R.Request>, b: G.Binding, o: S.Output, s: S.Settings,
      was: Mem, mid: Mem, m: Mem, slots: seq<SB.Slot>, live: seq<bool>, live': seq<bool>, u: Setup)
    requires Mirrors(batch, requests, b, o) && b.block < |was| && b.block < |mid| && |live| == |live'| == |batch|
    requires Delivered(G.InputsOf(batch, b.name), was[b.block], mid[b.block], live)
    requires Total(G.InputsOf(batch, b.name)) <= |was[b.block]|
    requires forall k :: 0 <= k < |live| && live'[k] ==> live[k]
    requires S.AllProvided(requests, [o], s, slots, live') && S.AllSupplied(mid, slots, live', m, u)
    ensures |requests| == |batch| && forall k :: 0 <= k < |batch| ==> b.name in batch[k]
    ensures forall k :: 0 <= k < |batch| && live'[k] && o.name in requests[k].requested ==>
      Exposed(requests[k], o, u, batch[k][b.name].data) || GotBack(m, slots, k, o.name, batch[k][b.name].data)
  {
    hide Mirrors, Delivered, ByteSize, R.Before, S.SliceShape, Off, S.SliceSizes, S.AllProvided, S.AllSupplied,
         SB.Supplied, S.SliceOf, S.StagedFor, Setup.Staged;
    Counted(batch, requests, b, o);
    var parts := G.InputsOf(batch, b.name);
    forall k | 0 <= k < |batch| && live'[k] && o.name in requests[k].requested
      ensures Exposed(requests[k], o, u, batch[k][b.name].data)
              || GotBack(m, slots, k, o.name, batch[k][b.name].data)
    {
      if !Exposed(requests[k], o, u, batch[k][b.name].data) {
        OffMonotone(parts, k + 1, |parts|);
        SlicesMirror(batch, requests, b, o, s, k);
        var j := S.FindSlice(requests, [o], s, slots, live', mid, m, u, 0, k);
        S.SliceStaged(slots[j], requests, k, o, s, u);
        SlotBack(parts, was[b.block], mid, m, live, k, slots[j], o.name, b.block);
      }
    }
  }

  // On a hostile machine, the exposed ones are overwritten.
  lemma {:induction false} NoneBack(batch: G.Batch, requests: seq<R.Request>, b: G.Binding, o: S.Output, s: S.Settings,
      was: Mem, mid: Mem, m: Mem, slots: seq<SB.Slot>, live: seq<bool>, live': seq<bool>, u: Setup)
    requires Mirrors(batch, requests, b, o) && b.block < |was| && b.block < |mid| && |live| == |live'| == |batch|
    requires Delivered(G.InputsOf(batch, b.name), was[b.block], mid[b.block], live)
    requires Total(G.InputsOf(batch, b.name)) <= |was[b.block]|
    requires forall k :: 0 <= k < |live| && live'[k] ==> live[k]
    requires S.AllProvided(requests, [o], s, slots, live') && S.AllOverwritten(mid, slots, m, u)
    ensures |requests| == |batch| && forall k :: 0 <= k < |batch| ==> b.name in batch[k]
    ensures forall k :: 0 <= k < |batch| && live'[k] && Exposed(requests[k], o, u, batch[k][b.name].data) ==>
      Refused(requests[k], o, u, k) || !GotBack(m, slots, k, o.name, batch[k][b.name].data)
  {
    hide Mirrors, Delivered, ByteSize, R.Before, S.SliceShape, Off, S.SliceSizes, S.SliceOf, S.StagedFor,
         Setup.Staged, SliceBytes, S.Overwritten;
    Counted(batch, requests, b, o);
    var parts := G.InputsOf(batch, b.name);
    forall k | 0 <= k < |batch| && live'[k] && Exposed(requests[k], o, u, batch[k][b.name].data)
        && !Refused(requests[k], o, u, k)
      ensures !GotBack(m, slots, k, o.name, batch[k][b.name].data)
    {
      OffMonotone(parts, k + 1, |parts|);
      SlicesMirror(batch, requests, b, o, s, k);
      forall j | 0 <= j < |slots| && slots[j].req == k && slots[j].block < |m|
        ensures m[slots[j].block] != batch[k][b.name].data
      {
        assert S.Asked(requests, [o], s, slots[j]);
        S.SliceStaged(slots[j], requests, k, o, s, u);
        SlotWrong(parts, was[b.block], mid, m, live, k, slots[j], b.block);
      }
    }
  }

  // The response may be used after it has been sent: when the copy of its run out of the device memory is refused.
  predicate MayUse(r: R.Request, o: S.Output, u: Setup) {
    o.name in r.requested && o.memType.Gpu? && S.StagedFor(r, o, u)
  }

  // The program may end: for a risky request that was sent before, or is used after it.
  ghost predicate MayEnd(requests: seq<R.Request>, o: S.Output, sent: seq<bool>, u: Setup) {
    exists k :: 0 <= k < |sent| && k < |requests| && k in u.risky && (sent[k] || MayUse(requests[k], o, u))
  }

  // Gathering an input and scattering the same tensor by the shapes of that input: whenever both end, every live
  // request that asked for the output gets exactly its own input, whatever routes the copies take, unless it is
  // exposed; and for those that are, there is a machine on which they do not. Live are the requests not sent before,
  // except those that something may be refused for, themselves or in a run they share.
  method GatherThenScatter(batch: G.Batch, requests: seq<R.Request>, mem: Mem, b: G.Binding, o: S.Output,
      sent: seq<bool>, risky: set<nat>, roomy: bool, hostile: bool, gs: G.Settings, ss: S.Settings)
    returns (r: G.Ending, slots: seq<SB.Slot>, live: seq<bool>)
    requires |sent| == |batch| < AsyncCopy.COUNTER_MODULUS
    requires G.Bindable(batch, mem, b, gs) && Mirrors(batch, requests, b, o)
    requires Total(G.InputsOf(batch, b.name)) <= |mem[b.block]|
    ensures r.Returned? ==> |live| == |batch|
    ensures r.Returned? ==> forall k :: 0 <= k < |batch| && live[k] && o.name in requests[k].requested ==>
      Exposed(requests[k], o, S.Kind(risky, roomy, hostile, ss), batch[k][b.name].data)
      || GotBack(r.mem, slots, k, o.name, batch[k][b.name].data)
    ensures r.Returned? && hostile && roomy ==> forall k :: 0 <= k < |batch| && live[k] ==>
      !Exposed(requests[k], o, S.Kind(risky, roomy, hostile, ss), batch[k][b.name].data)
      || Refused(requests[k], o, S.Kind(risky, roomy, hostile, ss), k)
      || !GotBack(r.mem, slots, k, o.name, batch[k][b.name].data)
    ensures r.Returned? ==> forall k :: 0 <= k < |live| ==>
      (live[k] ==> !sent[k]) && (!sent[k] ==> live[k] || Excused(G.FlushesOf(batch, mem, b, gs), risky, k))
    ensures r.Returned? ==> forall j :: 0 <= j < |slots| ==>
      slots[j].req < |requests| && slots[j].name in requests[slots[j].req].requested
    ensures r.Crashed? ==> MayEnd(requests, o, sent, S.Kind(risky, roomy, hostile, ss))
    ensures Smooth(G.FlushesOf(batch, mem, b, gs), gs.workers, risky) ==> !r.Waiting?
    ensures Stuck(G.FlushesOf(batch, mem, b, gs), gs.workers, roomy) ==> !r.Returned?
  {
    hide Mirrors, ByteSize, S.AllSupplied, S.AllOverwritten, S.Cuttable, Delivered, G.Bindable, Smooth, Stuck, Shared,
         G.FlushesOf, GotBack, Exposed, Refused, MayUse, S.MayEnd, S.MustEnd;
    Counted(batch, requests, b, o);
    assert G.Bindable(batch, mem, [b][0], gs);
    G.OneFlush(batch, mem, b, gs);
    G.BoundFacts(batch, mem, b, gs);
    G.StagedFits(batch, mem, [b], sent);
    var mid, alive := G.GatherBatch(batch, mem, [b], sent, risky, roomy, hostile, gs);
    if mid.Crashed? { G.OneMayReuse(batch, mem, b, sent, gs, risky); }
    if !mid.Returned? { return mid, [], alive; }
    assert G.GatheredOne(batch, mem, [b][0], mid.mem, alive, risky);
    SameSize(batch, mem, b, mid.mem, alive);
    MirrorCuttable(batch, requests, b, o, ss, mid.mem);
    ghost var u := S.Kind(risky, roomy, hostile, ss);
    var m, crashed;
    m, slots, live, crashed := S.ScatterBatch(
      requests, mid.mem, [o], seq(|alive|, k requires 0 <= k < |alive| => !alive[k]), risky, roomy, hostile, ss);
    if crashed {
      OneMayEnd(requests, o, ss, slots, live, u);
      return G.Crashed, slots, live;
    }
    AllBack(batch, requests, b, o, ss, mem, mid.mem, m, slots, alive, live, u);
    if hostile && roomy { NoneBack(batch, requests, b, o, ss, mem, mid.mem, m, slots, alive, live, u); }
    forall j | 0 <= j < |slots| ensures slots[j].req < |requests| && slots[j].name in requests[slots[j].req].requested {
      assert S.Asked(requests, [o], ss, slots[j]);
    }
    r := G.Returned(m);
  }

  lemma {:induction false} OneMayEnd(requests: seq<R.Request>, o: S.Output, s: S.Settings, slots: seq<SB.Slot>,
      live: seq<bool>, u: Setup)
    requires S.MayEnd(requests, [o], slots, u) && S.AllProvided(requests, [o], s, slots, live)
    ensures exists k :: 0 <= k < |requests| && k in u.risky && MayUse(requests[k], o, u)
  {
    hide S.SliceOf, Setup.Staged, S.StagedFor;
    var x :| x in slots && x.req < |requests| && x.req in u.risky && u.Staged(x)
      && (x.from.Gpu? || (u.copyOnStream && S.AskedFor(requests[x.req], [o]) >= 2));
    S.AskedMore(requests[x.req], [], o);
    assert S.Asked(requests, [o], s, x);
    S.SliceStaged(x, requests, x.req, o, s, u);
  }

  lemma {:induction false} SameSize(batch: G.Batch, was: Mem, b: G.Binding, now: Mem, live: seq<bool>)
    requires b.block < |was| && b.block < |now|
    requires Delivered(G.InputsOf(batch, b.name), was[b.block], now[b.block], live)
    ensures |now[b.block]| == |was[b.block]|
  {}

  lemma {:induction false} Counted(batch: G.Batch, requests: seq<R.Request>, b: G.Binding, o: S.Output)
    requires Mirrors(batch, requests, b, o)
    ensures |requests| == |batch| && forall k :: 0 <= k < |batch| ==> b.name in batch[k]
  {
    forall k | 0 <= k < |batch| ensures b.name in batch[k] { assert MirrorsOne(batch, requests, b, o, k); }
  }
}
