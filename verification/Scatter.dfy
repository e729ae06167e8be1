// What a backend does with the outputs of a batch: one responder, one output tensor after the other, Finalize,
// and the wait that Finalize asks for.

module Scatter {
  import opened Memory
  import opened Devices
  import opened ScatterBooks
  import opened Handouts
  import opened Responders
  import opened Shapes

  // An output of the model. Its slices have the batch sizes of the requests, or the shapes of one of their inputs.
  datatype Output = Output(name: string, like: Option<string>, elementSize: nat, shape: seq<int>, block: nat,
      memType: MemoryType)

  datatype Settings = Settings(maxBatchSize: nat, pinnedEnabled: bool, useEvent: bool, copyOnStream: bool)

  // Whether the shape of the slice of every request can be told.
  ghost predicate Shaped(requests: seq<Request>, o: Output, s: Settings) {
    match o.like
    case None => s.maxBatchSize != NO_BATCHING ==> o.shape != []
    case Some(input) => forall k :: 0 <= k < |requests| ==>
      input in requests[k].inputShapes
      && forall i :: 0 <= i < |o.shape| && o.shape[i] == WILDCARD_DIM ==> i < |requests[k].inputShapes[input]|
  }

  ghost function SliceShape(r: Request, o: Output, s: Settings): seq<int> {
    match o.like
    case None => if s.maxBatchSize != NO_BATCHING && o.shape != [] then o.shape[0 := r.batchSize] else o.shape
    case Some(input) => if input in r.inputShapes then Resolved(o.shape, r.inputShapes[input]) else o.shape
  }

  ghost function SliceSizes(requests: seq<Request>, o: Output, s: Settings): (r: seq<int>)
    ensures |r| == |requests|
    ensures forall k :: 0 <= k < |r| ==> r[k] == ByteSize(o.elementSize, SliceShape(requests[k], o, s))
  {
    seq(|requests|, k requires 0 <= k < |requests| => ByteSize(o.elementSize, SliceShape(requests[k], o, s)))
  }

  // The tensor is there, and all slices lie within it.
  ghost predicate Cuttable(requests: seq<Request>, mem: Mem, o: Output, s: Settings) {
    Shaped(requests, o, s) && o.block < |mem| && Fitting(SliceSizes(requests, o, s), |mem[o.block]|)
  }

  ghost function CutOf(requests: seq<Request>, o: Output, s: Settings): (r: Cut)
    ensures |r.sizes| == |requests| && r.name == o.name
  {
    Cut(o.name, o.block, o.memType, SliceSizes(requests, o, s))
  }

  // 'x' is output 'o' of request 'k': the slice after those of all requests before it.
  ghost predicate SliceOf(x: Slot, requests: seq<Request>, k: nat, o: Output, s: Settings) {
    k < |requests| && IsFor(x, requests[k], k, CutOf(requests, o, s))
  }

  function Count(slots: seq<Slot>, k: nat): nat {
    if slots == [] then 0 else Count(slots[..|slots| - 1], k) + if slots[|slots| - 1].req == k then 1 else 0
  }

  // Outputs of different responses from number 'from' on.
  lemma {:induction false} CountChunk(slots: seq<Slot>, from: nat, k: nat, asked: bool)
    requires from <= |slots| && forall i, j :: from <= i < j < |slots| ==> slots[i].req < slots[j].req
    requires forall j :: from <= j < |slots| && slots[j].req == k ==> asked
    ensures Count(slots, k) <= Count(slots[..from], k) + if asked then 1 else 0
    ensures (forall j :: from <= j < |slots| ==> slots[j].req != k) ==> Count(slots, k) == Count(slots[..from], k)
  {
    if from < |slots| {
      var fewer := slots[..|slots| - 1];
      assert fewer[..from] == slots[..from];
      CountChunk(fewer, from, k, asked);
    } else {
      assert slots[..from] == slots;
    }
  }

  // How many of the outputs the request asks for.
  function AskedFor(r: Request, os: seq<Output>): nat {
    if os == [] then 0 else AskedFor(r, os[..|os| - 1]) + if os[|os| - 1].name in r.requested then 1 else 0
  }

  lemma {:induction false} AskedMore(r: Request, os: seq<Output>, o: Output)
    ensures AskedFor(r, os + [o]) == AskedFor(r, os) + if o.name in r.requested then 1 else 0
  {
    assert (os + [o])[..|os|] == os;
  }

  // The outputs are those the requests asked for, all of them as far as the response is still to be sent, and no more.
  ghost predicate AllProvided(requests: seq<Request>, os: seq<Output>, s: Settings, slots: seq<Slot>, live: seq<bool>) {
    && |live| == |requests|
    && (forall j :: 0 <= j < |slots| ==> Asked(requests, os, s, slots[j]))
    && (forall k :: 0 <= k < |requests| ==> Count(slots, k) <= AskedFor(requests[k], os))
    && (forall i, k :: 0 <= i < |os| && 0 <= k < |requests| && live[k] && os[i].name in requests[k].requested ==>
         HasSlice(slots, requests, k, os[i], s))
  }

  ghost predicate Asked(requests: seq<Request>, os: seq<Output>, s: Settings, x: Slot) {
    x.req < |requests| && x.name in requests[x.req].requested
    && exists i :: 0 <= i < |os| && SliceOf(x, requests, x.req, os[i], s)
  }

  ghost predicate HasSlice(slots: seq<Slot>, requests: seq<Request>, k: nat, o: Output, s: Settings) {
    exists j :: 0 <= j < |slots| && SliceOf(slots[j], requests, k, o, s)
  }

  lemma {:induction false} ProvidedMore(c: BackendResponder, requests: seq<Request>, os: seq<Output>, o: Output,
      s: Settings, slots: seq<Slot>, slots': seq<Slot>, live: seq<bool>, live': seq<bool>)
    requires AllProvided(requests, os, s, slots, live) && c.requests == requests
    requires |slots| <= |slots'| && slots'[..|slots|] == slots && |live'| == |live|
    requires forall k :: 0 <= k < |live| && live'[k] ==> live[k]
    requires c.Provided(slots', live', |slots|, CutOf(requests, o, s), |requests|)
    ensures AllProvided(requests, os + [o], s, slots', live')
  {
    hide IsFor, CutOf;
    var all, cut := os + [o], CutOf(requests, o, s);
    forall j | 0 <= j < |slots'| ensures Asked(requests, all, s, slots'[j]) {
      if j < |slots| {
        assert slots'[j] == slots[j];
        assert Asked(requests, os, s, slots[j]);
        var i :| 0 <= i < |os| && SliceOf(slots[j], requests, slots[j].req, os[i], s);
        assert all[i] == os[i];
      } else {
        assert c.AskedBy(slots'[j], cut, |requests|);
        NameFor(slots'[j], requests[slots'[j].req], slots'[j].req, cut);
        assert all[|os|] == o;
      }
    }
    forall k | 0 <= k < |requests| ensures Count(slots', k) <= AskedFor(requests[k], all) {
      var asked := o.name in requests[k].requested;
      forall j | |slots| <= j < |slots'| && slots'[j].req == k ensures asked {
        assert c.AskedBy(slots'[j], cut, |requests|);
      }
      CountChunk(slots', |slots|, k, asked);
      AskedMore(requests[k], os, o);
    }
    forall i, k | 0 <= i < |all| && 0 <= k < |requests| && live'[k] && all[i].name in requests[k].requested
      ensures HasSlice(slots', requests, k, all[i], s)
    {
      if i < |os| {
        assert all[i] == os[i];
        assert HasSlice(slots, requests, k, os[i], s);
        var j :| 0 <= j < |slots| && SliceOf(slots[j], requests, k, os[i], s);
        assert slots'[j] == slots[j];
      } else {
        assert c.Answered(slots', |slots|, k, cut);
      }
    }
  }

  lemma {:induction false} NameFor(x: Slot, r: Request, k: nat, cut: Cut)
    requires k < |cut.sizes| && IsFor(x, r, k, cut)
    ensures x.name == cut.name && x.req == k
  {}

  lemma {:induction false} NothingYet(requests: seq<Request>, s: Settings, live: seq<bool>)
    requires |live| == |requests|
    ensures AllProvided(requests, [], s, [], live)
  {}

  // No response is used more often than it was asked for an output.
  ghost predicate UsesAsAsked(requests: seq<Request>, os: seq<Output>, uses: seq<nat>) {
    |uses| == |requests| && forall k :: 0 <= k < |uses| ==> uses[k] <= AskedFor(requests[k], os)
  }

  method ScatterTensor(c: BackendResponder, ghost done: seq<Output>, o: Output, ghost s: Settings)
    requires c.Ready() && c.maxBatchSize == s.maxBatchSize && Cuttable(c.requests, c.book.before, o, s)
    requires AllProvided(c.requests, done, s, c.outputs, c.live[..]) && UsesAsAsked(c.requests, done, c.uses)
    modifies c, c.dev, c.live
    ensures c.Ready() && c.book.before == old(c.book.before)
    ensures AllProvided(c.requests, done + [o], s, c.outputs, c.live[..])
    ensures UsesAsAsked(c.requests, done + [o], c.uses)
    ensures Spared(old(c.Seen()), c.Seen(), c.dev.risky)
  {
    hide Balanced, Eventual, Size, Before, ElementCount, AllProvided, Tracked;
    ghost var cut := CutOf(c.requests, o, s);
    match o.like {
      case None =>
        assert c.BatchSizes(o.elementSize, o.shape) == cut.sizes;
        c.ProcessTensor(o.name, o.elementSize, o.shape, o.block, o.memType);
      case Some(input) =>
        assert c.InputSizes(input, o.elementSize, o.shape) == cut.sizes;
        c.ProcessTensorLikeInput(o.name, input, o.elementSize, o.shape, o.block, o.memType);
    }
    ProvidedMore(c, c.requests, done, o, s, old(c.outputs), c.outputs, old(c.live[..]), c.live[..]);
    forall k | 0 <= k < |c.uses| ensures c.uses[k] <= AskedFor(c.requests[k], done + [o]) {
      AskedMore(c.requests[k], done, o);
    }
  }

  // ---------------------------------------------------------------------------
  // The end

  // The copy out of the pinned buffer may be in flight when Finalize gives that buffer back.
  predicate Endangered(x: Slot, u: Setup) {
    u.copyOnStream && u.Staged(x) && x.size > 0
  }

  // Unless its response has been sent, the buffer of an output holds its slice of the tensor. Nothing is promised for
  // the endangered ones.
  ghost predicate SuppliedTo(before: Mem, x: Slot, live: seq<bool>, m: Mem, u: Setup) {
    x.req < |live| && (live[x.req] && !Endangered(x, u) ==> Supplied(before, x, m))
  }

  ghost predicate AllSupplied(before: Mem, slots: seq<Slot>, live: seq<bool>, m: Mem, u: Setup) {
    forall i :: 0 <= i < |slots| ==> SuppliedTo(before, slots[i], live, m, u)
  }

  // Not one byte is the right one in the buffers of endangered outputs, unless a copy to them was refused.
  ghost predicate AllOverwritten(before: Mem, slots: seq<Slot>, m: Mem, u: Setup) {
    forall i :: 0 <= i < |slots| && Endangered(slots[i], u) && !u.Refusable(slots[i]) ==>
      Overwritten(before, slots[i], m)
  }

  ghost predicate Overwritten(before: Mem, x: Slot, m: Mem) {
    x.block < |m| && Differs(SliceBytes(before, x), m[x.block])
  }

  lemma {:induction false} OverwrittenNever(before: Mem, x: Slot, m: Mem)
    requires Overwritten(before, x, m) && x.size > 0
    ensures !Supplied(before, x, m)
  {
    var data := SliceBytes(before, x);
    if data != [] { assert data[0] != m[x.block][0]; }
  }

  // The program can have ended only for a response with a staged output that something may be refused for: the copy of
  // its run, if the tensor is in device memory, or what another output of the response needs, while it waits.
  ghost predicate MayEnd(requests: seq<Request>, os: seq<Output>, slots: seq<Slot>, u: Setup) {
    exists x :: x in slots && x.req < |requests| && x.req in u.risky && u.Staged(x)
      && (x.from.Gpu? || (u.copyOnStream && AskedFor(requests[x.req], os) >= 2))
  }

  // It ends for certain if what may be refused is: for the run of such an output, or for one that waits, with another
  // one of the response behind it.
  ghost predicate MustEnd(slots: seq<Slot>, u: Setup) {
    || (exists x :: x in slots && x.req in u.risky && u.Staged(x) && x.from.Gpu?)
    || (u.copyOnStream && exists i, j :: 0 <= i < j < |slots| && BehindRefused(slots[i], slots[j], u))
  }

  predicate BehindRefused(x: Slot, y: Slot, u: Setup) {
    u.Staged(x) && u.Staged(y) && u.Refusable(x) && y.req == x.req
  }

  // Finalize, the wait for the copies in flight, and the end of the responder.
  method Finish(c: BackendResponder, ghost os: seq<Output>) returns (r: Mem)
    requires c.Ready() && UsesAsAsked(c.requests, os, c.uses)
    modifies c, c.dev, c.live
    ensures c.outputs == old(c.outputs)
    ensures Spared(old(c.Seen()), c.Seen(), c.dev.risky)
    ensures c.dev.crashed ==> MayEnd(c.requests, os, c.outputs, c.Kind())
    ensures c.dev.hostile && c.dev.roomy && MustEnd(c.outputs, c.Kind()) ==> c.dev.crashed
    ensures |old(c.book.before)| <= |r| && r[..|old(c.book.before)|] == old(c.book.before)
    ensures AllSupplied(old(c.book.before), c.outputs, c.live[..], r, c.Kind())
    ensures c.dev.hostile && c.dev.roomy && !c.dev.crashed ==>
      AllOverwritten(old(c.book.before), c.outputs, r, c.Kind())
  {
    hide Balanced, Eventual, Better, Sound, SameShape, Tracked, Given, AllWrong, Blamed, Setup.Staged,
         Setup.Refusable, UsesAsAsked, MayEnd, MustEnd, Overwritten, Supplied, Differs, Size, Spared;
    ghost var b, uses, was, u := c.book, c.uses, c.Seen(), c.Kind();
    SlotsSorted(c.Now());
    var sync := c.Finalize();
    if c.dev.crashed { BlamedAsked(c.requests, os, b, was, uses, u); }
    if u.hostile && u.roomy && MustEnd(c.outputs, u) { EndsHere(b, uses, was, c.Seen(), u); }
    c.Wait(sync);
    c.Dispose();
    r := c.dev.mem;
    QuietNow(c.Now());
    SettledTensors(c.Now());
    forall i | 0 <= i < |c.outputs|
      ensures SuppliedTo(b.before, c.outputs[i], c.live[..], r, u)
      ensures u.hostile && u.roomy && !c.dev.crashed && Endangered(c.outputs[i], u) && !u.Refusable(c.outputs[i]) ==>
                Overwritten(b.before, c.outputs[i], r)
    {
      SettledSupplies(c.Now(), i);
      var x := c.outputs[i];
      if u.hostile && u.roomy && !c.dev.crashed && Endangered(x, u) && !u.Refusable(x) {
        DeferredHere(b, uses, was, c.Seen(), u, x);
        WrongHere(c.book, x, r);
      }
    }
  }

  lemma {:induction false} QuietNow(v: View)
    requires v.stream == []
    ensures Eventual(v) == v.mem
  {}

  lemma {:induction false} SlotsSorted(v: View)
    requires Balanced(v)
    ensures Sorted(v.book.slots)
  {}

  lemma {:induction false} BlamedAsked(requests: seq<Request>, os: seq<Output>, b: Book, r: Responses, uses: seq<nat>,
      u: Setup)
    requires Blamed(b.slots, uses, u) && UsesAsAsked(requests, os, uses) && Tracked(b, uses, r, u)
    ensures MayEnd(requests, os, b.slots, u)
  {
    hide Setup.Staged;
    var x :| x in b.slots && x.req in u.risky && u.Staged(x)
      && (x.from.Gpu? || (u.copyOnStream && x.req < |uses| && uses[x.req] >= 2));
  }

  lemma {:induction false} WrongHere(b: Book, x: Slot, m: Mem)
    requires AllWrong(b) && x in b.slots && x.block in b.spoilt && x.block < |m| && m[x.block] == b.spoilt[x.block]
    ensures Overwritten(b.before, x, m)
  {}

  lemma {:induction false} EndsHere(b: Book, uses: seq<nat>, r: Responses, r': Responses, u: Setup)
    requires Tracked(b, uses, r, u) && b.hand == [] && b.pending.list == [] && Given(r, r', Flat(b.deferred), u)
    requires Sorted(b.slots) && u.hostile && u.roomy && MustEnd(b.slots, u)
    ensures r'.crashed
  {
    hide Setup.Staged, Setup.Refusable, Blamed, Repeats, AnyGone;
    if !r'.crashed {
      var i, j :| 0 <= i < j < |b.slots| && BehindRefused(b.slots[i], b.slots[j], u);
      DeferredHere(b, uses, r, r', u, b.slots[i]);
      DeferredHere(b, uses, r, r', u, b.slots[j]);
      TwoWaiting(b, u, b.slots[i], b.slots[j]);
      assert false;
    }
  }

  // With room for pinned buffers, all staged outputs wait under copyOnStream.
  lemma {:induction false} DeferredHere(b: Book, uses: seq<nat>, r: Responses, r': Responses, u: Setup, x: Slot)
    requires Tracked(b, uses, r, u) && b.hand == [] && b.pending.list == [] && Given(r, r', Flat(b.deferred), u)
    requires u.roomy && u.copyOnStream && u.Staged(x) && x in b.slots && !r'.crashed
    ensures x in Flat(b.deferred)
  {
    hide Setup.Staged, Blamed, Repeats, AnyGone;
    assert Owed(b, x);
    FlatHas(b.deferred, x);
  }

  // The output 'os[i]' of request 'k'.
  lemma {:induction false} FindSlice(requests: seq<Request>, os: seq<Output>, s: Settings, slots: seq<Slot>,
      live: seq<bool>, before: Mem, m: Mem, u: Setup, i: nat, k: nat) returns (j: nat)
    requires AllProvided(requests, os, s, slots, live) && AllSupplied(before, slots, live, m, u)
    requires i < |os| && k < |requests| && live[k] && os[i].name in requests[k].requested
    ensures j < |slots| && SliceOf(slots[j], requests, k, os[i], s)
    ensures Endangered(slots[j], u) || Supplied(before, slots[j], m)
  {
    hide SliceSizes, SliceShape, Before, Supplied, Endangered;
    assert HasSlice(slots, requests, k, os[i], s);
    j :| 0 <= j < |slots| && SliceOf(slots[j], requests, k, os[i], s);
    assert SuppliedTo(before, slots[j], live, m, u);
    assert slots[j].req == k;
  }

  // The same for the slots of output 'o': they are staged.
  predicate StagedFor(r: Request, o: Output, u: Setup) {
    u.UsePinned(o.memType) != CpuPinned && PlaceOf(r, o.name, o.memType) == u.UsePinned(o.memType)
  }

  lemma {:induction false} SliceStaged(x: Slot, requests: seq<Request>, k: nat, o: Output, s: Settings, u: Setup)
    requires SliceOf(x, requests, k, o, s)
    ensures k < |requests| && (u.Staged(x) <==> StagedFor(requests[k], o, u)) && x.name == o.name && x.req == k
    ensures x.from == o.memType && x.memType == PlaceOf(requests[k], o.name, o.memType) && x.tensor == o.block
    ensures x.off == Before(SliceSizes(requests, o, s), k) && x.size == SliceSizes(requests, o, s)[k]
  {}

  function Kind(risky: set<nat>, roomy: bool, hostile: bool, s: Settings): Setup {
    Setup(risky, roomy, hostile, s.pinnedEnabled, s.copyOnStream)
  }

  // For every batch and every setting, and wherever the clients want their outputs: every live response has each
  // output it asked for, holding the slice that follows those of all requests before it (skipped, unrequested and
  // failed ones included); no response has an output it did not ask for, and the tensors are left alone. The live
  // responses are those not sent before, except for requests that something may be refused for.
  //
  // What is copied out of a pinned buffer on the stream is not what was in it, as Finalize gives the buffer back
  // before the copy has landed: exactly the endangered outputs can be lost that way, and on a hostile machine they are.
  // The program ends only in the ways of MayEnd, and on a hostile machine it does in those of MustEnd.
  method ScatterBatch(requests: seq<Request>, mem: Mem, os: seq<Output>, sent: seq<bool>, risky: set<nat>,
      roomy: bool, hostile: bool, s: Settings)
    returns (r: Mem, slots: seq<Slot>, live: seq<bool>, crashed: bool)
    requires |sent| == |requests|
    requires forall i :: 0 <= i < |os| ==> Cuttable(requests, mem, os[i], s)
    ensures |live| == |requests| && forall k :: 0 <= k < |live| && live[k] ==> !sent[k]
    ensures forall k :: 0 <= k < |live| && !sent[k] ==> live[k] || k in risky || crashed
    ensures AllProvided(requests, os, s, slots, live)
    ensures AllSupplied(mem, slots, live, r, Kind(risky, roomy, hostile, s))
    ensures hostile && roomy && !crashed ==> AllOverwritten(mem, slots, r, Kind(risky, roomy, hostile, s))
    ensures crashed ==> MayEnd(requests, os, slots, Kind(risky, roomy, hostile, s))
    ensures hostile && roomy && MustEnd(slots, Kind(risky, roomy, hostile, s)) ==> crashed
    ensures |mem| <= |r| && r[..|mem|] == mem
  {
    hide AllProvided, AllSupplied, AllOverwritten, Cuttable, Balanced, SameShape, Spared, MayEnd, MustEnd, Tracked;
    var device := new Device(risky, roomy, hostile, mem);
    var alive := new bool[|sent|](k requires 0 <= k < |sent| => !sent[k]);
    var c := new BackendResponder(device, requests, alive, s.maxBatchSize, s.pinnedEnabled, s.useEvent, s.copyOnStream);
    NothingYet(requests, s, alive[..]);
    ghost var start := c.Seen();
    SparedRefl(start, risky);
    for n := 0 to |os|
      invariant c.Ready() && c.book.before == mem
      invariant AllProvided(requests, os[..n], s, c.outputs, alive[..]) && UsesAsAsked(requests, os[..n], c.uses)
      invariant Spared(start, c.Seen(), risky)
    {
      assert os[..n + 1] == os[..n] + [os[n]];
      ghost var seen := c.Seen();
      ScatterTensor(c, os[..n], os[n], s);
      SparedTrans(start, seen, c.Seen(), risky);
    }
    assert os[..|os|] == os;
    ghost var before := c.Seen();
    r := Finish(c, os);
    slots, live, crashed := c.outputs, alive[..], device.crashed;
    SparedTrans(start, before, c.Seen(), risky);
    ProvidedFewer(requests, os, s, slots, before, c.Seen(), risky);
    SparedFacts(start, c.Seen(), risky);
  }

  lemma {:induction false} SparedFacts(a: Responses, b: Responses, risky: set<nat>)
    requires Spared(a, b, risky)
    ensures |b.live| == |a.live| && (forall k :: 0 <= k < |b.live| && b.live[k] ==> a.live[k])
    ensures forall k :: 0 <= k < |b.live| && a.live[k] ==> b.live[k] || k in risky || b.crashed
  {}

  lemma {:induction false} ProvidedFewer(requests: seq<Request>, os: seq<Output>, s: Settings, slots: seq<Slot>,
      was: Responses, now: Responses, risky: set<nat>)
    requires AllProvided(requests, os, s, slots, was.live) && Spared(was, now, risky)
    ensures AllProvided(requests, os, s, slots, now.live)
  {
    hide HasSlice, Asked;
  }

  // ---------------------------------------------------------------------------
  // Where the slices are

  // How many rows belong to the requests before 'k'.
  function RowsBefore(requests: seq<Request>, k: nat): nat
    requires k <= |requests|
  {
    if k == 0 then 0 else RowsBefore(requests, k - 1) + requests[k - 1].batchSize
  }

  // With batching, a request has as many rows of the tensor as its batch size says, and they come after those of all
  // requests before it. The first dimension of the tensor is of no account.
  lemma {:induction false} SliceByRows(x: Slot, requests: seq<Request>, k: nat, o: Output, s: Settings)
    requires s.maxBatchSize > 0 && o.like == None && o.shape != [] && -1 !in o.shape[1..]
    requires SliceOf(x, requests, k, o, s)
    ensures k < |requests|
    ensures var row := o.elementSize * Product(o.shape[1..]);
      x.size == requests[k].batchSize * row && x.off == row * RowsBefore(requests, k)
  {
    hide SliceShape, ByteSize, Before;
    SliceIs(x, requests, k, o, s);
    SizeWell(x, requests, k, o, s);
    RowSize(requests[k], o, s);
    RowOffset(requests, k, o, s);
  }

  lemma {:induction false} SliceIs(x: Slot, requests: seq<Request>, k: nat, o: Output, s: Settings)
    requires SliceOf(x, requests, k, o, s)
    ensures k < |requests| && x.size == SliceSizes(requests, o, s)[k] && x.off == Before(SliceSizes(requests, o, s), k)
  {}

  // A tensor whose elements have no size has no slices.
  lemma {:induction false} SizeWell(x: Slot, requests: seq<Request>, k: nat, o: Output, s: Settings)
    requires SliceOf(x, requests, k, o, s)
    ensures o.elementSize > 0
  {}

  lemma {:induction false} RowSize(r: Request, o: Output, s: Settings)
    requires s.maxBatchSize > 0 && o.like == None && o.shape != [] && -1 !in o.shape[1..] && o.elementSize > 0
    ensures ByteSize(o.elementSize, SliceShape(r, o, s)) == r.batchSize * (o.elementSize * Product(o.shape[1..]))
  {
    var rest, shape := o.shape[1..], SliceShape(r, o, s);
    assert shape == [r.batchSize] + rest;
    ProductJoin([r.batchSize], rest);
    ProductOne(r.batchSize);
    NeverWildcard(shape);
    Associative(r.batchSize, Product(rest), o.elementSize);
  }

  lemma {:induction false} RowOffset(requests: seq<Request>, k: nat, o: Output, s: Settings)
    requires s.maxBatchSize > 0 && o.like == None && o.shape != [] && -1 !in o.shape[1..] && o.elementSize > 0
    requires k <= |requests|
    ensures Before(SliceSizes(requests, o, s), k) == o.elementSize * Product(o.shape[1..]) * RowsBefore(requests, k)
  {
    hide SliceShape, ByteSize, Product;
    if k > 0 {
      RowOffset(requests, k - 1, o, s);
      RowSize(requests[k - 1], o, s);
      Distributes(o.elementSize * Product(o.shape[1..]), RowsBefore(requests, k - 1), requests[k - 1].batchSize);
    }
  }

  lemma {:induction false} Distributes(a: int, b: int, c: int)
    ensures a * (b + c) == a * b + c * a
  {}

  // Without batching, every request has a slice of the shape of the output itself.
  lemma {:induction false} SliceWhole(x: Slot, requests: seq<Request>, k: nat, o: Output, s: Settings)
    requires s.maxBatchSize == 0 && o.like == None && -1 !in o.shape && SliceOf(x, requests, k, o, s)
    ensures x.size == (if o.shape == [] then 0 else o.elementSize * Product(o.shape)) && x.off == k * x.size
  {
    SizeWell(x, requests, k, o, s);
    NeverWildcard(o.shape);
    SameOffset(SliceSizes(requests, o, s), k, x.size);
  }

  lemma {:induction false} SameOffset(sizes: seq<int>, k: nat, size: int)
    requires k <= |sizes| && forall j :: 0 <= j < |sizes| ==> sizes[j] == size
    ensures Before(sizes, k) == k * size
  {
    if k > 0 {
      SameOffset(sizes, k - 1, size);
      Distributes(size, k - 1, 1);
    }
  }

  // With the shape of an input: wildcards are taken from it, all other dimensions are those of the output.
  lemma {:induction false} SliceLike(x: Slot, requests: seq<Request>, k: nat, o: Output, s: Settings, dims: seq<int>)
    requires SliceOf(x, requests, k, o, s) && k < |requests| && o.like.Some? && o.like.value in requests[k].inputShapes
    requires |dims| == |o.shape| && -1 !in dims
    requires forall i :: 0 <= i < |dims| && o.shape[i] != -1 ==> dims[i] == o.shape[i]
    requires var input := requests[k].inputShapes[o.like.value];
      forall i :: 0 <= i < |dims| && o.shape[i] == -1 ==> i < |input| && dims[i] == input[i]
    ensures x.size == if dims == [] then 0 else o.elementSize * Product(dims)
  {
    SizeWell(x, requests, k, o, s);
    assert SliceShape(requests[k], o, s) == dims;
    NeverWildcard(dims);
  }

  // Slices lie one after the other, from the beginning of the tensor on, whatever tells their sizes.
  lemma {:induction false} SlicesTouch(x: Slot, y: Slot, requests: seq<Request>, k: nat, o: Output, s: Settings)
    requires SliceOf(x, requests, k, o, s) && SliceOf(y, requests, k + 1, o, s)
    ensures y.off == x.off + x.size && (k == 0 ==> x.off == 0)
  {}

  // Whether an output is staged can be told from where it is and where the client wants it.
  lemma {:induction false} StagedBetween(r: Request, o: Output, u: Setup)
    ensures StagedFor(r, o, u) <==>
      u.pinnedEnabled && if o.memType.Gpu? then PlaceOf(r, o.name, o.memType).Cpu?
                         else o.memType.Cpu? && PlaceOf(r, o.name, o.memType).Gpu?
  {}

  // ---------------------------------------------------------------------------
  // Two batches for which it goes wrong

  function One(name: string, place: MemoryType): Request {
    Request(1, {name}, map[], map[name := place])
  }

  // A model without batching, whose output is in device memory and is wanted on the host. Its copies are put on the
  // stream: the response is sent as good, with not one right byte.
  method OverwrittenBatch(data: seq<byte>) returns (r: Mem, slots: seq<Slot>, live: seq<bool>, crashed: bool)
    requires data != []
    ensures live == [true] && !crashed && |slots| == 1 && slots[0].block < |r|
    ensures Differs(data, r[slots[0].block])
  {
    var requests := [One("out", Cpu)];
    var o := Output("out", None, 1, [|data|], 0, Gpu);
    var s := Settings(NO_BATCHING, true, false, true);
    OneSlice(requests[0], [data], o, s);
    r, slots, live, crashed := ScatterBatch(requests, [data], [o], [false], {}, true, true, s);
    assert [o][0] == o;
    assert HasSlice(slots, requests, 0, o, s);
    forall j | 0 <= j < |slots| ensures slots[j].req == 0 { assert Asked(requests, [o], s, slots[j]); }
    CountAll(slots, 0);
    AskedMore(requests[0], [], o);
  }

  lemma {:induction false} CountAll(slots: seq<Slot>, k: nat)
    requires forall j :: 0 <= j < |slots| ==> slots[j].req == k
    ensures Count(slots, k) == |slots|
  {
    if slots != [] { CountAll(slots[..|slots| - 1], k); }
  }

  lemma {:induction false} OneSlice(q: Request, mem: Mem, o: Output, s: Settings)
    requires |mem| > o.block && o.like == None && s.maxBatchSize == NO_BATCHING && o.elementSize == 1
    requires o.shape == [|mem[o.block]|]
    ensures SliceSizes([q], o, s) == [|mem[o.block]|] && Before(SliceSizes([q], o, s), 1) == |mem[o.block]|
    ensures Cuttable([q], mem, o, s)
  {
    var n := |mem[o.block]|;
    assert WILDCARD_DIM !in o.shape;
    assert o.shape[..0] == [] && Product(o.shape) == Product(o.shape[..0]) * n;
    assert Product([]) == 1;
    assert ElementCount(o.shape) == n;
    assert SliceSizes([q], o, s) == [|mem[o.block]|];
  }

  // Two tensors on the host, wanted in device memory by one request, whose copies are refused on the stream: once both
  // outputs have their buffers, the response is used after it has been sent.
  method EndedBatch(data: seq<byte>) returns (r: Mem, slots: seq<Slot>, live: seq<bool>, crashed: bool)
    ensures |slots| <= 2 && (|slots| == 2 ==> crashed)
  {
    hide Cuttable, SliceSizes, AllOverwritten, AllSupplied, MayEnd;
    var requests := [Request(1, {"a", "b"}, map[], map["a" := Gpu, "b" := Gpu])];
    var a, b := Output("a", None, 1, [|data|], 0, Cpu), Output("b", None, 1, [|data|], 1, Cpu);
    var s := Settings(NO_BATCHING, true, false, true);
    var mem := [data, data];
    OneSlice(requests[0], mem, a, s);
    OneSlice(requests[0], mem, b, s);
    r, slots, live, crashed := ScatterBatch(requests, mem, [a, b], [false], {0}, true, true, s);
    forall j | 0 <= j < |slots| ensures slots[j].req == 0 && slots[j].memType == Gpu && slots[j].from == Cpu {
      assert Asked(requests, [a, b], s, slots[j]);
    }
    CountAll(slots, 0);
    AskedMore(requests[0], [], a);
    AskedMore(requests[0], [a], b);
    assert [] + [a] == [a] && [a] + [b] == [a, b];
    if |slots| == 2 { assert BehindRefused(slots[0], slots[1], Kind({0}, true, true, s)); }
  }
}
