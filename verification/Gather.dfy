// What a backend does with the inputs of a batch: one collector, one tensor after the other, Finalize,
// and the wait that Finalize asks for.

module Gather {
  import opened Memory
  import opened Layout
  import opened Devices
  import opened Runs
  import opened GatherBooks
  import opened Collectors
  import opened Segments
  import AsyncCopy
  import Kernel

  // An input tensor of the model: the block it is to be gathered in.
  datatype Binding = Binding(name: string, block: nat, memType: MemoryType, memId: int)

  datatype Settings = Settings(
    pinnedEnabled: bool, kernelThreshold: nat, workers: nat, useEvent: bool, copyOnStream: bool)

  type Batch = seq<map<string, Input>>

  ghost predicate Named(batch: Batch, name: string) {
    forall k :: 0 <= k < |batch| ==> name in batch[k] && batch[k][name].Valid()
  }

  ghost function InputList(batch: Batch, name: string): (r: seq<Input>)
    ensures |r| == |batch| && forall k :: 0 <= k < |r| && name in batch[k] ==> r[k] == batch[k][name]
  {
    seq(|batch|, k requires 0 <= k < |batch| => if name in batch[k] then batch[k][name] else Input([], []))
  }

  ghost function InputsOf(batch: Batch, name: string): (r: seq<seq<byte>>)
    ensures |r| == |batch| && forall k :: 0 <= k < |r| && name in batch[k] ==> r[k] == batch[k][name].data
  {
    Datas(InputList(batch, name))
  }

  function HowTo(b: Binding, s: Settings, cap: nat): Routing {
    var usePinned := if s.pinnedEnabled then GetUsePinnedMemoryType(b.memType) else CpuPinned;
    Routing(usePinned, s.kernelThreshold != 0, b.memType, b.memId, cap)
  }

  // Every request has the input, and the block is there; the launches of the gather kernel are narrow ones, and
  // workers stage inputs from the host.
  ghost predicate Bindable(batch: Batch, mem: Mem, b: Binding, s: Settings) {
    && Named(batch, b.name) && b.block < |mem|
    && (forall f :: f in KernelFlushes(InputList(batch, b.name), HowTo(b, s, |mem[b.block]|)) ==>
         BufferCount(f) >= s.kernelThreshold ==> Kernel.Narrow(Flatten(f)))
    && (s.workers > 1 && s.pinnedEnabled && b.memType != CpuPinned ==>
         forall k :: 0 <= k < |batch| ==> StagedFromHost(batch[k][b.name], b, s))
  }

  lemma {:induction false} BoundFacts(batch: Batch, mem: Mem, b: Binding, s: Settings)
    requires Bindable(batch, mem, b, s)
    ensures Named(batch, b.name) && b.block < |mem|
  {}

  // An input that goes through a pinned buffer comes from host memory, and the copy is made at once.
  predicate StagedFromHost(input: Input, b: Binding, s: Settings) {
    input.buffers != [] && input.buffers[0].memType == GetUsePinnedMemoryType(b.memType) ==>
      !s.copyOnStream && OnHost(input)
  }

  // The runs flushed through pinned buffers, each with the inputs that share it, are known from the batch: they do
  // not depend on the pinned pool, the stream or the workers.
  ghost function FlushesOf(batch: Batch, mem: Mem, b: Binding, s: Settings): seq<seq<Pending>> {
    if b.block < |mem| then PinnedFlushes(InputList(batch, b.name), HowTo(b, s, |mem[b.block]|)) else []
  }

  ghost function AllFlushes(batch: Batch, mem: Mem, bindings: seq<Binding>, s: Settings): seq<seq<Pending>> {
    if bindings == [] then []
    else
      var n := |bindings| - 1;
      AllFlushes(batch, mem, bindings[..n], s) + FlushesOf(batch, mem, bindings[n], s)
  }

  // The inputs of request 'k' all end within their tensors.
  ghost predicate FitsAll(batch: Batch, mem: Mem, bindings: seq<Binding>, k: nat) {
    forall i :: 0 <= i < |bindings| ==> FitsOne(batch, mem, bindings[i], k)
  }

  ghost predicate FitsOne(batch: Batch, mem: Mem, b: Binding, k: nat) {
    k < |batch| && b.block < |mem| && Off(InputsOf(batch, b.name), k + 1) <= |mem[b.block]|
  }

  // The responses still to be sent are those of requests that fit. Of these, one is lost only if something may be
  // refused for the request itself, or for one that shares a run with it.
  ghost predicate Judged(batch: Batch, mem: Mem, bindings: seq<Binding>, sent: seq<bool>, live: seq<bool>,
      flushed: seq<seq<Pending>>, risky: set<nat>) {
    && |live| == |batch| == |sent|
    && (forall k :: 0 <= k < |batch| && live[k] ==> !sent[k] && FitsAll(batch, mem, bindings, k))
    && (forall k :: 0 <= k < |batch| && !sent[k] && FitsAll(batch, mem, bindings, k) ==>
         live[k] || Excused(flushed, risky, k))
  }

  // An input of request 'k' does not fit, and its response has been sent before: by the caller, or because an
  // earlier input did not fit either.
  ghost predicate Reused(batch: Batch, mem: Mem, bindings: seq<Binding>, sent: seq<bool>, k: nat)
    requires |sent| == |batch|
  {
    k < |batch| && exists i :: 0 <= i < |bindings| && ReusedAt(batch, mem, bindings, sent, k, i)
  }

  ghost predicate ReusedAt(batch: Batch, mem: Mem, bindings: seq<Binding>, sent: seq<bool>, k: nat, i: nat)
    requires k < |batch| == |sent| && i < |bindings|
  {
    !FitsOne(batch, mem, bindings[i], k) && (sent[k] || !FitsAll(batch, mem, bindings[..i], k))
  }

  ghost predicate AnyReused(batch: Batch, mem: Mem, bindings: seq<Binding>, sent: seq<bool>)
    requires |sent| == |batch|
  {
    exists k :: 0 <= k < |batch| && Reused(batch, mem, bindings, sent, k)
  }

  // Tensor 'i' may use the response of 'k' when it is gone: its input does not fit, or may be refused a copy, and the
  // response has been sent before, or earlier tensors may have cost it.
  ghost predicate MayReuse(batch: Batch, mem: Mem, bindings: seq<Binding>, sent: seq<bool>, s: Settings,
      risky: set<nat>, k: nat, i: nat)
    requires k < |batch| == |sent| && i < |bindings|
  {
    && (k in risky || !FitsOne(batch, mem, bindings[i], k))
    && (sent[k] || !FitsAll(batch, mem, bindings[..i], k)
        || (i > 0 && Excused(AllFlushes(batch, mem, bindings[..i], s), risky, k)))
  }

  ghost predicate AnyMayReuse(batch: Batch, mem: Mem, bindings: seq<Binding>, sent: seq<bool>, s: Settings,
      risky: set<nat>)
    requires |sent| == |batch|
  {
    exists k, i :: 0 <= k < |batch| && 0 <= i < |bindings| && MayReuse(batch, mem, bindings, sent, s, risky, k, i)
  }

  // What is known of the responses after some tensors.
  ghost predicate SoFar(batch: Batch, mem: Mem, bindings: seq<Binding>, sent: seq<bool>, s: Settings, now: Responses,
      flushed: seq<seq<Pending>>, risky: set<nat>) {
    && Judged(batch, mem, bindings, sent, now.live, flushed, risky)
    && flushed == AllFlushes(batch, mem, bindings, s)
    && (bindings == [] ==> forall k :: 0 <= k < |batch| ==> now.live[k] == !sent[k])
    && (AnyReused(batch, mem, bindings, sent) ==> now.crashed)
    && (now.crashed ==> AnyMayReuse(batch, mem, bindings, sent, s, risky))
  }

  // Tensor 'b' holds what it should, given what its block held before.
  ghost predicate GatheredOne(batch: Batch, was: Mem, b: Binding, now: Mem, live: seq<bool>, risky: set<nat>) {
    && b.block < |was| && b.block < |now|
    && Delivered(InputsOf(batch, b.name), was[b.block], now[b.block], live)
    && (risky == {} ==> now[b.block] == Laid(InputsOf(batch, b.name), was[b.block]))
  }

  // Every tensor does, and no other block has changed.
  ghost predicate Gathered(batch: Batch, was: Mem, bindings: seq<Binding>, now: Mem, live: seq<bool>, risky: set<nat>) {
    && |was| <= |now|
    && (forall i :: 0 <= i < |bindings| ==> GatheredOne(batch, was, bindings[i], now, live, risky))
    && (forall t :: 0 <= t < |was| && (forall i :: 0 <= i < |bindings| ==> bindings[i].block != t) ==> now[t] == was[t])
  }

  // ---------------------------------------------------------------------------

  ghost function TensorFor(batch: Batch, mem: Mem, b: Binding): Tensor
    requires b.block < |mem|
  {
    var parts := InputsOf(batch, b.name);
    Tensor(parts, mem[b.block], Laid(parts, mem[b.block]))
  }

  // The books know exactly these tensors, each over what its block held at first.
  ghost predicate Started(tensors: map<nat, Tensor>, batch: Batch, mem: Mem, bindings: seq<Binding>) {
    && (forall i :: 0 <= i < |bindings| ==>
         bindings[i].block in tensors && bindings[i].block < |mem|
         && tensors[bindings[i].block] == TensorFor(batch, mem, bindings[i]))
    && (forall t :: t in tensors ==> exists i :: 0 <= i < |bindings| && bindings[i].block == t)
  }

  lemma {:induction false} StartedNext(tensors: map<nat, Tensor>, batch: Batch, mem: Mem, bindings: seq<Binding>,
      b: Binding)
    requires Started(tensors, batch, mem, bindings) && b.block < |mem|
    requires forall i :: 0 <= i < |bindings| ==> bindings[i].block != b.block
    ensures b.block !in tensors
    ensures Started(tensors[b.block := TensorFor(batch, mem, b)], batch, mem, bindings + [b])
  {
    hide TensorFor;
    var more, all := tensors[b.block := TensorFor(batch, mem, b)], bindings + [b];
    forall t | t in more ensures exists i :: 0 <= i < |all| && all[i].block == t {
      if t == b.block {
        assert all[|bindings|].block == t;
      } else {
        var i :| 0 <= i < |bindings| && bindings[i].block == t;
        assert all[i].block == t;
      }
    }
  }

  lemma {:induction false} SettledGathers(v: View, batch: Batch, mem: Mem, bindings: seq<Binding>, risky: set<nat>)
    requires Balanced(v) && Settled(v.book) && v.book.before == mem
    requires Started(v.book.tensors, batch, mem, bindings)
    requires risky == {} ==> Certain(v.book.tensors, v.want)
    ensures Gathered(batch, mem, bindings, Eventual(v), v.live, risky)
  {
    hide Balanced, Settled, Eventual, Delivered, Certain, Laid;
    BalancedFacts(v);
    forall i | 0 <= i < |bindings| ensures GatheredOne(batch, mem, bindings[i], Eventual(v), v.live, risky) {
      assert v.book.tensors[bindings[i].block] == TensorFor(batch, mem, bindings[i]);
      SettledDelivers(v, bindings[i].block);
    }
    forall t | 0 <= t < |mem| && (forall i :: 0 <= i < |bindings| ==> bindings[i].block != t)
      ensures Eventual(v)[t] == mem[t]
    {
      BlockBefore(v, t);
    }
  }

  lemma {:induction false} FitsMore(batch: Batch, mem: Mem, bindings: seq<Binding>, b: Binding, k: nat)
    ensures FitsAll(batch, mem, bindings + [b], k) <==>
            FitsAll(batch, mem, bindings, k) && FitsOne(batch, mem, b, k)
  {
    hide FitsOne;
    var all := bindings + [b];
    if FitsAll(batch, mem, all, k) {
      assert all[|bindings|] == b;
      forall i | 0 <= i < |bindings| ensures FitsOne(batch, mem, bindings[i], k) { assert all[i] == bindings[i]; }
    }
  }

  lemma {:induction false} ReusedMore(batch: Batch, mem: Mem, bindings: seq<Binding>, b: Binding, sent: seq<bool>,
      k: nat)
    requires k < |batch| == |sent|
    ensures Reused(batch, mem, bindings + [b], sent, k) <==>
            Reused(batch, mem, bindings, sent, k)
            || (!FitsOne(batch, mem, b, k) && (sent[k] || !FitsAll(batch, mem, bindings, k)))
  {
    hide FitsOne, FitsAll;
    var all, n := bindings + [b], |bindings|;
    assert all[..n] == bindings && all[n] == b;
    forall i | 0 <= i < n
      ensures ReusedAt(batch, mem, all, sent, k, i) <==> ReusedAt(batch, mem, bindings, sent, k, i)
    {
      assert all[..i] == bindings[..i] && all[i] == bindings[i];
    }
    if ReusedAt(batch, mem, all, sent, k, n) { assert Reused(batch, mem, all, sent, k); }
    if Reused(batch, mem, bindings, sent, k) {
      var i :| 0 <= i < n && ReusedAt(batch, mem, bindings, sent, k, i);
      assert ReusedAt(batch, mem, all, sent, k, i);
    }
  }

  // One tensor more.
  lemma {:induction false} JudgedNext(batch: Batch, mem: Mem, bindings: seq<Binding>, b: Binding, sent: seq<bool>,
      live: seq<bool>, live': seq<bool>, flushed: seq<seq<Pending>>, more: seq<seq<Pending>>, risky: set<nat>)
    requires Judged(batch, mem, bindings, sent, live, flushed, risky) && b.block < |mem| && flushed <= more
    requires Vetted(live, live', InputsOf(batch, b.name), |mem[b.block]|, |batch|, more, risky)
    ensures Judged(batch, mem, bindings + [b], sent, live', more, risky)
  {
    hide Off, Excused, FitsAll;
    SharedMore(flushed, more, risky);
    forall k | 0 <= k < |batch|
      ensures FitsAll(batch, mem, bindings + [b], k) <==>
              FitsAll(batch, mem, bindings, k) && FitsOne(batch, mem, b, k)
    {
      FitsMore(batch, mem, bindings, b, k);
    }
  }

  // Failing a response that is gone, as far as that is certain.
  lemma {:induction false} ReusedNext(batch: Batch, mem: Mem, bindings: seq<Binding>, b: Binding, sent: seq<bool>,
      live: seq<bool>, flushed: seq<seq<Pending>>, risky: set<nat>)
    requires Judged(batch, mem, bindings, sent, live, flushed, risky) && b.block < |mem|
    ensures AnyReused(batch, mem, bindings + [b], sent) ==>
      AnyReused(batch, mem, bindings, sent) || Resent(live, InputsOf(batch, b.name), |mem[b.block]|, |batch|)
  {
    hide Off, Excused, FitsAll, Reused;
    forall k | 0 <= k < |batch|
      ensures Reused(batch, mem, bindings + [b], sent, k) <==>
              Reused(batch, mem, bindings, sent, k)
              || (!FitsOne(batch, mem, b, k) && (sent[k] || !FitsAll(batch, mem, bindings, k)))
    {
      ReusedMore(batch, mem, bindings, b, sent, k);
    }
  }

  // And as far as it is possible.
  lemma {:induction false} MayReuseNext(batch: Batch, mem: Mem, bindings: seq<Binding>, b: Binding, sent: seq<bool>,
      s: Settings, now: Responses, flushed: seq<seq<Pending>>, risky: set<nat>)
    requires SoFar(batch, mem, bindings, sent, s, now, flushed, risky) && b.block < |mem|
    ensures AnyMayReuse(batch, mem, bindings, sent, s, risky) ==>
      AnyMayReuse(batch, mem, bindings + [b], sent, s, risky)
    ensures Revisited(now.live, InputsOf(batch, b.name), |mem[b.block]|, flushed, risky) ==>
      AnyMayReuse(batch, mem, bindings + [b], sent, s, risky)
  {
    hide Off, FitsAll, FlushesOf, AnyReused, Shared;
    var all, n, parts := bindings + [b], |bindings|, InputsOf(batch, b.name);
    assert all[..n] == bindings && all[n] == b;
    if AnyMayReuse(batch, mem, bindings, sent, s, risky) {
      var k, i :| 0 <= k < |batch| && 0 <= i < n && MayReuse(batch, mem, bindings, sent, s, risky, k, i);
      assert all[..i] == bindings[..i] && all[i] == bindings[i];
      assert MayReuse(batch, mem, all, sent, s, risky, k, i);
    }
    if Revisited(now.live, parts, |mem[b.block]|, flushed, risky) {
      var k :| 0 <= k < |batch| && (k in risky || Off(parts, k + 1) > |mem[b.block]|)
               && (!now.live[k] || Shared(flushed, risky, k));
      if bindings == [] { NothingShared(risky, k); }
      assert MayReuse(batch, mem, all, sent, s, risky, k, n);
    }
  }

  lemma {:induction false} NothingShared(risky: set<nat>, k: nat)
    ensures !Shared([], risky, k)
  {}

  lemma {:induction false} SoFarNext(batch: Batch, mem: Mem, bindings: seq<Binding>, b: Binding, sent: seq<bool>,
      s: Settings, now: Responses, next: Responses, flushed: seq<seq<Pending>>, more: seq<seq<Pending>>,
      risky: set<nat>)
    requires SoFar(batch, mem, bindings, sent, s, now, flushed, risky) && b.block < |mem|
    requires more == flushed + FlushesOf(batch, mem, b, s)
    requires Answered(now, next, InputsOf(batch, b.name), |mem[b.block]|, flushed, more, risky)
    ensures SoFar(batch, mem, bindings + [b], sent, s, next, more, risky)
  {
    assert (bindings + [b])[..|bindings|] == bindings;
    JudgedNext(batch, mem, bindings, b, sent, now.live, next.live, flushed, more, risky);
    ReusedNext(batch, mem, bindings, b, sent, now.live, flushed, risky);
    MayReuseNext(batch, mem, bindings, b, sent, s, now, flushed, risky);
    hide Judged, AnyReused, AnyMayReuse, Resent, Revisited, Vetted, FlushesOf;
  }

  // If nothing may be refused, what is possible is certain.
  lemma {:induction false} NothingRefused(batch: Batch, mem: Mem, bindings: seq<Binding>, sent: seq<bool>, s: Settings)
    requires |sent| == |batch|
    ensures AnyMayReuse(batch, mem, bindings, sent, s, {}) <==> AnyReused(batch, mem, bindings, sent)
  {
    hide FitsAll, FitsOne, AllFlushes;
    forall k, i | 0 <= k < |batch| && 0 <= i < |bindings|
      ensures MayReuse(batch, mem, bindings, sent, s, {}, k, i) <==> ReusedAt(batch, mem, bindings, sent, k, i)
    {
      SharedNone(AllFlushes(batch, mem, bindings[..i], s), k);
    }
    if k: nat, i: nat :| k < |batch| && i < |bindings| && ReusedAt(batch, mem, bindings, sent, k, i) {
      assert MayReuse(batch, mem, bindings, sent, s, {}, k, i);
      assert Reused(batch, mem, bindings, sent, k);
    }
  }

  predicate SetUp(c: BackendInputCollector, s: Settings) {
    && c.kernelThreshold == s.kernelThreshold && c.pinnedEnabled == s.pinnedEnabled && c.workers == s.workers
    && c.useEvent == s.useEvent && c.copyOnStream == s.copyOnStream
  }

  // One tensor of the batch.
  method GatherTensor(c: BackendInputCollector, ghost done: seq<Binding>, b: Binding, ghost mem: Mem,
      ghost sent: seq<bool>, ghost s: Settings)
    requires c.Ready() && c.book.before == mem && Bindable(c.requests, mem, b, s)
    requires SetUp(c, s)
    requires Started(c.book.tensors, c.requests, mem, done)
    requires forall i :: 0 <= i < |done| ==> done[i].block != b.block
    requires SoFar(c.requests, mem, done, sent, s, c.Seen(), c.flushed, c.dev.risky)
    modifies c, c.dev, c.live
    ensures c.Ready() && c.book.before == mem
    ensures Started(c.book.tensors, c.requests, mem, done + [b])
    ensures SoFar(c.requests, mem, done + [b], sent, s, c.Seen(), c.flushed, c.dev.risky)
  {
    hide Balanced, JobsRun, Eventual, SameShape, Certain, Posts, QueueOk, Laid, Off, Held, Tallied, SoFar, Answered,
         KernelFlushes, PinnedFlushes, Kernel.Narrow;
    StartedNext(c.book.tensors, c.requests, mem, done, b);
    BlockBefore(c.Now(), b.block);
    assert c.InputsFor(b.name) == InputList(c.requests, b.name);
    assert c.HowTo(b.memType, b.memId, |mem[b.block]|) == HowTo(b, s, |mem[b.block]|);
    c.ProcessTensor(b.name, b.block, b.memType, b.memId);
    SoFarNext(c.requests, mem, done, b, sent, s, old(c.Seen()), c.Seen(), old(c.flushed), c.flushed, c.dev.risky);
  }

  lemma {:induction false} NothingYet(batch: Batch, mem: Mem, sent: seq<bool>, s: Settings, now: Responses,
      risky: set<nat>)
    requires |sent| == |now.live| == |batch| && !now.crashed
    requires forall k :: 0 <= k < |sent| ==> now.live[k] == !sent[k]
    ensures Started(map[], batch, mem, []) && SoFar(batch, mem, [], sent, s, now, [], risky)
  {}

  // All of them, one after the other.
  method GatherTensors(c: BackendInputCollector, bindings: seq<Binding>, ghost mem: Mem, ghost sent: seq<bool>,
      ghost s: Settings)
    requires c.Ready() && c.book == Book(mem, map[], [], [], Idle) && c.flushed == [] && !c.dev.crashed
    requires SetUp(c, s)
    requires forall i :: 0 <= i < |bindings| ==> Bindable(c.requests, mem, bindings[i], s)
    requires forall i, j :: 0 <= i < j < |bindings| ==> bindings[i].block != bindings[j].block
    requires |sent| == c.live.Length && forall k :: 0 <= k < |sent| ==> c.live[k] == !sent[k]
    modifies c, c.dev, c.live
    ensures c.Ready() && c.book.before == mem
    ensures Started(c.book.tensors, c.requests, mem, bindings)
    ensures SoFar(c.requests, mem, bindings, sent, s, c.Seen(), c.flushed, c.dev.risky)
  {
    hide SoFar, Started, Bindable, Balanced, JobsRun, SameShape, Certain, Posts, QueueOk, Held, Tallied;
    NothingYet(c.requests, mem, sent, s, c.Seen(), c.dev.risky);
    for n := 0 to |bindings|
      invariant c.Ready() && c.book.before == mem
      invariant Started(c.book.tensors, c.requests, mem, bindings[..n])
      invariant SoFar(c.requests, mem, bindings[..n], sent, s, c.Seen(), c.flushed, c.dev.risky)
    {
      assert bindings[..n + 1] == bindings[..n] + [bindings[n]];
      GatherTensor(c, bindings[..n], bindings[n], mem, sent, s);
    }
    assert bindings[..|bindings|] == bindings;
  }

  lemma {:induction false} SoFarLess(batch: Batch, mem: Mem, bindings: seq<Binding>, sent: seq<bool>, s: Settings,
      now: Responses, next: Responses, flushed: seq<seq<Pending>>, risky: set<nat>)
    requires SoFar(batch, mem, bindings, sent, s, now, flushed, risky) && Losses(now, next, {}, [], flushed, risky)
    ensures SoFar(batch, mem, bindings, sent, s, next, flushed, risky)
  {
    hide FitsAll, Shared, AnyReused, AnyMayReuse;
    if bindings == [] {
      forall k | 0 <= k < |batch| ensures !Shared(flushed, risky, k) { NothingShared(risky, k); }
    }
  }

  // The wait that Finalize has asked for.
  method Await(c: BackendInputCollector, needSync: bool)
    requires c.Valid() && (!needSync ==> c.dev.stream == []) && (c.useEvent ==> c.dev.marked == |c.dev.stream|)
    modifies c.dev
    ensures c.Valid() && c.dev.stream == [] && c.dev.crashed == old(c.dev.crashed)
  {
    hide Balanced, JobsRun, SameShape, Certain, Better, Sound;
    ghost var v, k := c.Now(), |c.dev.stream|;
    BalancedFacts(v);
    if needSync {
      if c.useEvent { c.dev.EventSynchronize(c.want); } else { c.dev.StreamSynchronize(c.want); }
      assert v.stream[..k] == v.stream && v.stream[k..] == [];
      LandKeeps(v, k);
      assert c.Now() == v.(mem := c.dev.mem, stream := c.dev.stream);
      BalancedFacts(c.Now());
    }
  }

  // The collector goes away after that, and gives back its pinned buffers: the blocks from 'first' on.
  method Dispose(c: BackendInputCollector, first: nat)
    requires c.Valid() && c.dev.stream == [] && Settled(c.book) && first == |c.book.before|
    modifies c.dev`mem, c`want
    ensures c.Valid()
  {
    hide Balanced, JobsRun, SameShape, Certain, Held;
    BalancedFacts(c.Now());
    for pin := first to |c.dev.mem|
      invariant c.Valid() && |c.dev.mem| == |old(c.dev.mem)|
    {
      c.Release(pin);
    }
  }

  // ---------------------------------------------------------------------------
  // When Finalize returns

  lemma {:induction false} FlushIn(batch: Batch, mem: Mem, bindings: seq<Binding>, s: Settings, f: seq<Pending>)
    ensures f in AllFlushes(batch, mem, bindings, s) <==>
            exists i :: 0 <= i < |bindings| && f in FlushesOf(batch, mem, bindings[i], s)
  {
    hide FlushesOf;
    if bindings != [] {
      var n := |bindings| - 1;
      FlushIn(batch, mem, bindings[..n], s, f);
      if i :| 0 <= i < |bindings| && f in FlushesOf(batch, mem, bindings[i], s) {
        if i < n { assert bindings[..n][i] == bindings[i]; }
      }
    }
  }

  lemma {:induction false} OneFlush(batch: Batch, mem: Mem, b: Binding, s: Settings)
    ensures AllFlushes(batch, mem, [b], s) == FlushesOf(batch, mem, b, s)
  {
    hide FlushesOf;
    assert [b][..0] == [];
    assert AllFlushes(batch, mem, [], s) == [];
  }

  // Every input of the tensor goes through a pinned buffer, and all of them fit.
  ghost predicate AllStaged(batch: Batch, mem: Mem, b: Binding, s: Settings) {
    && b.block < |mem| && Total(InputsOf(batch, b.name)) <= |mem[b.block]|
    && forall k :: 0 <= k < |batch| ==> HowTo(b, s, |mem[b.block]|).Stages(InputList(batch, b.name)[k])
  }

  // No input of the tensor does.
  ghost predicate NoneStaged(batch: Batch, mem: Mem, b: Binding, s: Settings) {
    && b.block < |mem|
    && forall k :: 0 <= k < |batch| ==> !HowTo(b, s, |mem[b.block]|).Stages(InputList(batch, b.name)[k])
  }

  lemma {:induction false} StagedFlush(batch: Batch, mem: Mem, b: Binding, s: Settings)
    requires AllStaged(batch, mem, b, s)
    ensures var fs := FlushesOf(batch, mem, b, s); |fs| == 1 && |fs[0]| == |batch|
  {
    hide Off, Size, Routing.Stages;
    PlannedAll(InputList(batch, b.name), HowTo(b, s, |mem[b.block]|), false, |batch|);
    hide Planned;
  }

  // With every input of every tensor staged, each tensor makes one flush of the whole batch. So if nothing may be
  // refused and the pinned pool has room, Finalize returns exactly if such a flush completes.
  lemma {:induction false} StagedReturns(batch: Batch, mem: Mem, bindings: seq<Binding>, s: Settings)
    requires bindings != [] && forall i :: 0 <= i < |bindings| ==> AllStaged(batch, mem, bindings[i], s)
    ensures var fs := AllFlushes(batch, mem, bindings, s);
      && (Smooth(fs, s.workers, {}) <==> s.workers <= 1 || Completes(|batch|, s.workers))
      && (Stuck(fs, s.workers, true) <==> s.workers > 1 && !Completes(|batch|, s.workers))
  {
    hide AllStaged, FlushesOf, Completes, Size;
    var fs := AllFlushes(batch, mem, bindings, s);
    forall f | f in fs ensures |f| == |batch| {
      FlushIn(batch, mem, bindings, s, f);
      var i :| 0 <= i < |bindings| && f in FlushesOf(batch, mem, bindings[i], s);
      StagedFlush(batch, mem, bindings[i], s);
    }
    StagedFlush(batch, mem, bindings[0], s);
    FlushIn(batch, mem, bindings, s, FlushesOf(batch, mem, bindings[0], s)[0]);
  }

  // Nobody's response is used twice if all inputs fit.
  lemma {:induction false} StagedFits(batch: Batch, mem: Mem, bindings: seq<Binding>, sent: seq<bool>)
    requires |sent| == |batch|
    requires forall i :: 0 <= i < |bindings| ==>
      bindings[i].block < |mem| && Total(InputsOf(batch, bindings[i].name)) <= |mem[bindings[i].block]|
    ensures forall k :: 0 <= k < |batch| ==> FitsAll(batch, mem, bindings, k)
    ensures !AnyReused(batch, mem, bindings, sent)
  {
    forall i, k | 0 <= i < |bindings| && 0 <= k < |batch| ensures FitsOne(batch, mem, bindings[i], k) {
      OffMonotone(InputsOf(batch, bindings[i].name), k + 1, |batch|);
    }
    hide FitsOne;
  }

  // A single tensor that all inputs fit can only fail a response that was sent before.
  lemma {:induction false} OneMayReuse(batch: Batch, mem: Mem, b: Binding, sent: seq<bool>, s: Settings,
      risky: set<nat>)
    requires |sent| == |batch| && b.block < |mem| && Total(InputsOf(batch, b.name)) <= |mem[b.block]|
    requires AnyMayReuse(batch, mem, [b], sent, s, risky)
    ensures exists k :: 0 <= k < |batch| && k in risky && sent[k]
  {
    var k, i :| 0 <= k < |batch| && 0 <= i < 1 && MayReuse(batch, mem, [b], sent, s, risky, k, i);
    OffMonotone(InputsOf(batch, b.name), k + 1, |batch|);
    assert [b][..0] == [] && [b][0] == b;
  }

  // A tensor without a staged input hands the workers a flush of nothing, which never completes, room or no room.
  lemma {:induction false} UnstagedSticks(batch: Batch, mem: Mem, bindings: seq<Binding>, s: Settings, i: nat,
      roomy: bool)
    requires s.workers > 1 && i < |bindings| && NoneStaged(batch, mem, bindings[i], s)
    ensures Stuck(AllFlushes(batch, mem, bindings, s), s.workers, roomy)
  {
    hide Routing.Stages;
    var b := bindings[i];
    PlannedNone(InputList(batch, b.name), HowTo(b, s, |mem[b.block]|), false, |batch|);
    SizeNone();
    hide Planned;
    assert FlushesOf(batch, mem, b, s) == [[]];
    FlushIn(batch, mem, bindings, s, []);
  }

  // ---------------------------------------------------------------------------
  // Which inputs are staged, and which launched

  // Only the memory of the first buffer counts: an input is staged on its way between host and device, if it is not
  // pinned already.
  predicate Crosses(input: Input, b: Binding) {
    input.buffers != []
    && if b.memType.Gpu? then input.buffers[0].memType.Cpu? else b.memType.Cpu? && input.buffers[0].memType.Gpu?
  }

  // It waits for the kernel on its way to device memory, from pinned memory or from the memory of the same device.
  predicate Reaches(input: Input, b: Binding) {
    input.buffers != [] && b.memType.Gpu?
    && (input.buffers[0].memType.CpuPinned? || (input.buffers[0].memType.Gpu? && input.buffers[0].memId == b.memId))
  }

  lemma {:induction false} WhatJoins(input: Input, b: Binding, s: Settings, cap: nat, off: nat)
    ensures HowTo(b, s, cap).Stages(input) <==> s.pinnedEnabled && Crosses(input, b)
    ensures HowTo(b, s, cap).Launches(input) <==> s.kernelThreshold > 0 && Reaches(input, b)
    ensures HowTo(b, s, cap).Joins(input, off, false) <==>
      s.pinnedEnabled && Crosses(input, b) && off + |input.data| <= cap
    ensures HowTo(b, s, cap).Joins(input, off, true) <==>
      s.kernelThreshold > 0 && Reaches(input, b) && off + |input.data| <= cap
  {}

  // All inputs of the tensor cross, and fit; or none crosses.
  ghost predicate AllCross(batch: Batch, mem: Mem, b: Binding) {
    && b.block < |mem| && Total(InputsOf(batch, b.name)) <= |mem[b.block]|
    && forall k :: 0 <= k < |batch| ==> b.name in batch[k] && Crosses(batch[k][b.name], b)
  }

  ghost predicate NoneCrosses(batch: Batch, mem: Mem, b: Binding) {
    b.block < |mem| && forall k :: 0 <= k < |batch| ==> b.name in batch[k] && !Crosses(batch[k][b.name], b)
  }

  ghost predicate AllTensorsCross(batch: Batch, mem: Mem, bindings: seq<Binding>) {
    bindings != [] && forall i :: 0 <= i < |bindings| ==> AllCross(batch, mem, bindings[i])
  }

  ghost predicate SomeTensorNeverCrosses(batch: Batch, mem: Mem, bindings: seq<Binding>) {
    exists i :: 0 <= i < |bindings| && NoneCrosses(batch, mem, bindings[i])
  }

  lemma {:induction false} CrossingStages(batch: Batch, mem: Mem, b: Binding, s: Settings)
    ensures s.pinnedEnabled && AllCross(batch, mem, b) ==> AllStaged(batch, mem, b, s)
    ensures NoneCrosses(batch, mem, b) || (!s.pinnedEnabled && b.block < |mem|) ==> NoneStaged(batch, mem, b, s)
  {
    if b.block < |mem| {
      forall k | 0 <= k < |batch| && b.name in batch[k]
        ensures HowTo(b, s, |mem[b.block]|).Stages(InputList(batch, b.name)[k]) <==>
                s.pinnedEnabled && Crosses(batch[k][b.name], b)
      {
        WhatJoins(batch[k][b.name], b, s, |mem[b.block]|, 0);
      }
    }
  }

  lemma {:induction false} SameCap(b: Binding, s: Settings, cap: nat)
    ensures HowTo(b, s, cap).cap == cap
  {}

  // If all inputs wait for the kernel, and fit, there is one launch of all of them, or their copies one by one.
  lemma {:induction false} ReachingLaunches(batch: Batch, mem: Mem, b: Binding, s: Settings)
    requires s.kernelThreshold > 0 && b.block < |mem| && Total(InputsOf(batch, b.name)) <= |mem[b.block]|
    requires batch != [] && forall k :: 0 <= k < |batch| ==> b.name in batch[k] && Reaches(batch[k][b.name], b)
    ensures var fs := KernelFlushes(InputList(batch, b.name), HowTo(b, s, |mem[b.block]|));
      |fs| == 1 && |fs[0]| == |batch| && forall k :: 0 <= k < |batch| ==> fs[0][k] == Pending(k, batch[k][b.name])
  {
    hide Off, Size, Routing.Stages, Routing.Launches, HowTo, Reaches;
    forall k | 0 <= k < |batch| ensures HowTo(b, s, |mem[b.block]|).Launches(InputList(batch, b.name)[k]) {
      WhatJoins(batch[k][b.name], b, s, |mem[b.block]|, 0);
    }
    assert HowTo(b, s, |mem[b.block]|).cap == |mem[b.block]| by { SameCap(b, s, |mem[b.block]|); }
    PlannedAll(InputList(batch, b.name), HowTo(b, s, |mem[b.block]|), true, |batch|);
    hide Planned;
  }

  // With nothing refused and room in the pool, what becomes of a batch whose inputs all cross, or one of whose tensors
  // gets no input that does.
  lemma {:induction false} CrossingReturns(batch: Batch, mem: Mem, bindings: seq<Binding>, sent: seq<bool>, s: Settings)
    requires |sent| == |batch|
    ensures s.pinnedEnabled && AllTensorsCross(batch, mem, bindings) ==> !AnyReused(batch, mem, bindings, sent)
    ensures s.pinnedEnabled && AllTensorsCross(batch, mem, bindings) ==>
      (Stuck(AllFlushes(batch, mem, bindings, s), s.workers, true) <==>
        s.workers > 1 && !Completes(|batch|, s.workers))
    ensures s.workers > 1 && SomeTensorNeverCrosses(batch, mem, bindings) ==>
      forall roomy :: Stuck(AllFlushes(batch, mem, bindings, s), s.workers, roomy)
  {
    hide AllStaged, NoneStaged, AnyReused, Stuck, AllFlushes, Completes, Crosses, FitsAll;
    forall i | 0 <= i < |bindings|
      ensures s.pinnedEnabled && AllCross(batch, mem, bindings[i]) ==> AllStaged(batch, mem, bindings[i], s)
      ensures NoneCrosses(batch, mem, bindings[i]) ==> NoneStaged(batch, mem, bindings[i], s)
    {
      CrossingStages(batch, mem, bindings[i], s);
    }
    if s.pinnedEnabled && AllTensorsCross(batch, mem, bindings) {
      StagedReturns(batch, mem, bindings, s);
      StagedFits(batch, mem, bindings, sent);
    }
    if s.workers > 1 {
      if i :| 0 <= i < |bindings| && NoneCrosses(batch, mem, bindings[i]) {
        forall roomy ensures Stuck(AllFlushes(batch, mem, bindings, s), s.workers, roomy) {
          UnstagedSticks(batch, mem, bindings, s, i, roomy);
        }
      }
    }
  }

  // How it ends: in this memory, waiting for completions that never come, or using a response that is not there.
  datatype Ending = Returned(mem: Mem) | Waiting | Crashed

  // Finalize, the wait for the copies in flight, and the end of the collector.
  method Finish(c: BackendInputCollector, ghost bindings: seq<Binding>, mem: Mem, ghost sent: seq<bool>,
      ghost s: Settings)
    returns (r: Ending)
    requires c.Ready() && c.book.before == mem
    requires Started(c.book.tensors, c.requests, mem, bindings)
    requires SoFar(c.requests, mem, bindings, sent, s, c.Seen(), c.flushed, c.dev.risky)
    modifies c, c.dev, c.live
    ensures SoFar(c.requests, mem, bindings, sent, s, c.Seen(), old(c.flushed), c.dev.risky)
    ensures r.Crashed? <==> c.dev.crashed
    ensures Smooth(old(c.flushed), c.workers, c.dev.risky) ==> !r.Waiting?
    ensures Stuck(old(c.flushed), c.workers, c.dev.roomy) ==> !r.Returned?
    ensures r.Returned? ==> Gathered(c.requests, mem, bindings, r.mem, c.live[..], c.dev.risky)
  {
    hide Balanced, JobsRun, SameShape, Certain, Posts, QueueOk, WillComplete, GatherBooks.Settled, SoFar, Started,
         Gathered, Smooth, Stuck, Eventual, Held, Tallied, Losses;
    if Stuck(c.flushed, c.workers, c.dev.roomy) {
      StuckBlocks(c.workQueue, c.flushed, c.workers, c.dev.risky, c.dev.roomy);
    }
    if Smooth(c.flushed, c.workers, c.dev.risky) {
      SmoothCompletes(c.book.deferred, c.workQueue, c.flushed, c.workers, c.dev.risky);
    }
    var done := c.Finalize();
    SoFarLess(c.requests, mem, bindings, sent, s, old(c.Seen()), c.Seen(), c.flushed, c.dev.risky);
    if c.dev.crashed { return Crashed; }
    if done.Blocked? { return Waiting; }
    Await(c, done.needSync);
    Dispose(c, |mem|);
    SettledGathers(c.Now(), c.requests, mem, bindings, c.dev.risky);
    QuietNow(c.Now());
    r := Returned(c.dev.mem);
  }

  lemma {:induction false} QuietNow(v: View)
    requires v.stream == []
    ensures Eventual(v) == v.mem
  {}

  // For every batch, every setting, and whatever the pinned pool, the kernel launches, the workers and the stream
  // do: if Finalize returns, every tensor holds the inputs of the live requests side by side, and nothing else has
  // been written. A request that fits is lost only to a refusal for itself or for one in a run that it shares. Failing
  // a response that is gone ends the program, and nothing else does. Finalize returns if every pinned flush completes,
  // and if the pinned pool has room and nothing may be refused, only then.
  method GatherBatch(batch: Batch, mem: Mem, bindings: seq<Binding>, sent: seq<bool>, risky: set<nat>, roomy: bool,
      hostile: bool, s: Settings)
    returns (r: Ending, live: seq<bool>)
    requires |sent| == |batch| < AsyncCopy.COUNTER_MODULUS
    requires forall i :: 0 <= i < |bindings| ==> Bindable(batch, mem, bindings[i], s)
    requires forall i, j :: 0 <= i < j < |bindings| ==> bindings[i].block != bindings[j].block
    ensures Judged(batch, mem, bindings, sent, live, AllFlushes(batch, mem, bindings, s), risky)
    ensures r.Returned? ==> Gathered(batch, mem, bindings, r.mem, live, risky)
    ensures AnyReused(batch, mem, bindings, sent) ==> r.Crashed?
    ensures r.Crashed? ==> AnyMayReuse(batch, mem, bindings, sent, s, risky)
    ensures risky == {} ==> (r.Crashed? <==> AnyReused(batch, mem, bindings, sent))
    ensures Smooth(AllFlushes(batch, mem, bindings, s), s.workers, risky) ==> !r.Waiting?
    ensures Stuck(AllFlushes(batch, mem, bindings, s), s.workers, roomy) ==> !r.Returned?
    ensures risky == {} && roomy && !AnyReused(batch, mem, bindings, sent) ==>
      (r.Returned? <==> !Stuck(AllFlushes(batch, mem, bindings, s), s.workers, true))
    ensures risky == {} && roomy && s.pinnedEnabled && AllTensorsCross(batch, mem, bindings) ==>
      (r.Returned? <==> s.workers <= 1 || Completes(|batch|, s.workers))
    ensures s.workers > 1 && SomeTensorNeverCrosses(batch, mem, bindings) ==> !r.Returned?
  {
    hide Judged, Started, Bindable, AnyReused, AnyMayReuse, Smooth, Stuck, Gathered, Balanced, JobsRun, SameShape,
         Certain, Posts, QueueOk, Held, Tallied, AllFlushes, AllTensorsCross, SomeTensorNeverCrosses, Completes;
    var device := new Device(risky, roomy, hostile, mem);
    var alive := new bool[|sent|](k requires 0 <= k < |sent| => !sent[k]);
    var c := new BackendInputCollector(
      device, batch, alive, s.pinnedEnabled, s.kernelThreshold, s.workers, s.useEvent, s.copyOnStream);
    GatherTensors(c, bindings, mem, sent, s);
    r := Finish(c, bindings, mem, sent, s);
    NothingRefused(batch, mem, bindings, sent, s);
    SmoothOrStuck(AllFlushes(batch, mem, bindings, s), s.workers);
    CrossingReturns(batch, mem, bindings, sent, s);
    live := alive[..];
  }

  // Two tensors of one byte each, and one request with two bytes for both.
  method UsedTwice() returns (again: Ending, both: Ending)
    ensures again.Crashed? && both.Crashed?
  {
    var input := Input([1, 2], [Buffer([1, 2], Cpu, 0)]);
    var batch := [map["x" := input, "y" := input]];
    var mem: Mem := [[0], [0]];
    var s := Settings(false, 0, 0, false, false);
    var x, y := Binding("x", 0, Cpu, 0), Binding("y", 1, Cpu, 0);
    TooLarge(batch, mem, x, s);
    TooLarge(batch, mem, y, s);
    hide FitsOne, Bindable;
    var live;
    // The response has been sent before.
    assert ReusedAt(batch, mem, [x], [true], 0, 0);
    assert Reused(batch, mem, [x], [true], 0);
    again, live := GatherBatch(batch, mem, [x], [true], {}, true, false, s);
    // The first tensor has it sent.
    assert [x, y][..1][0] == x && !FitsAll(batch, mem, [x, y][..1], 0);
    assert ReusedAt(batch, mem, [x, y], [false], 0, 1);
    assert Reused(batch, mem, [x, y], [false], 0);
    both, live := GatherBatch(batch, mem, [x, y], [false], {}, true, false, s);
  }

  lemma {:induction false} TooLarge(batch: Batch, mem: Mem, b: Binding, s: Settings)
    requires b.block < |mem| && |mem[b.block]| == 1 && |batch| == 1 && b.name in batch[0]
    requires batch[0][b.name] == Input([1, 2], [Buffer([1, 2], Cpu, 0)])
    requires s.kernelThreshold == 0 && !s.pinnedEnabled
    ensures Bindable(batch, mem, b, s) && !FitsOne(batch, mem, b, 0)
  {
    var inputs := InputList(batch, b.name);
    assert Pieces(inputs[0].buffers) == [[1, 2]];
    assert Concat([[1, 2]]) == [1, 2] by { assert ConcatTo([[1, 2]], 1) == ConcatTo([[1, 2]], 0) + [1, 2]; }
    assert Off(Datas(inputs), 1) == Off(Datas(inputs), 0) + 2;
    PlannedNone(inputs, HowTo(b, s, 1), true, |inputs|);
    hide Planned;
  }
}
