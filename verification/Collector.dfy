// BackendInputCollector: gathers the inputs of a batch into one tensor per input name.

module Collectors {
  import opened Memory
  import opened Layout
  import opened Devices
  import opened Runs
  import opened GatherBooks
  import AsyncCopy
  import Kernel
  import opened Segments

  // What became of an input handed to SetFixedSizeInputTensor.
  datatype Fate = Overflowed | ToPinned | ToKernel | Copied | Failed

  // ---------------------------------------------------------------------------
  // What becomes of the responses

  // A copy for one of 'used' may be refused when its response is gone: before, or by then, lost with a run.
  ghost predicate Revisits(was: seq<bool>, used: set<nat>, before: seq<seq<Pending>>, risky: set<nat>) {
    exists k :: k in used && k in risky && k < |was| && (!was[k] || Shared(before, risky, k))
  }

  // With copies for the requests 'used' tried one by one: responses are only ever lost, and only to a refusal for
  // such a copy, or for a run. The program ends only if it fails one that is gone.
  ghost predicate Losses(was: Responses, now: Responses, used: set<nat>, before: seq<seq<Pending>>,
      flushed: seq<seq<Pending>>, risky: set<nat>) {
    && |now.live| == |was.live|
    && (forall k :: 0 <= k < |now.live| && now.live[k] ==> was.live[k])
    && (forall k :: 0 <= k < |now.live| && was.live[k] ==>
         now.live[k] || Shared(flushed, risky, k) || (k in used && k in risky))
    && (was.crashed ==> now.crashed)
    && (now.crashed ==> was.crashed || Revisits(was.live, used, before, risky))
  }

  lemma {:induction false} LossesNone(a: Responses, risky: set<nat>)
    ensures Losses(a, a, {}, [], [], risky)
  {}

  lemma {:induction false} LossesOne(was: Responses, now: Responses, k: nat, risky: set<nat>)
    requires k < |was.live| && k in risky && now.live == was.live[k := false]
    requires now.crashed == (was.crashed || !was.live[k])
    ensures Losses(was, now, {k}, [], [], risky)
  {
    hide Shared;
  }

  // The requests of a run have been failed, as far as they had not been before.
  lemma {:induction false} LossesRun(was: Responses, now: Responses, f: seq<Pending>, flushed: seq<seq<Pending>>,
      risky: set<nat>)
    requires |now.live| == |was.live| && now.crashed == was.crashed && f in flushed
    requires forall k :: 0 <= k < |now.live| && now.live[k] ==> was.live[k]
    requires forall k :: 0 <= k < |now.live| && was.live[k] ==> now.live[k] || k in Reqs(f)
    requires Reqs(f) != {} ==> Reqs(f) * risky != {}
    ensures Losses(was, now, {}, [], flushed, risky)
  {
    hide Shared, Reqs;
    if Reqs(f) != {} { SharedBy(flushed, risky, f); }
  }

  lemma {:induction false} LossesMore(was: Responses, now: Responses, used: set<nat>, used': set<nat>,
      before: seq<seq<Pending>>, before': seq<seq<Pending>>, flushed: seq<seq<Pending>>, more: seq<seq<Pending>>,
      risky: set<nat>)
    requires Losses(was, now, used, before, flushed, risky)
    requires used <= used' && (before <= before' || used == {}) && flushed <= more
    ensures Losses(was, now, used', before', more, risky)
  {
    hide Shared;
    if before <= before' { SharedMore(before, before', risky); }
    SharedMore(flushed, more, risky);
  }

  // One after the other, for different requests. Those of the second step were in no run flushed in the first.
  lemma {:induction false} LossesThen(a: Responses, b: Responses, c: Responses, u: set<nat>, v: set<nat>,
      before: seq<seq<Pending>>, between: seq<seq<Pending>>, flushed: seq<seq<Pending>>, risky: set<nat>)
    requires Losses(a, b, u, before, between, risky) && Losses(b, c, v, between, flushed, risky) && u !! v
    requires between <= flushed
    requires forall k :: k in v && Shared(between, risky, k) ==> Shared(before, risky, k)
    ensures Losses(a, c, u + v, before, flushed, risky)
  {
    hide Shared;
    SharedMore(between, flushed, risky);
  }

  lemma {:induction false} DimmedThen(a: Responses, b: Responses, c: Responses, flushed: seq<seq<Pending>>,
      risky: set<nat>)
    requires Losses(a, b, {}, [], flushed, risky) && Losses(b, c, {}, [], flushed, risky)
    ensures Losses(a, c, {}, [], flushed, risky)
  {
    hide Shared;
  }

  // An entry more of a run has been copied.
  lemma {:induction false} LossesNext(a: Responses, b: Responses, c: Responses, list: seq<Pending>, i: nat,
      risky: set<nat>)
    requires Ordered(list) && i < |list| && Losses(a, b, Reqs(list[..i]), [], [], risky)
    requires Losses(b, c, {list[i].req}, [], [], risky)
    ensures Losses(a, c, Reqs(list[..i + 1]), [], [], risky)
  {
    hide Losses, Reqs;
    ReqsNext(list, i);
    LossesThen(a, b, c, Reqs(list[..i]), {list[i].req}, [], [], [], risky);
  }

  // Request 'k' alone has been tried; only if its input has not joined a run, a copy may have been refused for it.
  ghost predicate TrialOf(was: Responses, now: Responses, k: nat, fits: bool, joins: bool, risky: set<nat>) {
    && k < |was.live| == |now.live|
    && (now.live == was.live || (!joins && now.live == was.live[k := false] && (k in risky || !fits)))
    && (!fits ==> !now.live[k])
    && (was.crashed || (!fits && !was.live[k]) ==> now.crashed)
    && (now.crashed ==> was.crashed || (!joins && (k in risky || !fits) && !was.live[k]))
  }

  // Request 'n' has had its turn, and with it some runs that had to be flushed first.
  ghost predicate TurnOf(was: Responses, now: Responses, n: nat, fits: bool, used: set<nat>,
      before: seq<seq<Pending>>, flushed: seq<seq<Pending>>, risky: set<nat>) {
    && n < |was.live| == |now.live|
    && (forall k :: 0 <= k < |now.live| && now.live[k] ==> was.live[k] && (k == n ==> fits))
    && (forall k :: 0 <= k < |now.live| && was.live[k] && (k == n ==> fits) ==>
         now.live[k] || Shared(flushed, risky, k) || (k in used && k in risky))
    && (was.crashed || (!fits && !was.live[n]) ==> now.crashed)
    && (now.crashed ==> was.crashed || RevisitsTurn(was.live, n, fits, used, before, risky))
  }

  ghost predicate RevisitsTurn(was: seq<bool>, n: nat, fits: bool, used: set<nat>, before: seq<seq<Pending>>,
      risky: set<nat>) {
    exists k :: k in used && (k in risky || (k == n && !fits)) && k < |was| && (!was[k] || Shared(before, risky, k))
  }

  lemma {:induction false} TurnDone(was: Responses, mid: Responses, now: Responses, k: nat, fits: bool, joins: bool,
      used: set<nat>, before: seq<seq<Pending>>, flushed: seq<seq<Pending>>, risky: set<nat>)
    requires k < |was.live| && Losses(was, mid, used, before, flushed, risky)
    requires TrialOf(mid, now, k, fits, joins, risky) && k !in used
    requires Shared(flushed, risky, k) ==> Shared(before, risky, k)
    ensures TurnOf(was, now, k, fits, used + (if joins then {} else {k}), before, flushed, risky)
  {
    hide Shared;
  }

  // ---------------------------------------------------------------------------
  // One tensor

  // Of the first 'n' requests, those whose input does not fit have been failed; others only to a refusal.
  ghost predicate Vetted(was: seq<bool>, now: seq<bool>, parts: seq<seq<byte>>, cap: nat, n: nat,
      flushed: seq<seq<Pending>>, risky: set<nat>)
    requires n <= |parts|
  {
    && |parts| == |was| == |now|
    && (forall k :: 0 <= k < |now| && now[k] ==> was[k] && (k < n ==> Off(parts, k + 1) <= cap))
    && (forall k :: 0 <= k < |now| && was[k] && (k < n ==> Off(parts, k + 1) <= cap) ==>
         now[k] || Excused(flushed, risky, k))
  }

  // One of the first 'n' inputs does not fit, and its response had been sent already.
  ghost predicate Resent(was: seq<bool>, parts: seq<seq<byte>>, cap: nat, n: nat)
    requires n <= |parts| == |was|
  {
    exists k :: 0 <= k < n && !was[k] && Off(parts, k + 1) > cap
  }

  // Some input does not fit, or may be refused its copy, and its response had been sent already, or may have been
  // lost with a run of an earlier tensor.
  ghost predicate Revisited(was: seq<bool>, parts: seq<seq<byte>>, cap: nat, earlier: seq<seq<Pending>>,
      risky: set<nat>)
    requires |parts| == |was|
  {
    exists k :: 0 <= k < |was| && (k in risky || Off(parts, k + 1) > cap) && (!was[k] || Shared(earlier, risky, k))
  }

  // Requests still to be tried are as they were, but for runs of earlier tensors.
  ghost predicate Pristine(was: seq<bool>, now: seq<bool>, plist: seq<Pending>, klist: seq<Pending>, n: nat,
      earlier: seq<seq<Pending>>, risky: set<nat>) {
    |now| == |was|
    && forall k :: 0 <= k < |was| && Fresh(plist, klist, n, k) && was[k] ==> now[k] || Shared(earlier, risky, k)
  }

  // The responses after 'n' requests, with these runs pending.
  ghost predicate Verdict(was: Responses, now: Responses, parts: seq<seq<byte>>, cap: nat, n: nat,
      plist: seq<Pending>, klist: seq<Pending>, earlier: seq<seq<Pending>>, flushed: seq<seq<Pending>>,
      risky: set<nat>)
    requires n <= |parts|
  {
    && Vetted(was.live, now.live, parts, cap, n, flushed, risky)
    && Pristine(was.live, now.live, plist, klist, n, earlier, risky)
    && (was.crashed || Resent(was.live, parts, cap, n) ==> now.crashed)
    && (now.crashed ==> was.crashed || Revisited(was.live, parts, cap, earlier, risky))
  }

  // And after all of them.
  ghost predicate Answered(was: Responses, now: Responses, parts: seq<seq<byte>>, cap: nat,
      earlier: seq<seq<Pending>>, flushed: seq<seq<Pending>>, risky: set<nat>)
  {
    && Vetted(was.live, now.live, parts, cap, |parts|, flushed, risky)
    && (was.crashed || Resent(was.live, parts, cap, |parts|) ==> now.crashed)
    && (now.crashed ==> was.crashed || Revisited(was.live, parts, cap, earlier, risky))
  }

  // No request still to be tried is in a run flushed since the tensor was begun.
  ghost predicate Untried(plist: seq<Pending>, klist: seq<Pending>, n: nat, earlier: seq<seq<Pending>>,
      flushed: seq<seq<Pending>>) {
    earlier <= flushed && forall f, k :: f in flushed[|earlier|..] && k in Reqs(f) ==> !Fresh(plist, klist, n, k)
  }

  lemma {:induction false} VerdictFirst(was: Responses, parts: seq<seq<byte>>, cap: nat, earlier: seq<seq<Pending>>,
      risky: set<nat>)
    requires |parts| == |was.live|
    ensures Verdict(was, was, parts, cap, 0, [], [], earlier, earlier, risky)
  {}

  lemma {:induction false} UntriedShared(plist: seq<Pending>, klist: seq<Pending>, n: nat, earlier: seq<seq<Pending>>,
      flushed: seq<seq<Pending>>, risky: set<nat>, k: nat)
    requires Untried(plist, klist, n, earlier, flushed) && Fresh(plist, klist, n, k) && Shared(flushed, risky, k)
    ensures Shared(earlier, risky, k)
  {
    hide Shared, Reqs, Fresh;
    SharedBefore(earlier, flushed, risky, k);
  }

  lemma {:induction false} VerdictNext(was: Responses, now: Responses, next: Responses, parts: seq<seq<byte>>,
      cap: nat, n: nat, used: set<nat>, plist: seq<Pending>, klist: seq<Pending>, plist': seq<Pending>,
      klist': seq<Pending>, earlier: seq<seq<Pending>>, flushed: seq<seq<Pending>>, more: seq<seq<Pending>>,
      risky: set<nat>)
    requires n < |parts| && Verdict(was, now, parts, cap, n, plist, klist, earlier, flushed, risky)
    requires TurnOf(now, next, n, Off(parts, n + 1) <= cap, used, flushed, more, risky) && flushed <= more
    requires Untried(plist, klist, n, earlier, flushed) && Untried(plist', klist', n + 1, earlier, more)
    requires forall k :: k in used ==> Fresh(plist, klist, n, k) && !Fresh(plist', klist', n + 1, k)
    requires forall k :: Fresh(plist', klist', n + 1, k) ==> Fresh(plist, klist, n, k)
    requires Fresh(plist', klist', n + 1, n) ==> Off(parts, n + 1) <= cap
    ensures Verdict(was, next, parts, cap, n + 1, plist', klist', earlier, more, risky)
  {
    hide Off, Shared, Fresh, Untried;
    SharedMore(flushed, more, risky);
    forall k | Fresh(plist, klist, n, k) && Shared(flushed, risky, k) ensures Shared(earlier, risky, k) {
      UntriedShared(plist, klist, n, earlier, flushed, risky, k);
    }
    forall k | Fresh(plist', klist', n + 1, k) && Shared(more, risky, k) ensures Shared(earlier, risky, k) {
      UntriedShared(plist', klist', n + 1, earlier, more, risky, k);
    }
    assert Fresh(plist, klist, n, n) by { IsFresh(plist, klist, n); }
  }

  lemma {:induction false} PlansUntried(inputs: seq<Input>, how: Routing, n: nat, earlier: seq<seq<Pending>>)
    requires n <= |inputs|
    ensures var p, q := Planned(inputs, how, false, n), Planned(inputs, how, true, n);
      Lined(p.list, q.list, n) && Untried(p.list, q.list, n, earlier, After(earlier, p).flushed)
  {
    hide Planned, Reqs, Fresh, Lined;
    PlansApart(inputs, how, n);
    var p := Planned(inputs, how, false, n);
    assert (earlier + p.flushed)[|earlier|..] == p.flushed;
  }

  lemma {:induction false} LinedFacts(plist: seq<Pending>, klist: seq<Pending>, n: nat)
    requires Lined(plist, klist, n)
    ensures Ordered(plist) && Ordered(klist) && Reqs(plist) !! Reqs(klist)
  {}

  lemma {:induction false} IsFresh(plist: seq<Pending>, klist: seq<Pending>, n: nat)
    ensures Fresh(plist, klist, n, n)
  {}

  // The runs still pending have been flushed.
  lemma {:induction false} VerdictLast(was: Responses, now: Responses, next: Responses, parts: seq<seq<byte>>,
      cap: nat, plist: seq<Pending>, klist: seq<Pending>, earlier: seq<seq<Pending>>, flushed: seq<seq<Pending>>,
      more: seq<seq<Pending>>, risky: set<nat>)
    requires Verdict(was, now, parts, cap, |parts|, plist, klist, earlier, flushed, risky) && flushed <= more
    requires Losses(now, next, Reqs(plist) + Reqs(klist), flushed, more, risky)
    requires Untried(plist, klist, |parts|, earlier, flushed)
    ensures Answered(was, next, parts, cap, earlier, more, risky)
  {
    hide Off, Shared, Reqs, Untried;
    SharedMore(flushed, more, risky);
    forall k | Fresh(plist, klist, |parts|, k) && Shared(flushed, risky, k) ensures Shared(earlier, risky, k) {
      UntriedShared(plist, klist, |parts|, earlier, flushed, risky, k);
    }
  }

  // Finalize returns whether the caller has to synchronize, or waits for ever.
  datatype Outcome = Done(needSync: bool) | Blocked

  class BackendInputCollector {
    const dev: Device
    const requests: seq<map<string, Input>>
    const live: array<bool>             // which responses have not been sent yet
    const pinnedEnabled: bool
    const kernelThreshold: nat
    const workers: nat
    const useEvent: bool
    const copyOnStream: bool

    var needSync: bool
    var pendingPinnedSize: nat
    var pendingPinnedOffset: nat
    var pendingPinnedInputs: seq<Pending>
    var pendingKernelSize: nat
    var pendingKernelOffset: nat
    var pendingKernelCount: nat
    var pendingKernelInputs: seq<Pending>
    var deferredPinned: seq<Deferred>
    var asyncTaskCount: nat
    var completions: seq<bool>
    var workQueue: seq<Job>

    ghost var want: Want
    ghost var book: Book
    ghost var flushed: seq<seq<Pending>>    // every pinned flush there has been

    // The machine is idle and every tensor block is already there.
    constructor (dev: Device, requests: seq<map<string, Input>>, live: array<bool>, pinnedEnabled: bool,
                 kernelThreshold: nat, workers: nat, useEvent: bool, copyOnStream: bool)
      requires live.Length == |requests| < AsyncCopy.COUNTER_MODULUS && dev.Valid() && dev.stream == []
      ensures Ready() && book == Book(dev.mem, map[], [], [], Idle)
      ensures this.dev == dev && this.requests == requests && this.live == live && this.pinnedEnabled == pinnedEnabled
      ensures this.kernelThreshold == kernelThreshold && this.workers == workers
      ensures this.useEvent == useEvent && this.copyOnStream == copyOnStream
      ensures !needSync && deferredPinned == [] && asyncTaskCount == 0 && completions == [] && flushed == []
    {
      this.dev, this.requests, this.live, this.pinnedEnabled := dev, requests, live, pinnedEnabled;
      this.kernelThreshold, this.workers, this.useEvent, this.copyOnStream :=
        kernelThreshold, workers, useEvent, copyOnStream;
      needSync := false;
      pendingPinnedSize, pendingPinnedOffset, pendingPinnedInputs := 0, 0, [];
      pendingKernelSize, pendingKernelOffset, pendingKernelCount, pendingKernelInputs := 0, 0, 0, [];
      deferredPinned, asyncTaskCount, completions, workQueue := [], 0, [], [];
      FromHostNone(copyOnStream);
      want := seq(|dev.mem|, b requires 0 <= b < |dev.mem| reads dev => seq(|dev.mem[b]|, p => None));
      book := Book(dev.mem, map[], [], [], Idle);
      flushed := [];
    }

    ghost function Seen(): Responses
      reads dev, live
    {
      Responses(live[..], dev.crashed)
    }

    ghost function Now(): View
      reads this, dev, live
    {
      View(dev.mem, dev.stream, want, live[..], book)
    }

    // Workers do not wait for copies in flight: what they stage must be in host memory, and be copied at once.
    predicate Stageable(input: Input, usePinned: MemoryType) {
      workers > 1 && usePinned != CpuPinned && input.buffers != [] && input.buffers[0].memType == usePinned ==>
        !copyOnStream && OnHost(input)
    }

    ghost predicate PendingOk()
      reads this`pendingPinnedSize, this`pendingPinnedOffset, this`pendingPinnedInputs, this`book
      reads this`pendingKernelSize, this`pendingKernelOffset, this`pendingKernelCount, this`pendingKernelInputs
    {
      && pendingPinnedSize == Size(pendingPinnedInputs) && |pendingPinnedInputs| <= |requests|
      && pendingKernelSize == Size(pendingKernelInputs) && pendingKernelCount == BufferCount(pendingKernelInputs)
      && (forall j {:trigger pendingPinnedInputs[j].input.Valid()} :: 0 <= j < |pendingPinnedInputs| ==>
           pendingPinnedInputs[j].input.Valid())
      && (workers > 1 ==> FromHost(pendingPinnedInputs, copyOnStream))
      && (forall j {:trigger pendingKernelInputs[j].input.Valid()} :: 0 <= j < |pendingKernelInputs| ==>
           pendingKernelInputs[j].input.Valid())
      && (pendingPinnedInputs == [] ==> pendingPinnedOffset == 0)
      && (pendingKernelInputs == [] ==> pendingKernelOffset == 0)
      && match book.open
         case Idle => pendingPinnedInputs == [] && pendingKernelInputs == []
         case Busy(_, _, pinned, kernel) =>
           && pinned == Run(pendingPinnedOffset, pendingPinnedInputs)
           && kernel == Run(pendingKernelOffset, pendingKernelInputs)
    }

    ghost predicate Valid()
      reads this, dev, live
    {
      && dev.Valid() && live.Length == |requests| && |requests| < AsyncCopy.COUNTER_MODULUS
      && Balanced(Now()) && SameShape(dev.mem, want)
      && PendingOk()
      && workQueue == book.jobs && JobsRun(workQueue)
      && (dev.risky == {} ==> Certain(book.tensors, want))
      && Held(book.deferred, book.jobs, flushed)
    }

    // -------------------------------------------------------------------------
    // The machine moves

    method Land()
      requires Valid()
      modifies dev
      ensures Valid() && Eventual(Now()) == old(Eventual(Now())) && Better(old(dev.mem), dev.mem, want)
      ensures forall c :: c in dev.stream ==> c in old(dev.stream)
      ensures old(dev.marked == |dev.stream|) ==> dev.marked == |dev.stream|
      ensures dev.crashed == old(dev.crashed)
    {
      hide Balanced, JobsRun, FromHost, Sound, Better, Eventual, Apply, SameShape, Fits;
      ghost var v := Now();
      BalancedFacts(v);
      var k := dev.Progress();
      dev.LandFirst(k, want);
      LandKeeps(v, k);
      assert Now() == v.(mem := dev.mem, stream := dev.stream);
      BalancedFacts(Now());
    }

    // The response is released: the pointer to it is null from then on.
    method Send(req: nat)
      requires Valid() && req < live.Length
      modifies live, dev`crashed
      ensures Valid() && Eventual(Now()) == old(Eventual(Now()))
      ensures live[..] == old(live[..])[req := false] && dev.crashed == (old(dev.crashed) || !old(live[req]))
    {
      hide Balanced, JobsRun, FromHost, Eventual, Held;
      ghost var v := Now();
      dev.Use(live[req]);
      live[req] := false;
      KillKeeps(v, live[..]);
    }

    // CopyBuffer, for a copy that writes what is wanted.
    method Issue(c: Copy, srcType: MemoryType, dstType: MemoryType, onStream: bool, owners: set<nat>)
      returns (ok: bool, cudaUsed: bool)
      requires Valid() && Fits(dev.mem, c) && Aligned(want, c) && Routed(book, c)
      requires Fed(dev.mem, want, c) && Fed(Eventual(Now()), want, c)
      modifies dev
      ensures Valid() && Better(old(Eventual(Now())), Eventual(Now()), want)
      ensures ok ==> Holds(Eventual(Now()), want, c.dst, c.off, c.off + c.src.Len())
      ensures cudaUsed == (ok && (srcType.Gpu? || dstType.Gpu? || onStream))
      ensures !ok ==> dev.MayFail(owners) && (srcType.Gpu? || dstType.Gpu?)
      ensures dev.crashed == old(dev.crashed)
      ensures dev.stream == (if cudaUsed then old(dev.stream) + [c] else old(dev.stream))
      ensures dev.marked == old(dev.marked) && Better(old(dev.mem), dev.mem, want)
    {
      hide Balanced, JobsRun, FromHost, Aligned, Better, Holds, Eventual, Fed, Routed, SameShape;
      ghost var v := Now();
      BalancedFacts(v);
      Reflexive();
      ok, cudaUsed := dev.CopyBuffer(c, srcType, dstType, onStream, owners);
      if ok {
        CopyKeeps(v, c, cudaUsed);
        assert Now() == if cudaUsed then v.(stream := v.stream + [c]) else v.(mem := Do(v.mem, c));
        BalancedFacts(Now());
      } else {
        assert Now() == v;
      }
    }

    // -------------------------------------------------------------------------
    // One input

    // The input in question would go where its request belongs, and extends the open runs.
    ghost predicate Queueable(e: Pending, off: nat)
      reads this
    {
      && book.open.Busy? && book.open.tensor in book.tensors
      && var t := book.tensors[book.open.tensor];
      && Belongs(t, e, off)
      && off + |e.input.data| <= t.Cap() && |pendingPinnedInputs| < |requests|
      && (pendingPinnedSize > 0 ==> pendingPinnedOffset + pendingPinnedSize == off)
      && (pendingKernelSize > 0 ==> pendingKernelOffset + pendingKernelSize == off)
    }

    // The input has joined the pending pinned run, or the pending kernel run, with its bytes from 'off' on.
    twostate predicate Queued(e: Pending, off: nat, toKernel: bool)
      reads this
    {
      var size := |e.input.data|;
      && old(book).open.Busy? && book.open.Busy?
      && if toKernel then
           && book == old(book).(open := old(book).open.(kernel := book.open.kernel))
           && (forall p :: book.open.kernel.Covers(p) <==> old(book).open.kernel.Covers(p) || off <= p < off + size)
           && (pendingKernelSize > 0 ==> pendingKernelOffset + pendingKernelSize == off + size)
           && pendingKernelSize == old(pendingKernelSize) + size
           && pendingKernelInputs == old(pendingKernelInputs) + [e]
           && pendingKernelOffset == (if old(pendingKernelSize) == 0 then off else old(pendingKernelOffset))
           && pendingPinnedInputs == old(pendingPinnedInputs)
           && pendingPinnedSize == old(pendingPinnedSize) && pendingPinnedOffset == old(pendingPinnedOffset)
         else
           && book == old(book).(open := old(book).open.(pinned := book.open.pinned))
           && (forall p :: book.open.pinned.Covers(p) <==> old(book).open.pinned.Covers(p) || off <= p < off + size)
           && (pendingPinnedSize > 0 ==> pendingPinnedOffset + pendingPinnedSize == off + size)
           && pendingPinnedSize == old(pendingPinnedSize) + size
           && pendingPinnedInputs == old(pendingPinnedInputs) + [e]
           && pendingPinnedOffset == (if old(pendingPinnedSize) == 0 then off else old(pendingPinnedOffset))
           && pendingKernelInputs == old(pendingKernelInputs)
           && pendingKernelSize == old(pendingKernelSize) && pendingKernelOffset == old(pendingKernelOffset)
    }

    method QueuePinned(e: Pending, off: nat)
      requires Valid() && e.input.Valid() && Queueable(e, off)
      requires workers > 1 ==> !copyOnStream && OnHost(e.input)
      modifies this`pendingPinnedSize, this`pendingPinnedOffset, this`pendingPinnedInputs, this`book
      ensures Valid() && Eventual(Now()) == old(Eventual(Now()))
      ensures Queued(e, off, false)
    {
      hide Held, Balanced, JobsRun, FromHost, Eventual, Size, BufferCount, Certain, SameShape;
      ghost var v := Now();
      ghost var run, open := QueueKeeps(v, e, off, false);
      if workers > 1 { FromHostMore(pendingPinnedInputs, e, copyOnStream); }
      if pendingPinnedSize == 0 {
        pendingPinnedOffset := off;
      }
      pendingPinnedSize := pendingPinnedSize + |e.input.data|;
      pendingPinnedInputs := pendingPinnedInputs + [e];
      book := book.(open := open);
    }

    method QueueKernel(e: Pending, off: nat)
      requires Valid() && e.input.Valid() && Queueable(e, off)
      modifies this`pendingKernelSize, this`pendingKernelOffset, this`pendingKernelInputs, this`book
      modifies this`pendingKernelCount
      ensures Valid() && Eventual(Now()) == old(Eventual(Now()))
      ensures Queued(e, off, true)
    {
      hide Balanced, JobsRun, FromHost, Eventual, Size, BufferCount, Certain, SameShape, Held, RunOk, OpenOk, Belongs,
           Off, Fits;
      ghost var v := Now();
      ghost var run, open := QueueKeeps(v, e, off, true);
      if pendingKernelSize == 0 {
        pendingKernelOffset := off;
      }
      pendingKernelSize := pendingKernelSize + |e.input.data|;
      pendingKernelCount := pendingKernelCount + |e.input.buffers|;
      BufferCountAppend(pendingKernelInputs, e);
      pendingKernelInputs := pendingKernelInputs + [e];
      book := book.(open := open);
      assert PendingOk();
    }

    // The first buffer of an input decides whether it is put on a pending run.
    method Join(e: Pending, off: nat, buf: Buffer, dstType: MemoryType, dstId: int, ghost cap: nat,
                usePinned: MemoryType, useKernel: bool)
      returns (joined: bool, ghost fate: Fate)
      requires Valid() && e.input.Valid() && Stageable(e.input, usePinned)
      requires e.input.buffers != [] && buf == e.input.buffers[0]
      requires usePinned != CpuPinned || useKernel ==> Queueable(e, off)
      modifies this`pendingPinnedSize, this`pendingPinnedOffset, this`pendingPinnedInputs, this`book
      modifies this`pendingKernelSize, this`pendingKernelOffset, this`pendingKernelCount, this`pendingKernelInputs
      ensures Valid() && Eventual(Now()) == old(Eventual(Now()))
      ensures var how := Routing(usePinned, useKernel, dstType, dstId, cap);
        && (joined <==> how.Stages(e.input) || how.Launches(e.input))
        && (joined ==> fate == if how.Stages(e.input) then ToPinned else ToKernel)
      ensures if joined then Queued(e, off, fate.ToKernel?) else BooksUnchanged()
    {
      hide Balanced, JobsRun, FromHost, Eventual, Size, SameShape, PendingOk, Held, Certain, OnHost, Queueable, Queued;
      if usePinned != CpuPinned && buf.memType == usePinned {
        QueuePinned(e, off);
        return true, ToPinned;
      }
      if useKernel && buf.memType != Cpu && dstType == Gpu {
        if buf.memType != Gpu || buf.memId == dstId {
          QueueKernel(e, off);
          return true, ToKernel;
        }
      }
      return false, Copied;
    }

    lemma {:induction false} NoBuffers(input: Input, how: Routing)
      ensures input.buffers == [] ==> !how.Stages(input) && !how.Launches(input)
      ensures how.Stages(input) ==> how.usePinned != CpuPinned && !how.Launches(input)
      ensures how.Launches(input) ==> how.useKernel
    {}

    // Copies of the input to such memory may go on the stream.
    predicate CanUseCuda(input: Input, dstType: MemoryType) {
      !OnHost(input) || dstType.Gpu? || copyOnStream
    }

    lemma {:induction false} CudaBecause(input: Input, i: nat, dstType: MemoryType)
      requires i < |input.buffers| && (input.buffers[i].memType.Gpu? || dstType.Gpu? || copyOnStream)
      ensures CanUseCuda(input, dstType)
    {}

    // Copies the buffers of one input to 'off' of block 'dst', or puts the input on a pending run.
    method SetFixedSizeInputTensor(
        e: Pending, off: nat, dst: nat, cap: nat, dstType: MemoryType, dstId: int,
        usePinned: MemoryType, useKernel: bool)
      returns (cudaCopy: bool, ghost fate: Fate)
      requires Valid() && e.input.Valid() && e.req < live.Length && Stageable(e.input, usePinned)
      requires dst < |want| && cap == |want[dst]| && (dst in book.tensors || |book.before| <= dst)
      requires off + |e.input.data| <= cap ==>
        && Wanted(want, dst, off, e.input.data)
        && (usePinned != CpuPinned || useKernel ==> Queueable(e, off))
      modifies dev, live
      modifies this`pendingPinnedSize, this`pendingPinnedOffset, this`pendingPinnedInputs, this`book
      modifies this`pendingKernelSize, this`pendingKernelOffset, this`pendingKernelCount, this`pendingKernelInputs
      ensures Valid()
      ensures fate.Overflowed? <==> off + |e.input.data| > cap
      ensures fate.ToPinned? <==> Routing(usePinned, useKernel, dstType, dstId, cap).Joins(e.input, off, false)
      ensures fate.ToKernel? <==> Routing(usePinned, useKernel, dstType, dstId, cap).Joins(e.input, off, true)
      ensures live[..] == if fate.Overflowed? || fate.Failed? then old(live[..])[e.req := false] else old(live[..])
      ensures dev.crashed == (old(dev.crashed) || ((fate.Overflowed? || fate.Failed?) && !old(live[e.req])))
      ensures fate.Failed? ==> e.req in dev.risky
      ensures Better(old(Eventual(Now())), Eventual(Now()), want)
      ensures fate.Copied? ==> Holds(Eventual(Now()), want, dst, off, off + |e.input.data|)
      ensures !cudaCopy ==> forall c :: c in dev.stream ==> c in old(dev.stream)
      ensures cudaCopy ==> CanUseCuda(e.input, dstType)
      ensures forall c :: c in dev.stream ==> c in old(dev.stream) || c.src.Bytes?
      ensures if fate.ToPinned? || fate.ToKernel? then Queued(e, off, fate.ToKernel?) else BooksUnchanged()
    {
      hide Balanced, JobsRun, FromHost, Eventual, Better, Holds, Wanted, Size, SameShape, PendingOk, Concat, Held,
           Certain, Off, OnHost, Queueable, Stageable, Routing.Stages, Routing.Launches, CanUseCuda;
      cudaCopy := false;
      Reflexive();
      HoldsNothing(Eventual(Now()), want, dst, off);
      if off + |e.input.data| > cap {
        Send(e.req);
        fate := Overflowed;
        return;
      }
      var inputOffset := 0;
      ghost var pieces := Pieces(e.input.buffers);
      OffZero(pieces);
      NoBuffers(e.input, Routing(usePinned, useKernel, dstType, dstId, cap));
      for idx := 0 to |e.input.buffers|
        invariant Valid() && inputOffset == Off(pieces, idx) && live[..] == old(live[..])
        invariant BooksUnchanged() && dev.crashed == old(dev.crashed)
        invariant idx > 0 ==> !Routing(usePinned, useKernel, dstType, dstId, cap).Stages(e.input)
        invariant idx > 0 ==> !Routing(usePinned, useKernel, dstType, dstId, cap).Launches(e.input)
        invariant Better(old(Eventual(Now())), Eventual(Now()), want)
        invariant Holds(Eventual(Now()), want, dst, off, off + inputOffset)
        invariant !cudaCopy ==> forall c :: c in dev.stream ==> c in old(dev.stream)
        invariant cudaCopy ==> CanUseCuda(e.input, dstType)
        invariant forall c :: c in dev.stream ==> c in old(dev.stream) || c.src.Bytes?
      {
        var buf := e.input.buffers[idx];
        if idx == 0 {
          var joined;
          joined, fate := Join(e, off, buf, dstType, dstId, cap, usePinned, useKernel);
          if joined { return; }
        }
        ghost var was := Eventual(Now());
        var ok, cudaUsed := CopyPiece(e.req, pieces, idx, dst, off, inputOffset, buf, dstType);
        if cudaUsed { CudaBecause(e.input, idx, dstType); }
        cudaCopy := cudaCopy || cudaUsed;
        BetterTrans(old(Eventual(Now())), was, Eventual(Now()), want);
        if !ok {
          Send(e.req);
          fate := Failed;
          return;
        }
        OffStep(pieces, idx);
        inputOffset := inputOffset + |buf.data|;
      }
      fate := Copied;
    }

    twostate predicate BooksUnchanged()
      reads this
    {
      book == old(book) && PendingUnchanged()
    }

    lemma {:induction false} Reflexive()
      requires Valid()
      ensures Better(Eventual(Now()), Eventual(Now()), want) && Better(dev.mem, dev.mem, want)
      ensures SameShape(Eventual(Now()), want) && |Eventual(Now())| == |dev.mem| == |want|
    {
      BalancedFacts(Now());
      BetterRefl(dev.mem, want);
      BetterRefl(Eventual(Now()), want);
    }

    // One buffer of an input, at 'inputOffset' of the input.
    method CopyPiece(req: nat, ghost pieces: seq<seq<byte>>, ghost idx: nat, dst: nat, off: nat, inputOffset: nat,
                     buf: Buffer, dstType: MemoryType)
      returns (ok: bool, cudaUsed: bool)
      requires Valid() && idx < |pieces| && buf.data == pieces[idx] && inputOffset == Off(pieces, idx)
      requires Wanted(want, dst, off, Concat(pieces)) && (dst in book.tensors || |book.before| <= dst)
      requires Holds(Eventual(Now()), want, dst, off, off + inputOffset)
      modifies dev
      ensures Valid() && Better(old(Eventual(Now())), Eventual(Now()), want)
      ensures Holds(Eventual(Now()), want, dst, off, off + inputOffset + if ok then |buf.data| else 0)
      ensures !ok ==> req in dev.risky && !cudaUsed
      ensures cudaUsed ==> buf.memType.Gpu? || dstType.Gpu? || copyOnStream
      ensures dev.crashed == old(dev.crashed)
      ensures !cudaUsed ==> forall c :: c in dev.stream ==> c in old(dev.stream)
      ensures forall c :: c in dev.stream ==> c in old(dev.stream) || c.src.Bytes?
    {
      hide Balanced, JobsRun, FromHost, Eventual, Better, Holds, SameShape, Wanted, Aligned, Fed, Fits, Off, Concat,
           PendingOk, Held, Certain, Sound;
      PieceWanted(want, dst, off, pieces, idx);
      Land();
      var c := Copy(dst, off + inputOffset, Bytes(buf.data));
      ghost var e := Eventual(Now());
      Reflexive();
      BytesFed(dev.mem, want, c);
      BytesFed(e, want, c);
      ok, cudaUsed := Issue(c, buf.memType, dstType, copyOnStream, {req});
      BetterHolds(e, Eventual(Now()), want, dst, off, off + inputOffset);
      if ok { HoldsJoin(Eventual(Now()), want, dst, off, off + inputOffset, off + inputOffset + |buf.data|); }
    }

    // -------------------------------------------------------------------------
    // A run of inputs, copied one by one

    lemma {:induction false} OneMore(k: nat)
      ensures Losses(Seen(), Seen(), {k}, [], [], dev.risky)
    {
      hide Losses;
      LossesNone(Seen(), dev.risky);
      LossesMore(Seen(), Seen(), {}, {k}, [], [], [], [], dev.risky);
    }

    // Copies for these requests have been tried one by one, and runs among 'runs' have been failed.
    twostate predicate Cost(used: set<nat>, runs: seq<seq<Pending>>)
      reads this, live, dev
    {
      |want| >= old(|want|) && Losses(old(Seen()), Seen(), used, [], runs, dev.risky)
    }

    lemma {:induction false} NoCost()
      ensures Losses(Seen(), Seen(), {}, [], flushed, dev.risky)
    {
      hide Losses;
      LossesNone(Seen(), dev.risky);
      LossesMore(Seen(), Seen(), {}, {}, [], [], [], flushed, dev.risky);
    }

    // Responses have been lost with runs only.
    twostate predicate Dimmed()
      reads this, live, dev
    {
      Cost({}, flushed)
    }

    method CopyRun(list: seq<Pending>, base: nat, t: nat, cap: nat, tensorType: MemoryType, tensorId: int)
      returns (cudaCopy: bool)
      requires Valid() && t in book.tensors && t < |want| && cap == |want[t]|
      requires RunOk(book.tensors[t], Run(base, list)) && forall j :: 0 <= j < |list| ==> list[j].input.Valid()
      requires Ordered(list)
      modifies dev, live, this`want
      modifies this`pendingPinnedSize, this`pendingPinnedOffset, this`pendingPinnedInputs, this`book
      modifies this`pendingKernelSize, this`pendingKernelOffset, this`pendingKernelCount, this`pendingKernelInputs
      ensures Valid() && BooksUnchanged() && Cost(Reqs(list), [])
      ensures Holds(Eventual(Now()), want, t, base, base + Size(list))
      ensures !cudaCopy ==> forall c :: c in dev.stream ==> c in old(dev.stream)
    {
      hide Balanced, JobsRun, FromHost, Eventual, Better, Holds, Wanted, SameShape, PendingOk, Certain, Queueable,
           Forgets, RunOk, Off, Size, Weaker, Held, Losses, Reqs, Ordered;
      cudaCopy := false;
      var offset := 0;
      Reflexive();
      HoldsNothing(Eventual(Now()), want, t, base);
      OffZero(Parts(list));
      LossesNone(Seen(), dev.risky);
      ReqsNone(list);
      for i := 0 to |list|
        invariant Valid() && BooksUnchanged() && offset == Off(Parts(list), i)
        invariant Losses(old(Seen()), Seen(), Reqs(list[..i]), [], [], dev.risky)
        invariant |want| == old(|want|) && |want[t]| == cap
        invariant Holds(Eventual(Now()), want, t, base, base + offset)
        invariant !cudaCopy ==> forall c :: c in dev.stream ==> c in old(dev.stream)
      {
        ghost var e, was, hi, seen := Eventual(Now()), want, base + Off(Parts(list), i + 1), Seen();
        OffStep(Parts(list), i);
        var used := CopyEntry(list, base, i, offset, t, cap, tensorType, tensorId);
        HoldsWeaker(e, was, want, t, base, base + offset);
        BetterHolds(e, Eventual(Now()), want, t, base, base + offset);
        HoldsJoin(Eventual(Now()), want, t, base, base + offset, hi);
        LossesNext(old(Seen()), seen, Seen(), list, i, dev.risky);
        cudaCopy := cudaCopy || used;
        offset := offset + |list[i].input.data|;
      }
      SizeIs(list);
      assert list[..|list|] == list;
    }

    // Entry 'i' of a run.
    method CopyEntry(list: seq<Pending>, base: nat, i: nat, offset: nat, t: nat, cap: nat, tensorType: MemoryType,
        tensorId: int)
      returns (cudaCopy: bool)
      requires Valid() && t in book.tensors && t < |want| && cap == |want[t]| && i < |list|
      requires offset == Off(Parts(list), i)
      requires RunOk(book.tensors[t], Run(base, list)) && list[i].input.Valid()
      modifies dev, live, this`want
      modifies this`pendingPinnedSize, this`pendingPinnedOffset, this`pendingPinnedInputs, this`book
      modifies this`pendingKernelSize, this`pendingKernelOffset, this`pendingKernelCount, this`pendingKernelInputs
      ensures Valid() && BooksUnchanged() && |want| == old(|want|) && |want[t]| == cap
      ensures Losses(old(Seen()), Seen(), {list[i].req}, [], [], dev.risky)
      ensures Better(old(Eventual(Now())), Eventual(Now()), want) && Weaker(old(want), want)
      ensures Holds(Eventual(Now()), want, t, base + offset, base + Off(Parts(list), i + 1))
      ensures !cudaCopy ==> forall c :: c in dev.stream ==> c in old(dev.stream)
    {
      hide Balanced, JobsRun, FromHost, Eventual, Better, Holds, Wanted, SameShape, PendingOk, Queueable, Forgets,
           Certain, RunOk, Off, Size, Weaker, Held, Losses;
      ghost var run := Run(base, list);
      EntryFits(t, run, i);
      ghost var fate;
      cudaCopy, fate := SetFixedSizeInputTensor(list[i], base + offset, t, cap, tensorType, tensorId, CpuPinned, false);
      WeakerRefl(want);
      OneMore(list[i].req);
      if fate.Failed? {
        LossesOne(old(Seen()), Seen(), list[i].req, dev.risky);
        ghost var e := Eventual(Now());
        ghost var less := ForgetEntry(Now(), t, run, i);
        BetterWeaker(old(Eventual(Now())), e, want, less);
        want := less;
        BalancedFacts(Now());
      }
    }

    lemma {:induction false} EntryFits(t: nat, run: Run, i: nat)
      requires Valid() && t in book.tensors && t < |want| && i < |run.list| && RunOk(book.tensors[t], run)
      ensures run.list[i].req < live.Length
      ensures Off(Parts(run.list), i + 1) == Off(Parts(run.list), i) + |run.list[i].input.data|
      ensures run.base + Off(Parts(run.list), i + 1) <= |want[t]|
      ensures Wanted(want, t, run.base + Off(Parts(run.list), i), run.list[i].input.data)
    {
      hide Balanced, JobsRun, FromHost, RunOk, PendingOk, Certain, Wanted, TensorOk, Off, Size;
      BalancedTensor(Now(), t);
      EntryWanted(want, t, book.tensors[t], run, i);
      OffStep(Parts(run.list), i);
      RunReqs(Now(), t, run);
      RunFits(book.tensors[t], run);
      BalancedCap(Now(), t);
    }

    // -------------------------------------------------------------------------
    // The pending pinned run

    function PinnedRun(): Run
      reads this`pendingPinnedOffset, this`pendingPinnedInputs
    {
      Run(pendingPinnedOffset, pendingPinnedInputs)
    }

    function KernelRun(): Run
      reads this`pendingKernelOffset, this`pendingKernelInputs
    {
      Run(pendingKernelOffset, pendingKernelInputs)
    }

    lemma {:induction false} OpenHere(t: nat)
      requires Valid() && book.open.Busy? && t == book.open.tensor
      ensures t in book.tensors && t < |want| && |want[t]| == book.tensors[t].Cap()
      ensures RunOk(book.tensors[t], PinnedRun()) && RunOk(book.tensors[t], KernelRun())
      ensures pendingPinnedSize == Size(pendingPinnedInputs) && pendingKernelSize == Size(pendingKernelInputs)
      ensures pendingKernelInputs == [] ==> pendingKernelOffset == 0
      ensures pendingPinnedOffset + pendingPinnedSize <= |want[t]|
      ensures pendingKernelOffset + pendingKernelSize <= |want[t]|
      ensures forall j :: 0 <= j < |pendingPinnedInputs| ==> pendingPinnedInputs[j].input.Valid()
      ensures forall j :: 0 <= j < |pendingKernelInputs| ==> pendingKernelInputs[j].input.Valid()
    {
      hide Balanced, RunOk, JobsRun, BufferCount;
      OpenRuns(Now());
    }

    // A pinned buffer for the pending run, if the pool has room.
    method AllocatePinned() returns (pin: nat, actual: MemoryType)
      requires Valid() && book.open.Busy?
      modifies dev`mem, this`want
      ensures Valid() && |want| == old(|want|) + 1 && want[..|want| - 1] == old(want)
      ensures Staging(Now(), book.open.tensor, PinnedRun(), pin)
      ensures forall c :: c in dev.stream ==> c.dst != pin
      ensures actual == CpuPinned || (actual == Cpu && pendingPinnedSize > 0 && !dev.roomy)
    {
      hide Balanced, JobsRun, FromHost, Eventual, SameShape, RunOk, Certain, Sound, TensorOk, Fits, OpenOk, Size,
           BufferCount, Off, Unread, Held;
      ghost var v := Now();
      BalancedFacts(v);
      OpenRuns(v);
      pin, actual := dev.Allocate(pendingPinnedSize);
      ghost var promise := want[book.open.tensor][pendingPinnedOffset..pendingPinnedOffset + pendingPinnedSize];
      AllocateKeeps(v, dev.mem[pin], promise);
      want := want + [promise];
      assert dev.mem == v.mem + [dev.mem[pin]];
      CertainGrows(book.tensors, v.want, promise, |v.book.before|);
      SizeNone();
    }

    // A pinned buffer is given back, for others to write to. No copy reads it any more.
    method Release(pin: nat)
      requires Valid() && |book.before| <= pin < |dev.mem| && Unread(Now(), pin)
      requires forall c :: c in dev.stream ==> c.dst != pin
      modifies dev`mem, this`want
      ensures Valid() && |dev.mem| == |old(dev.mem)| && |want| == |old(want)|
    {
      hide Balanced, JobsRun, FromHost, Eventual, SameShape, RunOk, Certain, Sound, TensorOk, Fits, OpenOk, Size,
           BufferCount, Off, Unread, Held;
      ghost var v := Now();
      BalancedFacts(v);
      dev.Release(pin);
      ReleaseKeeps(v, pin, dev.mem[pin]);
      want := GatherBooks.Released(v, pin, dev.mem[pin]).want;
      CertainReleased(book.tensors, v.want, want, pin, |v.book.before|);
    }

    // Stages entry 'i' of the pending run.
    method StageEntry(pin: nat, i: nat, offset: nat) returns (cudaCopy: bool)
      requires Valid() && book.open.Busy? && i < |pendingPinnedInputs| && offset == Off(Parts(pendingPinnedInputs), i)
      requires Staging(Now(), book.open.tensor, PinnedRun(), pin)
      modifies dev, live, this`want
      modifies this`pendingPinnedSize, this`pendingPinnedOffset, this`pendingPinnedInputs, this`book
      modifies this`pendingKernelSize, this`pendingKernelOffset, this`pendingKernelCount, this`pendingKernelInputs
      ensures Valid() && BooksUnchanged() && Weaker(old(want), want) && |want| >= old(|want|)
      ensures Losses(old(Seen()), Seen(), {pendingPinnedInputs[i].req}, [], [], dev.risky)
      ensures Staging(Now(), book.open.tensor, PinnedRun(), pin)
      ensures Better(old(Eventual(Now())), Eventual(Now()), want)
      ensures Holds(Eventual(Now()), want, pin, offset, Off(Parts(pendingPinnedInputs), i + 1))
      ensures !cudaCopy ==> forall c :: c in dev.stream ==> c in old(dev.stream)
      ensures cudaCopy ==> !FromHost(pendingPinnedInputs, copyOnStream)
    {
      hide Balanced, JobsRun, FromHost, Eventual, Better, Holds, Wanted, SameShape, Queueable, Forgets, Certain,
           RunOk, Size, Off, Weaker, Staging, Unread, BufferCount, Held, Losses, CanUseCuda;
      ghost var t, run := book.open.tensor, PinnedRun();
      ghost var v := Now();
      if FromHost(pendingPinnedInputs, copyOnStream) { HostEntry(i); }
      OpenRuns(v);
      EntryFits(t, run, i);
      StagedEntryFits(t, run, pin, i);
      ghost var fate;
      cudaCopy, fate := SetFixedSizeInputTensor(
        pendingPinnedInputs[i], offset, pin, pendingPinnedSize, CpuPinned, 0, CpuPinned, false);
      WeakerRefl(want);
      OneMore(pendingPinnedInputs[i].req);
      StagingMoves(v, Now(), t, run, pin);
      if fate.Failed? {
        LossesOne(old(Seen()), Seen(), pendingPinnedInputs[i].req, dev.risky);
        ghost var e := Eventual(Now());
        ghost var less := ForgetStaged(Now(), t, run, pin, i);
        BetterWeaker(old(Eventual(Now())), e, want, less);
        want := less;
        BalancedFacts(Now());
      }
    }

    lemma {:induction false} HostEntry(i: nat)
      requires FromHost(pendingPinnedInputs, copyOnStream) && i < |pendingPinnedInputs|
      ensures !CanUseCuda(pendingPinnedInputs[i].input, CpuPinned)
    {}

    lemma {:induction false} StagedEntryFits(t: nat, run: Run, pin: nat, i: nat)
      requires Valid() && Staging(Now(), t, run, pin) && i < |run.list|
      ensures |book.before| <= pin < |want| && Off(Parts(run.list), i + 1) <= Size(run.list) == |want[pin]|
      ensures Wanted(want, pin, Off(Parts(run.list), i), run.list[i].input.data)
    {
      hide Balanced, RunOk, Wanted, Off, JobsRun, PendingOk, Certain, Unread;
      EntryFits(t, run, i);
      OffMonotone(Parts(run.list), i + 1, |run.list|);
      SizeIs(run.list);
      StagingWanted(Now(), t, run, pin, i);
    }

    // Fails every request of a run.
    method SendAll(list: seq<Pending>)
      requires Valid() && forall j :: 0 <= j < |list| ==> list[j].req < live.Length
      modifies live, dev`crashed
      ensures Valid() && Eventual(Now()) == old(Eventual(Now())) && AllDead(list, live[..])
      ensures forall k :: 0 <= k < live.Length && live[k] ==> old(live[k])
      ensures forall k :: 0 <= k < live.Length && old(live[k]) ==> live[k] || k in Reqs(list)
      ensures dev.crashed == old(dev.crashed)
    {
      hide Balanced, JobsRun, FromHost, Eventual, SameShape, PendingOk, Certain, Held;
      for i := 0 to |list|
        invariant Valid() && Eventual(Now()) == old(Eventual(Now()))
        invariant dev.crashed == old(dev.crashed)
        invariant forall k :: 0 <= k < live.Length && live[k] ==> old(live[k])
        invariant forall k :: 0 <= k < live.Length && old(live[k]) ==> live[k] || k in Reqs(list)
        invariant forall j :: 0 <= j < i ==> !live[list[j].req]
      {
        if live[list[i].req] {
          Send(list[i].req);
        }
      }
    }

    // A copy that is to fill the range of a run has failed.
    method FailRun(t: nat, run: Run)
      requires Valid() && t in book.tensors && RunOk(book.tensors[t], run)
      requires dev.MayFail(Reqs(run.list)) && run.list in flushed
      modifies live, dev`crashed, this`want
      ensures Valid() && Dimmed() && dev.crashed == old(dev.crashed) && Eventual(Now()) == old(Eventual(Now()))
      ensures Forgets(old(Now()), want)
      ensures Holds(Eventual(Now()), want, t, run.base, run.base + Size(run.list))
    {
      hide Balanced, JobsRun, FromHost, Eventual, SameShape, PendingOk, Certain, RunOk, Forgets, Holds, Held,
           Reqs, Losses;
      RunReqs(Now(), t, run);
      ghost var v := Now();
      SendAll(run.list);
      LossesRun(old(Seen()), Seen(), run.list, flushed, dev.risky);
      ghost var less := ForgetRun(Now(), t, run);
      ForgetsStays(v, Now(), less);
      want := less;
      BalancedFacts(Now());
    }

    // The pinned buffer of the pending run goes to the tensor in one piece.
    method CopyBlock(pin: nat, t: nat, tensorType: MemoryType) returns (cudaCopy: bool)
      requires Valid() && book.open.Busy? && t == book.open.tensor && Staging(Now(), t, PinnedRun(), pin)
      requires Holds(Eventual(Now()), want, pin, 0, pendingPinnedSize)
      requires pendingPinnedInputs in flushed && forall c :: c in dev.stream ==> c.dst != pin
      modifies dev, live, this`want
      ensures Valid() && BooksUnchanged() && Dimmed()
      ensures Holds(Eventual(Now()), want, t, pendingPinnedOffset, pendingPinnedOffset + pendingPinnedSize)
      ensures !cudaCopy ==> forall c :: c in dev.stream ==> c in old(dev.stream)
    {
      hide Balanced, JobsRun, FromHost, Eventual, Better, SameShape, Certain, RunOk, Forgets, Staging, Unread, Size,
           Aligned, Fed, Holds, Routed, Held, Reqs, Losses;
      NoCost();
      var run := PinnedRun();
      OpenRuns(Now());
      ghost var v := Now();
      Land();
      StagingMoves(v, Now(), t, run, pin);
      StagedReady(Now(), t, run, pin);
      var ok;
      ok, cudaCopy := Issue(
        Copy(t, pendingPinnedOffset, Slice(pin, 0, pendingPinnedSize)), CpuPinned, tensorType, copyOnStream,
        Reqs(pendingPinnedInputs));
      if !ok {
        FailRun(t, run);
      }
    }

    // A staged run, when no workers are used: the second copy is made at once, unless the first ones are in flight.
    method FlushStaged(pin: nat, t: nat, tensorType: MemoryType) returns (cudaCopy: bool)
      requires Valid() && book.open.Busy? && t == book.open.tensor && Staging(Now(), t, PinnedRun(), pin)
      requires deferredPinned == book.deferred && forall c :: c in dev.stream ==> c.dst != pin
      requires pendingPinnedInputs in flushed && Ordered(pendingPinnedInputs)
      modifies dev, live, this`want, this`deferredPinned
      modifies this`pendingPinnedSize, this`pendingPinnedOffset, this`pendingPinnedInputs, this`book
      modifies this`pendingKernelSize, this`pendingKernelOffset, this`pendingKernelCount, this`pendingKernelInputs
      ensures Valid() && Cost(Reqs(old(pendingPinnedInputs)), flushed)
      ensures deferredPinned == book.deferred && SeenTo(Now(), t, PinnedRun())
      ensures book == old(book).(deferred := book.deferred) && PendingUnchanged()
      ensures !cudaCopy ==> deferredPinned == old(deferredPinned)
      ensures FromHost(pendingPinnedInputs, copyOnStream) ==> deferredPinned == old(deferredPinned)
      ensures !cudaCopy ==> forall c :: c in dev.stream ==> c in old(dev.stream)
      ensures old(deferredPinned) <= deferredPinned
    {
      hide Balanced, JobsRun, FromHost, Eventual, Better, Holds, SameShape, Certain, RunOk, Staging, Size, Off,
           Weaker, SeenTo, Held, Losses, Reqs, Ordered;
      var cudaUsed := StageAll(pin, t);
      ghost var seen, reqs := Seen(), Reqs(pendingPinnedInputs);
      if !cudaUsed {
        cudaCopy := CopyBlock(pin, t, tensorType);
        LossesThen(old(Seen()), seen, Seen(), reqs, {}, [], [], flushed, dev.risky);
        assert reqs + {} == reqs;
        SeenToHolds(Now(), t, PinnedRun());
      } else {
        cudaCopy := true;
        LossesMore(old(Seen()), seen, reqs, reqs, [], [], [], flushed, dev.risky);
        Defer(Deferred(false, pin, t, tensorType, PinnedRun()));
      }
    }

    // The first copies, one for each input of the run.
    method StageAll(pin: nat, t: nat) returns (cudaUsed: bool)
      requires Valid() && book.open.Busy? && t == book.open.tensor && Staging(Now(), t, PinnedRun(), pin)
      requires deferredPinned == book.deferred && Ordered(pendingPinnedInputs)
      modifies dev, live, this`want
      modifies this`pendingPinnedSize, this`pendingPinnedOffset, this`pendingPinnedInputs, this`book
      modifies this`pendingKernelSize, this`pendingKernelOffset, this`pendingKernelCount, this`pendingKernelInputs
      ensures Valid() && BooksUnchanged() && Cost(Reqs(pendingPinnedInputs), [])
      ensures Staging(Now(), t, PinnedRun(), pin) && deferredPinned == book.deferred
      ensures Holds(Eventual(Now()), want, pin, 0, Size(pendingPinnedInputs))
      ensures !cudaUsed ==> forall c :: c in dev.stream ==> c in old(dev.stream)
      ensures cudaUsed ==> !FromHost(pendingPinnedInputs, copyOnStream)
    {
      hide Balanced, JobsRun, FromHost, Eventual, Better, Holds, SameShape, Certain, RunOk, Staging, Size, Off,
           Weaker, SeenTo, Held, Losses, Reqs, Ordered;
      cudaUsed := false;
      var offset := 0;
      LossesNone(Seen(), dev.risky);
      ReqsNone(pendingPinnedInputs);
      Reflexive();
      HoldsNothing(Eventual(Now()), want, pin, 0);
      StagingFacts(Now(), t, PinnedRun(), pin);
      OffZero(Parts(pendingPinnedInputs));
      for i := 0 to |pendingPinnedInputs|
        invariant Valid() && BooksUnchanged() && offset == Off(Parts(pendingPinnedInputs), i)
        invariant |want| >= old(|want|)
        invariant Losses(old(Seen()), Seen(), Reqs(pendingPinnedInputs[..i]), [], [], dev.risky)
        invariant Staging(Now(), t, PinnedRun(), pin) && deferredPinned == book.deferred
        invariant Holds(Eventual(Now()), want, pin, 0, offset)
        invariant !cudaUsed ==> forall c :: c in dev.stream ==> c in old(dev.stream)
        invariant cudaUsed ==> !FromHost(pendingPinnedInputs, copyOnStream)
      {
        ghost var e, was, seen := Eventual(Now()), want, Seen();
        OffStep(Parts(pendingPinnedInputs), i);
        var used := StageEntry(pin, i, offset);
        LossesNext(old(Seen()), seen, Seen(), pendingPinnedInputs, i, dev.risky);
        HoldsWeaker(e, was, want, pin, 0, offset);
        BetterHolds(e, Eventual(Now()), want, pin, 0, offset);
        HoldsJoin(Eventual(Now()), want, pin, 0, offset, Off(Parts(pendingPinnedInputs), i + 1));
        cudaUsed := cudaUsed || used;
        offset := offset + |pendingPinnedInputs[i].input.data|;
      }
      SizeIs(pendingPinnedInputs);
      assert pendingPinnedInputs[..|pendingPinnedInputs|] == pendingPinnedInputs;
    }

    method Defer(d: Deferred)
      requires Valid() && book.open.Busy? && d.tensor == book.open.tensor && !d.finalized
      requires deferredPinned == book.deferred && Staging(Now(), d.tensor, d.run, d.pin) && d.run.list in flushed
      requires Holds(Eventual(Now()), want, d.pin, 0, Size(d.run.list))
      modifies this`deferredPinned, this`book
      ensures Valid() && deferredPinned == book.deferred == old(book.deferred) + [d] && SeenTo(Now(), d.tensor, d.run)
      ensures book == old(book).(deferred := book.deferred)
    {
      hide Balanced, JobsRun, FromHost, Eventual, Holds, SameShape, Certain, RunOk, Staging, DeferredOk, Held;
      StagedDeferred(Now(), d.tensorType, d.tensor, d.run, d.pin);
      HeldDeferred(book.deferred, book.jobs, flushed, d);
      DeferKeeps(Now(), d);
      deferredPinned := deferredPinned + [d];
      book := book.(deferred := book.deferred + [d]);
      SeenToDeferred(Now(), d);
    }

    twostate predicate PendingUnchanged()
      reads this
    {
      && pendingPinnedSize == old(pendingPinnedSize) && pendingPinnedOffset == old(pendingPinnedOffset)
      && pendingPinnedInputs == old(pendingPinnedInputs)
      && pendingKernelSize == old(pendingKernelSize) && pendingKernelOffset == old(pendingKernelOffset)
      && pendingKernelInputs == old(pendingKernelInputs) && pendingKernelCount == old(pendingKernelCount)
    }

    // -------------------------------------------------------------------------
    // The workers

    // The jobs go on: none is added, dropped or redirected, and what runs were seen to stays.
    twostate predicate JobsGoOn()
      reads this, dev, live
    {
      && book == old(book).(jobs := book.jobs)
      && |workQueue| == |old(workQueue)|
      && JobsOn(old(workQueue), workQueue, |workQueue|)
      && (forall t, run :: old(SeenTo(Now(), t, run)) ==> SeenTo(Now(), t, run))
      && old(completions) <= completions
      && Posts(workQueue) - |completions| == old(Posts(workQueue) - |completions|)
      && (dev.stream == old(dev.stream) || true in completions[old(|completions|)..])
      && dev.marked == old(dev.marked)
    }

    // The task that brought the counter of job 'j' to zero issues the block copy and posts the completion.
    method PostBlock(j: nat, ghost i: nat)
      requires Valid() && j < |workQueue| && i < |workQueue[j].proto.tasks| && workQueue[j].proto.tasks[i].phase.Last?
      modifies dev, live, this`want, this`completions
      ensures Valid() && Dimmed() && |want| == old(|want|) && Weaker(old(want), want)
      ensures Better(old(Eventual(Now())), Eventual(Now()), want)
      ensures var g := workQueue[j]; Holds(Eventual(Now()), want, g.tensor, g.run.base, g.run.base + Size(g.run.list))
      ensures |completions| == old(|completions|) + 1 && old(completions) <= completions
      ensures dev.stream == old(dev.stream) || completions[old(|completions|)]
      ensures dev.marked == old(dev.marked)
    {
      hide Balanced, JobsRun, FromHost, Eventual, Better, Holds, SameShape, Certain, RunOk, Weaker, AsyncCopy.Inv,
           PendingOk, Fits, Aligned, Routed, Fed, Size, Forgets, Held, Reqs, Losses;
      var g := workQueue[j];
      NoCost();
      HeldStep(book.deferred, book.jobs, flushed, j, g);
      JobFacts(Now(), j);
      BlockWanted(Now(), g, i);
      WeakerRefl(want);
      var ok, used := Issue(Copy(g.tensor, g.run.base, Bytes(g.proto.pinned)), CpuPinned, g.tensorType, false,
        Reqs(g.run.list));
      completions := completions + [used];
      if !ok {
        ghost var v := Now();
        FailRun(g.tensor, g.run);
        ForgetsWeaker(v, want);
        BetterWeaker(old(Eventual(Now())), Eventual(Now()), v.want, want);
      }
    }

    // One step of the task with number 'i' of job 'j'.
    method StepTask(j: nat, i: nat, ghost next: Job)
      requires Valid() && j < |workQueue| && AsyncCopy.Runnable(workQueue[j].proto, i)
      requires var g := workQueue[j];
        && |g.proto.tasks| == |g.config.segs|
        && AsyncCopy.Enabled(g.config, g.proto, AsyncCopy.NextAction(g.config, g.proto, i))
        && next == g.(proto := AsyncCopy.Perform(g.config, g.proto, AsyncCopy.NextAction(g.config, g.proto, i)))
        && next.proto.posts == (if g.proto.tasks[i].phase.Last? then 1 else 0)
      requires JobsRun(workQueue[j := next])
      modifies dev, live, this`want, this`workQueue, this`book, this`completions
      ensures Valid() && Dimmed() && |want| == old(|want|) && Weaker(old(want), want)
      ensures workQueue == old(workQueue)[j := next] && book == old(book).(jobs := workQueue)
      ensures Better(old(Eventual(Now())), Eventual(Now()), want)
      ensures next.proto.posts == 0 ==> completions == old(completions) && dev.stream == old(dev.stream)
      ensures next.proto.posts != 0 ==>
        && Holds(Eventual(Now()), want, next.tensor, next.run.base, next.run.base + Size(next.run.list))
        && |completions| == old(|completions|) + 1 && old(completions) <= completions
        && (dev.stream == old(dev.stream) || completions[old(|completions|)])
      ensures dev.marked == old(dev.marked)
    {
      hide Balanced, JobsRun, FromHost, Eventual, Better, Holds, SameShape, Certain, RunOk, Weaker, Size, BufferCount,
           Fits, Held, Losses;
      hide AsyncCopy.Perform, AsyncCopy.Enabled, AsyncCopy.NextAction;
      Reflexive();
      NoCost();
      WeakerRefl(want);
      var g := workQueue[j];
      var proto := AsyncCopy.Perform(g.config, g.proto, AsyncCopy.NextAction(g.config, g.proto, i));
      if g.proto.tasks[i].phase.Last? {
        PostBlock(j, i);
      }
      WorkKeeps(Now(), j, proto);
      HeldStep(book.deferred, book.jobs, flushed, j, g.(proto := proto));
      workQueue := workQueue[j := g.(proto := proto)];
      book := book.(jobs := workQueue);
    }

    method RunTask(j: nat, i: nat)
      requires Valid() && j < |workQueue| && AsyncCopy.Runnable(workQueue[j].proto, i)
      modifies dev, live, this`want, this`workQueue, this`book, this`completions
      ensures Valid() && Dimmed() && JobsGoOn()
      ensures JobShapes(old(workQueue)) && JobShapes(workQueue) && Remaining(workQueue) < Remaining(old(workQueue))
    {
      hide Balanced, JobsRun, FromHost, Eventual, Better, Holds, SameShape, Certain, RunOk, Weaker, SeenTo, JobShapes,
           Size, Held, Losses;
      hide AsyncCopy.Perform, AsyncCopy.Enabled, WillComplete, Remaining, Posts;
      ghost var v := Now();
      Reflexive();
      ghost var did, next := StepJob(workQueue, j, i);
      assert JobGoesOn(workQueue[j], next);
      forall k | 0 <= k < |workQueue| ensures JobGoesOn(workQueue[k], workQueue[j := next][k]) {}
      StepTask(j, i, next);
      Reflexive();
      forall t, run | SeenTo(v, t, run) ensures SeenTo(Now(), t, run) {
        SeenToStays(v, Now(), t, run);
      }
    }

    // Whatever the workers get done meanwhile.
    method Workers()
      requires Valid()
      modifies dev, live, this`want, this`workQueue, this`book, this`completions
      ensures Valid() && Dimmed() && JobsGoOn()
    {
      hide Balanced, JobsRun, FromHost, Eventual, SameShape, Certain, SeenTo, JobShapes, WillComplete, Remaining,
           Posts, PendingOk;
      hide AsyncCopy.AddedTo, JobsOn, Held, Losses;
      JobsOnRefl(workQueue);
      NoCost();
      var steps: nat := *;
      while steps > 0
        invariant Valid() && Dimmed() && JobsGoOn()
      {
        var j: nat, i: nat := *, *;
        if j < |workQueue| && AsyncCopy.Runnable(workQueue[j].proto, i) {
          ghost var before, seen := workQueue, Seen();
          RunTask(j, i);
          DimmedThen(old(Seen()), seen, Seen(), flushed, dev.risky);
          JobsOnTrans(old(workQueue), before, workQueue, |workQueue|);
        }
        steps := steps - 1;
      }
    }

    // A staged run when workers are used: one task per segment, the last of which makes the second copy.
    method FlushWorkers(pin: nat, t: nat, tensorType: MemoryType)
      requires Valid() && book.open.Busy? && t == book.open.tensor && workers > 1
      requires Staging(Now(), t, PinnedRun(), pin) && deferredPinned == book.deferred && pendingPinnedInputs in flushed
      modifies dev, live, this`want, this`workQueue, this`book, this`completions, this`deferredPinned
      modifies this`asyncTaskCount
      ensures Valid() && Dimmed() && SeenTo(Now(), t, PinnedRun())
      ensures deferredPinned == book.deferred == old(deferredPinned) + [Deferred(true, pin, t, tensorType, PinnedRun())]
      ensures book == old(book).(deferred := book.deferred, jobs := book.jobs)
      ensures asyncTaskCount == old(asyncTaskCount) + 1 && |workQueue| == |old(workQueue)| + 1
      ensures JobsOn(old(workQueue), workQueue, |old(workQueue)|)
      ensures var g := workQueue[|old(workQueue)|]; g.run == PinnedRun() && JobHanded(g, workers, dev.risky)
      ensures old(completions) <= completions
      ensures Posts(workQueue) - |completions| == old(Posts(workQueue) - |completions|)
      ensures dev.stream == old(dev.stream) || true in completions[old(|completions|)..]
      ensures dev.marked == old(dev.marked)
    {
      hide Balanced, JobsRun, FromHost, Eventual, SameShape, Certain, SeenTo, JobShapes, WillComplete, Posts, Staging,
           Size, AsyncCopy.AddedTo;
      hide PendingOk, JobsOn, Completes, BufferCount, Fits, Weaker, Better, Held, Reqs, Losses;
      asyncTaskCount := asyncTaskCount + 1;
      ghost var before := workQueue;
      Hire(pin, t, tensorType, PinnedRun());
      ghost var hired := workQueue;
      var job := |workQueue| - 1;
      HandAll(job);
      JobsOnTrans(before, hired, workQueue, job);
    }

    // AddTask for each segment of the last job.
    method HandAll(job: nat)
      requires Valid() && job + 1 == |workQueue| && AsyncCopy.AddedTo(workQueue[job].proto, 0)
      modifies dev, live, this`want, this`workQueue, this`book, this`completions
      ensures Valid() && Dimmed()
      ensures book == old(book).(jobs := book.jobs) && |workQueue| == |old(workQueue)|
      ensures JobsOn(old(workQueue), workQueue, job) && HandedOn(old(workQueue), workQueue, job)
      ensures AsyncCopy.AddedTo(workQueue[job].proto, |workQueue[job].config.segs|)
      ensures forall t, run :: old(SeenTo(Now(), t, run)) ==> SeenTo(Now(), t, run)
      ensures old(completions) <= completions
      ensures Posts(workQueue) - |completions| == old(Posts(workQueue) - |completions|)
      ensures dev.stream == old(dev.stream) || true in completions[old(|completions|)..]
      ensures dev.marked == old(dev.marked)
    {
      hide Balanced, JobsRun, FromHost, Eventual, SameShape, Certain, SeenTo, JobShapes, WillComplete, Posts, Staging,
           Size, AsyncCopy.AddedTo, PendingOk, JobsOn, Held, Reqs, Losses;
      NoCost();
      JobsOnRefl(workQueue);
      JobsOnShorter(workQueue, workQueue, job + 1, job);
      var count := |workQueue[job].config.segs|;
      for i := 0 to count
        invariant Valid() && Dimmed() && book == old(book).(jobs := book.jobs)
        invariant |workQueue| == job + 1 && |workQueue[job].config.segs| == count
        invariant JobsOn(old(workQueue), workQueue, job) && HandedOn(old(workQueue), workQueue, job)
        invariant AsyncCopy.AddedTo(workQueue[job].proto, i)
        invariant forall t, run :: old(SeenTo(Now(), t, run)) ==> SeenTo(Now(), t, run)
        invariant old(completions) <= completions
        invariant Posts(workQueue) - |completions| == old(Posts(workQueue) - |completions|)
        invariant dev.stream == old(dev.stream) || true in completions[old(|completions|)..]
        invariant dev.marked == old(dev.marked)
      {
        ghost var before, seen := workQueue, Seen();
        HandNext(job, i);
        DimmedThen(old(Seen()), seen, Seen(), flushed, dev.risky);
        JobsOnTrans(old(workQueue), before, workQueue, job);
      }
    }

    // The job at 'job' is the same one, further on; its completion comes if it would have before and nothing may be
    // refused, and only if it would have.
    ghost predicate HandedOn(was: seq<Job>, now: seq<Job>, job: nat)
    {
      job < |was| && job < |now| &&
      var g, g' := was[job], now[job];
      && g'.tensor == g.tensor && g'.run == g.run && g'.config == g.config
      && (WillComplete(g') ==> WillComplete(g))
      && (Reqs(g.run.list) * dev.risky == {} && WillComplete(g) ==> WillComplete(g'))
    }

    method HandNext(job: nat, i: nat)
      requires Valid() && job + 1 == |workQueue|
      requires AsyncCopy.AddedTo(workQueue[job].proto, i) && i < |workQueue[job].config.segs|
      modifies dev, live, this`want, this`workQueue, this`book, this`completions
      ensures Valid() && Dimmed()
      ensures book == old(book).(jobs := book.jobs) && |workQueue| == |old(workQueue)|
      ensures JobsOn(old(workQueue), workQueue, job)
      ensures HandedOn(old(workQueue), workQueue, job) && AsyncCopy.AddedTo(workQueue[job].proto, i + 1)
      ensures forall t, run :: old(SeenTo(Now(), t, run)) ==> SeenTo(Now(), t, run)
      ensures old(completions) <= completions
      ensures Posts(workQueue) - |completions| == old(Posts(workQueue) - |completions|)
      ensures dev.stream == old(dev.stream) || true in completions[old(|completions|)..]
      ensures dev.marked == old(dev.marked)
    {
      hide Balanced, JobsRun, FromHost, Eventual, SameShape, Certain, SeenTo, JobShapes, WillComplete, Posts,
           AsyncCopy.AddedTo, PendingOk, JobsOn, Held, Reqs, Losses;
      ghost var before := workQueue;
      HandOut(job, i);
      ghost var between, seen := workQueue, Seen();
      Workers();
      DimmedThen(old(Seen()), seen, Seen(), flushed, dev.risky);
      JobsOnShorter(between, workQueue, job + 1, job);
      JobsOnTrans(before, between, workQueue, job);
      JobsOnLast(between, workQueue, job + 1, job, i + 1);
    }

    // AddTask for segment 'i' of the last job.
    method HandOut(job: nat, i: nat)
      requires Valid() && job + 1 == |workQueue|
      requires AsyncCopy.AddedTo(workQueue[job].proto, i) && i < |workQueue[job].config.segs|
      modifies live, dev`crashed, this`workQueue, this`book
      ensures Valid() && Dimmed() && Eventual(Now()) == old(Eventual(Now()))
      ensures book == old(book).(jobs := book.jobs) && |workQueue| == |old(workQueue)|
      ensures JobsOn(old(workQueue), workQueue, job)
      ensures HandedOn(old(workQueue), workQueue, job) && AsyncCopy.AddedTo(workQueue[job].proto, i + 1)
      ensures Posts(workQueue) == old(Posts(workQueue))
      ensures forall t, run :: old(SeenTo(Now(), t, run)) ==> SeenTo(Now(), t, run)
    {
      hide Balanced, JobsRun, FromHost, JobRuns, JobOk, Eventual, SameShape, Certain, SeenTo, JobShapes, WillComplete,
           Posts, Size, AsyncCopy.AddedTo, RunOk, BufferCount, Held, Reqs, Losses;
      ghost var v := Now();
      NoCost();
      JobFacts(v, job);
      var g := workQueue[job];
      SegmentBounds(v, g, i);
      var segment := g.run.list[g.config.segs[i].lo..g.config.segs[i].hi];
      ReqsWithin(g.run.list, g.config.segs[i].lo, g.config.segs[i].hi);
      var added := dev.Accepted(Reqs(segment));
      HandedRuns(g, i, added);
      var g' := Handed(g, i, added);
      WorkKeeps(v, job, g'.proto);
      HeldStep(book.deferred, book.jobs, flushed, job, g');
      JobsRunUpdate(workQueue, job, g');
      PostsUpdate(workQueue, job, g');
      assert JobsOn(workQueue, workQueue[job := g'], job);
      workQueue := workQueue[job := g'];
      book := book.(jobs := workQueue);
      ghost var u := Now();
      forall t, run | SeenTo(v, t, run) ensures SeenTo(u, t, run) { HandedSeen(v, u, job, t, run); }
      if !added {
        SendAll(segment);
        LossesRun(old(Seen()), Seen(), g.run.list, flushed, dev.risky);
        forall t, run | SeenTo(u, t, run) ensures SeenTo(Now(), t, run) { KillSeen(u, Now(), t, run); }
      }
    }

    lemma {:induction false} SegmentBounds(v: View, g: Job, i: nat)
      requires Balanced(v) && JobOk(v.book.tensors, g) && JobRuns(g) && i < |g.config.segs|
      ensures g.config.segs[i].lo < g.config.segs[i].hi <= |g.run.list|
      ensures forall j :: 0 <= j < |g.run.list| ==> g.run.list[j].req < |v.live|
    {
      RunReqs(v, g.tensor, g.run);
    }

    // The job of a flush joins the work queue, with none of its tasks added yet.
    method Hire(pin: nat, t: nat, tensorType: MemoryType, run: Run)
      requires Valid() && book.open.Busy? && t == book.open.tensor && workers > 1 && run == PinnedRun()
      requires Staging(Now(), t, run, pin) && deferredPinned == book.deferred && run.list in flushed
      modifies this`workQueue, this`book, this`deferredPinned
      ensures Valid() && SeenTo(Now(), t, run)
      ensures deferredPinned == book.deferred == old(deferredPinned) + [Deferred(true, pin, t, tensorType, run)]
      ensures book == old(book).(deferred := book.deferred, jobs := book.jobs)
      ensures |workQueue| == |old(workQueue)| + 1 && JobsOn(old(workQueue), workQueue, |old(workQueue)|)
      ensures Posts(workQueue) == Posts(old(workQueue))
      ensures var g := workQueue[|workQueue| - 1];
        && g.tensor == t && g.run == run && AsyncCopy.AddedTo(g.proto, 0)
        && (WillComplete(g) <==> Completes(|run.list|, workers))
    {
      hide Balanced, JobsRun, FromHost, JobRuns, Eventual, SeenTo, Posts, Size, AsyncCopy.AddedTo, RunOk, Parts,
           Certain, Unread, JobsOn;
      hide WillComplete, Completes, Held;
      var segs := SplitPending(Parts(run.list), workers);
      var g := Hired(t, tensorType, run, workers, segs, dev.mem[pin], copyOnStream);
      HiredWell(pin, t, tensorType, run, g);
      DeferKeeps(Now(), Deferred(true, pin, t, tensorType, run));
      HeldDeferred(book.deferred, book.jobs, flushed, Deferred(true, pin, t, tensorType, run));
      deferredPinned := deferredPinned + [Deferred(true, pin, t, tensorType, run)];
      book := book.(deferred := deferredPinned);
      Enlist(g);
    }

    lemma {:induction false} HiredWell(pin: nat, t: nat, tensorType: MemoryType, run: Run, g: Job)
      requires Valid() && book.open.Busy? && t == book.open.tensor && workers > 1 && run == PinnedRun()
      requires Staging(Now(), t, run, pin) && pin < |dev.mem|
      requires g == Hired(t, tensorType, run, workers, SegmentsOf(Parts(run.list), workers), dev.mem[pin], copyOnStream)
      ensures JobRuns(g) && JobOk(book.tensors, g) && g.proto.posts == 0 && g.tensor == t && g.run == run
      ensures AsyncCopy.AddedTo(g.proto, 0) && (WillComplete(g) <==> Completes(|run.list|, workers))
    {
      hide Balanced, JobsRun, FromHost, JobRuns, Eventual, Size, AsyncCopy.AddedTo, RunOk, Parts, Certain, Unread,
           Completes;
      OpenRuns(Now());
      HiredRuns(t, tensorType, run, workers, SegmentsOf(Parts(run.list), workers), dev.mem[pin], copyOnStream);
    }

    method Enlist(g: Job)
      requires Valid() && JobOk(book.tensors, g) && JobRuns(g) && g.proto.posts == 0 && g.run.list in flushed
      modifies this`workQueue, this`book
      ensures Valid() && SeenTo(Now(), g.tensor, g.run)
      ensures workQueue == old(workQueue) + [g] && book == old(book).(jobs := workQueue)
      ensures JobsOn(old(workQueue), workQueue, |old(workQueue)|) && Posts(workQueue) == Posts(old(workQueue))
    {
      hide Balanced, JobsRun, FromHost, JobRuns, JobOk, Eventual, SeenTo, Posts, Certain, JobsOn, Held;
      HireKeeps(Now(), g);
      HeldJob(book.deferred, book.jobs, flushed, g);
      JobsRunAppend(workQueue, g);
      PostsAppend(workQueue, g);
      JobsOnAppend(workQueue, g);
      workQueue := workQueue + [g];
      book := book.(jobs := workQueue);
      SeenToJob(Now(), g);
    }

    // -------------------------------------------------------------------------
    // Flushing

    // Nothing is lost between the fields.
    ghost predicate Steady()
      reads this`deferredPinned, this`book, this`asyncTaskCount, this`workQueue, this`completions
    {
      && deferredPinned == book.deferred
      && asyncTaskCount == |workQueue| <= |deferredPinned| && Posts(workQueue) == |completions|
      && QueueOk(workQueue, workers, dev.risky)
      && (workers <= 1 ==> workQueue == [] && completions == [])
      && (workers > 1 ==> forall j :: 0 <= j < |deferredPinned| ==> deferredPinned[j].finalized)
    }

    // Every pinned flush has a job, as far as it was handed to the workers for certain.
    ghost predicate Counted()
      reads this`workQueue, this`flushed
    {
      workers > 1 ==> Tallied(workQueue, flushed, dev.roomy)
    }

    // Copies in flight and second copies put off are known of: by 'flag', or by a completion.
    ghost predicate KnownBy(flag: bool)
      reads this`deferredPinned, this`completions, dev`stream
    {
      && (dev.stream != [] ==> flag || true in completions)
      && (forall j :: 0 <= j < |deferredPinned| && !deferredPinned[j].finalized ==> flag)
    }

    method FlushPendingPinned(t: nat, cap: nat, tensorType: MemoryType, tensorId: int) returns (cudaCopy: bool)
      requires Valid() && Steady() && Counted() && KnownBy(needSync) && book.open.Busy? && t == book.open.tensor
      requires t in book.tensors && cap == book.tensors[t].Cap() && Ordered(pendingPinnedInputs)
      modifies dev, live, this`want, this`workQueue, this`book, this`completions, this`deferredPinned
      modifies this`asyncTaskCount
      modifies this`pendingPinnedSize, this`pendingPinnedOffset, this`pendingPinnedInputs, this`flushed
      modifies this`pendingKernelSize, this`pendingKernelOffset, this`pendingKernelCount, this`pendingKernelInputs
      ensures Valid() && Steady() && Counted() && Cost(Reqs(old(pendingPinnedInputs)), flushed)
      ensures flushed == old(flushed) + [old(pendingPinnedInputs)]
      ensures pendingPinnedSize == 0 && pendingPinnedInputs == [] && pendingPinnedOffset == 0
      ensures KernelUnchanged()
      ensures book ==
        old(book).(open := old(book.open).(pinned := Run(0, [])), deferred := book.deferred, jobs := book.jobs)
      ensures KnownBy(needSync || cudaCopy)
      ensures workers <= 1 && FromHost(old(pendingPinnedInputs), copyOnStream) ==> deferredPinned == old(deferredPinned)
      ensures old(completions) <= completions
    {
      hide Balanced, JobsRun, FromHost, Eventual, SameShape, Certain, SeenTo, Posts, QueueOk, Held, Losses, Tallied,
           KnownBy, RunOk, Size, BufferCount, Reqs, Ordered;
      ghost var before := flushed;
      HeldMore(book.deferred, book.jobs, flushed, pendingPinnedInputs);
      flushed := flushed + [pendingPinnedInputs];
      cudaCopy := RoutePinned(t, cap, tensorType, tensorId, before);
      ClosePinned();
    }

    // Each of the three ways a pending pinned run may go.
    method RoutePinned(t: nat, cap: nat, tensorType: MemoryType, tensorId: int, ghost before: seq<seq<Pending>>)
      returns (cudaCopy: bool)
      requires Valid() && Steady() && KnownBy(needSync) && book.open.Busy? && t == book.open.tensor
      requires t in book.tensors && cap == book.tensors[t].Cap()
      requires flushed == before + [pendingPinnedInputs] && (workers > 1 ==> Tallied(workQueue, before, dev.roomy))
      requires Ordered(pendingPinnedInputs)
      modifies dev, live, this`want, this`workQueue, this`book, this`completions, this`deferredPinned
      modifies this`asyncTaskCount
      modifies this`pendingPinnedSize, this`pendingPinnedOffset, this`pendingPinnedInputs
      modifies this`pendingKernelSize, this`pendingKernelOffset, this`pendingKernelCount, this`pendingKernelInputs
      ensures Valid() && Steady() && Counted() && PendingUnchanged() && SeenTo(Now(), t, PinnedRun())
      ensures Cost(Reqs(old(pendingPinnedInputs)), flushed)
      ensures book == old(book).(deferred := book.deferred, jobs := book.jobs)
      ensures workers <= 1 && FromHost(old(pendingPinnedInputs), copyOnStream) ==> deferredPinned == old(deferredPinned)
      ensures KnownBy(needSync || cudaCopy)
      ensures old(completions) <= completions
    {
      hide Balanced, JobsRun, FromHost, Eventual, SameShape, Certain, RunOk, Staging, Size, SeenTo, Steady, KnownBy,
           PendingOk, Held, Losses, Tallied, Reqs, Ordered, BufferCount;
      OpenHere(t);
      var pin, actual := AllocatePinned();
      if actual != CpuPinned {
        if workers > 1 { TalliedMore(workQueue, before, dev.roomy, pendingPinnedInputs); }
        cudaCopy := RouteDirect(pin, t, cap, tensorType, tensorId);
      } else if workers <= 1 {
        cudaCopy := RouteStaged(pin, t, tensorType);
      } else {
        ghost var seen := Seen();
        RouteWorkers(pin, t, tensorType, before);
        LossesMore(seen, Seen(), {}, Reqs(pendingPinnedInputs), [], [], flushed, flushed, dev.risky);
        cudaCopy := false;
      }
    }

    // A buffer that is not pinned is of no use, and given back at once.
    method ReleaseUnused(pin: nat)
      requires Valid() && book.open.Busy? && Staging(Now(), book.open.tensor, PinnedRun(), pin)
      requires forall c :: c in dev.stream ==> c.dst != pin
      modifies dev`mem, this`want
      ensures Valid() && |want| == |old(want)|
    {
      hide Balanced, JobsRun, FromHost, Eventual, SameShape, RunOk, Certain, Size, BufferCount, Unread, Held, PendingOk;
      BalancedFacts(Now());
      Release(pin);
    }

    method RouteDirect(pin: nat, t: nat, cap: nat, tensorType: MemoryType, tensorId: int) returns (cudaCopy: bool)
      requires Valid() && Steady() && KnownBy(needSync) && book.open.Busy? && t == book.open.tensor
      requires Staging(Now(), t, PinnedRun(), pin) && forall c :: c in dev.stream ==> c.dst != pin
      requires t in book.tensors && cap == book.tensors[t].Cap() && Ordered(pendingPinnedInputs)
      modifies dev, live, this`want
      modifies this`pendingPinnedSize, this`pendingPinnedOffset, this`pendingPinnedInputs, this`book
      modifies this`pendingKernelSize, this`pendingKernelOffset, this`pendingKernelCount, this`pendingKernelInputs
      ensures Valid() && Steady() && BooksUnchanged() && SeenTo(Now(), t, PinnedRun())
      ensures Cost(Reqs(pendingPinnedInputs), flushed)
      ensures KnownBy(needSync || cudaCopy)
    {
      hide Balanced, JobsRun, FromHost, Eventual, Holds, SameShape, Certain, RunOk, Size, SeenTo, Posts, QueueOk,
           BufferCount, PendingOk, Held, Losses, Staging;
      ReleaseUnused(pin);
      OpenHere(t);
      cudaCopy := CopyRun(pendingPinnedInputs, pendingPinnedOffset, t, cap, tensorType, tensorId);
      ghost var reqs := Reqs(pendingPinnedInputs);
      LossesMore(old(Seen()), Seen(), reqs, reqs, [], [], [], flushed, dev.risky);
      SeenToHolds(Now(), t, PinnedRun());
      assert dev.stream != [] ==> dev.stream[0] in dev.stream;
    }

    method RouteStaged(pin: nat, t: nat, tensorType: MemoryType) returns (cudaCopy: bool)
      requires Valid() && Steady() && KnownBy(needSync) && book.open.Busy? && t == book.open.tensor && workers <= 1
      requires Staging(Now(), t, PinnedRun(), pin) && forall c :: c in dev.stream ==> c.dst != pin
      requires pendingPinnedInputs in flushed && Ordered(pendingPinnedInputs)
      modifies dev, live, this`want, this`deferredPinned
      modifies this`pendingPinnedSize, this`pendingPinnedOffset, this`pendingPinnedInputs, this`book
      modifies this`pendingKernelSize, this`pendingKernelOffset, this`pendingKernelCount, this`pendingKernelInputs
      ensures Valid() && Steady() && PendingUnchanged() && SeenTo(Now(), t, PinnedRun())
      ensures Cost(Reqs(pendingPinnedInputs), flushed)
      ensures book == old(book).(deferred := book.deferred)
      ensures FromHost(old(pendingPinnedInputs), copyOnStream) ==> deferredPinned == old(deferredPinned)
      ensures KnownBy(needSync || cudaCopy)
    {
      hide Balanced, JobsRun, FromHost, Eventual, SameShape, Certain, Size, SeenTo, Posts, QueueOk, BufferCount,
           PendingOk, Staging, Held, Losses;
      cudaCopy := FlushStaged(pin, t, tensorType);
      assert dev.stream != [] ==> dev.stream[0] in dev.stream;
    }

    method RouteWorkers(pin: nat, t: nat, tensorType: MemoryType, ghost before: seq<seq<Pending>>)
      requires Valid() && Steady() && KnownBy(needSync) && book.open.Busy? && t == book.open.tensor && workers > 1
      requires Staging(Now(), t, PinnedRun(), pin)
      requires flushed == before + [pendingPinnedInputs] && Tallied(workQueue, before, dev.roomy)
      modifies dev, live, this`want, this`workQueue, this`book, this`completions, this`deferredPinned
      modifies this`asyncTaskCount
      ensures Valid() && Steady() && Counted() && Dimmed() && SeenTo(Now(), t, PinnedRun())
      ensures book == old(book).(deferred := book.deferred, jobs := book.jobs)
      ensures KnownBy(needSync)
      ensures old(completions) <= completions
    {
      hide Balanced, JobsRun, FromHost, Eventual, SameShape, Certain, Size, SeenTo, Posts, QueueOk, JobHanded, JobsOn,
           PendingOk, Staging, Held, Losses, Tallied;
      FlushWorkers(pin, t, tensorType);
      QueueGoesOn(old(workQueue), workQueue, |old(workQueue)|, workers, dev.risky);
      TalliedOn(old(workQueue), workQueue, before, dev.roomy);
      assert Employed(workQueue, pendingPinnedInputs);
      TalliedMore(workQueue, before, dev.roomy, pendingPinnedInputs);
    }

    // Pending pinned copies are handled.
    method ClosePinned()
      requires Valid() && book.open.Busy? && SeenTo(Now(), book.open.tensor, PinnedRun())
      modifies this`pendingPinnedSize, this`pendingPinnedOffset, this`pendingPinnedInputs, this`book
      ensures Valid() && pendingPinnedSize == 0 && pendingPinnedInputs == [] && pendingPinnedOffset == 0
      ensures book == old(book).(open := old(book).open.(pinned := Run(0, [])))
    {
      hide Balanced, JobsRun, FromHost, Eventual, SameShape, Certain, RunOk, SeenTo, Size, BufferCount, Held;
      SizeNone();
      FromHostNone(copyOnStream);
      OpenRuns(Now());
      ClosePinnedKeeps(Now());
      pendingPinnedSize := 0;
      pendingPinnedOffset := 0;
      pendingPinnedInputs := [];
      book := book.(open := book.open.(pinned := Run(0, [])));
    }

    twostate predicate KernelUnchanged()
      reads this
    {
      && pendingKernelSize == old(pendingKernelSize) && pendingKernelOffset == old(pendingKernelOffset)
      && pendingKernelInputs == old(pendingKernelInputs) && pendingKernelCount == old(pendingKernelCount)
    }

    // The launch of a pending kernel run is one that gathers, if it is made at all.
    ghost predicate Launchable(list: seq<Pending>) {
      BufferCount(list) >= kernelThreshold ==> Kernel.Narrow(Flatten(list))
    }

    // The pending kernel run as one launch. The buffers for the kernel arguments may not be available.
    method LaunchCopyKernel(t: nat) returns (ok: bool)
      requires Valid() && book.open.Busy? && t == book.open.tensor && Kernel.Narrow(Flatten(pendingKernelInputs))
      modifies dev`stream
      ensures Valid()
      ensures ok ==> Holds(Eventual(Now()), want, t, pendingKernelOffset, pendingKernelOffset + pendingKernelSize)
      ensures dev.stream == old(dev.stream) || ok
    {
      hide Balanced, JobsRun, FromHost, Eventual, Better, Holds, SameShape, Certain, RunOk, Aligned, Fed, Routed,
           Concat, Flatten, BufferCount, PendingOk, Off, Total, Sizes, Offsets, Fits, Held, Kernel.Narrow;
      var pointers, sizes, offsets := LaunchArguments(pendingKernelInputs);
      ghost var c := Copy(t, pendingKernelOffset, Bytes(Concat(pointers)));
      KernelCopy(t, pointers, c);
      var room: bool := *;
      ok := false;
      if room {
        ok := Launch(pendingKernelOffset, pointers, sizes, offsets, t, c);
      }
    }

    // Whatever the threads do, the launch comes to a copy of the buffers side by side.
    method Launch(base: nat, pointers: seq<seq<byte>>, sizes: seq<nat>, offsets: seq<nat>, t: nat,
        ghost c: Copy) returns (ok: bool)
      requires Valid() && sizes == Sizes(pointers) && offsets == Offsets(pointers) && Kernel.Narrow(pointers)
      requires c == Copy(t, base, Bytes(Concat(pointers))) && Total(pointers) == c.src.Len()
      requires Fits(dev.mem, c) && Aligned(want, c) && Routed(book, c) && Fed(Eventual(Now()), want, c)
      modifies dev`stream
      ensures Valid() && dev.stream == (if ok then old(dev.stream) + [c] else old(dev.stream))
      ensures ok ==> Holds(Eventual(Now()), want, c.dst, c.off, c.off + c.src.Len())
    {
      hide Balanced, JobsRun, FromHost, Eventual, Better, Holds, SameShape, Certain, Aligned, Fed, Routed, Concat,
           PendingOk, Off, Total, Sizes, Offsets, Held, Kernel.Narrow, Kernel.ToInt, Kernel.Interleaving, Kernel.Run;
      ghost var v := Now();
      Kernel.NarrowCounts(pointers);
      var aligned, stores;
      ok, aligned, stores := dev.RunGatherKernel(t, base, pointers, sizes, offsets);
      LaunchedGathers(v.mem, t, base, pointers, aligned, stores);
      if ok {
        CopyKeeps(v, c, true);
        assert Now() == v.(stream := v.stream + [c]);
        BalancedFacts(Now());
      } else {
        assert Now() == v;
      }
    }

    lemma {:induction false} KernelCopy(t: nat, pointers: seq<seq<byte>>, c: Copy)
      requires Valid() && book.open.Busy? && t == book.open.tensor && pointers == Flatten(pendingKernelInputs)
      requires c == Copy(t, pendingKernelOffset, Bytes(Concat(pointers)))
      ensures pendingKernelCount == BufferCount(pendingKernelInputs)
      ensures Fits(dev.mem, c) && Aligned(want, c) && Routed(book, c) && Fed(Eventual(Now()), want, c)
      ensures Total(pointers) == pendingKernelSize == c.src.Len()
    {
      hide Balanced, JobsRun, FromHost, Eventual, SameShape, Certain, RunOk, Fits, Aligned, Fed, Routed, Concat,
           Flatten, BufferCount, Held;
      OpenRuns(Now());
      FlattenConcat(pendingKernelInputs);
      RunCopy(Now(), t, KernelRun(), Concat(pointers));
    }

    // As a launch if there are buffers enough for one, and input by input if there are not, or the launch failed.
    method RouteKernel(t: nat, cap: nat, tensorType: MemoryType, tensorId: int) returns (cudaCopy: bool)
      requires Valid() && book.open.Busy? && t == book.open.tensor
      requires t in book.tensors && cap == book.tensors[t].Cap() && Launchable(pendingKernelInputs)
      requires Ordered(pendingKernelInputs)
      modifies dev, live, this`want, this`book
      modifies this`pendingPinnedSize, this`pendingPinnedOffset, this`pendingPinnedInputs
      modifies this`pendingKernelSize, this`pendingKernelOffset, this`pendingKernelCount, this`pendingKernelInputs
      ensures Valid() && BooksUnchanged() && SeenTo(Now(), t, KernelRun()) && Cost(Reqs(pendingKernelInputs), [])
      ensures dev.stream != [] ==> cudaCopy || old(dev.stream) != []
    {
      hide Balanced, JobsRun, FromHost, Eventual, Better, Holds, SameShape, Certain, RunOk, SeenTo, BufferCount,
           PendingOk, Size, Queueable, Held, Losses, Kernel.Narrow, Flatten;
      OpenHere(t);
      PendingCount();
      var launched := false;
      KernelCost();
      if pendingKernelCount >= kernelThreshold {
        launched := LaunchCopyKernel(t);
      }
      if launched {
        cudaCopy := true;
      } else {
        cudaCopy := CopyRun(pendingKernelInputs, pendingKernelOffset, t, cap, tensorType, tensorId);
      }
      assert dev.stream != [] ==> dev.stream[0] in dev.stream;
      OpenHere(t);
      SeenToHolds(Now(), t, KernelRun());
    }

    lemma {:induction false} KernelCost()
      ensures Losses(Seen(), Seen(), Reqs(pendingKernelInputs), [], [], dev.risky)
    {
      hide Losses, Reqs;
      LossesNone(Seen(), dev.risky);
      LossesMore(Seen(), Seen(), {}, Reqs(pendingKernelInputs), [], [], [], [], dev.risky);
    }

    lemma {:induction false} PendingCount()
      requires Valid() && book.open.Busy?
      ensures pendingKernelCount == BufferCount(pendingKernelInputs)
    {}

    method FlushPendingCopyKernel(t: nat, cap: nat, tensorType: MemoryType, tensorId: int) returns (cudaCopy: bool)
      requires Valid() && Steady() && KnownBy(needSync) && book.open.Busy? && t == book.open.tensor
      requires t in book.tensors && cap == book.tensors[t].Cap() && Ordered(pendingKernelInputs)
      requires pendingKernelInputs != [] ==> Launchable(pendingKernelInputs)
      modifies dev, live, this`want, this`book
      modifies this`pendingPinnedSize, this`pendingPinnedOffset, this`pendingPinnedInputs
      modifies this`pendingKernelSize, this`pendingKernelOffset, this`pendingKernelCount, this`pendingKernelInputs
      ensures Valid() && Steady() && PinnedUnchanged() && Cost(Reqs(old(pendingKernelInputs)), [])
      ensures pendingKernelSize == 0 && pendingKernelInputs == [] && pendingKernelOffset == 0
      ensures book.open.Busy? && book == old(book).(open := old(book.open).(kernel := book.open.kernel))
      ensures KnownBy(needSync || cudaCopy)
    {
      hide Balanced, JobsRun, FromHost, Eventual, SameShape, Certain, SeenTo, Posts, QueueOk, BufferCount, PendingOk,
           Size, RunOk, Held, Losses, Launchable;
      OpenHere(t);
      SizeNone();
      cudaCopy := false;
      KernelCost();
      if |pendingKernelInputs| != 0 {
        cudaCopy := RouteKernel(t, cap, tensorType, tensorId);
        CloseKernel();
      }
    }

    // Pending kernel copies are handled.
    method CloseKernel()
      requires Valid() && book.open.Busy? && SeenTo(Now(), book.open.tensor, KernelRun())
      modifies this`pendingKernelSize, this`pendingKernelOffset, this`pendingKernelCount, this`pendingKernelInputs
      modifies this`book
      ensures Valid() && pendingKernelSize == 0 && pendingKernelInputs == [] && pendingKernelOffset == 0
      ensures book == old(book).(open := old(book).open.(kernel := Run(0, [])))
    {
      hide Balanced, JobsRun, FromHost, Eventual, SameShape, Certain, RunOk, SeenTo, Size, BufferCount, Held;
      SizeNone();
      CountNone();
      OpenRuns(Now());
      CloseKernelKeeps(Now());
      pendingKernelSize := 0;
      pendingKernelOffset := 0;
      pendingKernelCount := 0;
      pendingKernelInputs := [];
      book := book.(open := book.open.(kernel := Run(0, [])));
    }

    twostate predicate PinnedUnchanged()
      reads this
    {
      && pendingPinnedSize == old(pendingPinnedSize) && pendingPinnedOffset == old(pendingPinnedOffset)
      && pendingPinnedInputs == old(pendingPinnedInputs)
    }

    // -------------------------------------------------------------------------
    // One tensor

    // Between two calls.
    ghost predicate Ready()
      reads this, dev, live
    {
      && Valid() && Steady() && Counted() && book.open.Idle?
      && KnownBy(needSync)
      && (useEvent && |dev.stream| > dev.marked ==> true in completions)
    }

    ghost function InputsFor(name: string): (r: seq<Input>)
      requires forall k :: 0 <= k < |requests| ==> name in requests[k]
      ensures |r| == |requests| && forall k :: 0 <= k < |r| ==> r[k] == requests[k][name]
    {
      seq(|requests|, k requires 0 <= k < |requests| => requests[k][name])
    }

    // The pending runs as part of the plan of a call.
    ghost function PinnedPlan(): Plan
      reads this`flushed, this`pendingPinnedOffset, this`pendingPinnedInputs
    {
      Plan(flushed, pendingPinnedOffset, pendingPinnedInputs)
    }

    ghost function KernelPlan(): Plan
      reads this`pendingKernelOffset, this`pendingKernelInputs
    {
      Plan([], pendingKernelOffset, pendingKernelInputs)
    }

    ghost predicate Enters(how: Routing, input: Input, off: nat) {
      how.Joins(input, off, false) || how.Joins(input, off, true)
    }

    // The input has joined the runs that it should.
    twostate predicate Grew(e: Pending, off: nat, how: Routing)
      reads this`flushed, this`pendingPinnedOffset, this`pendingPinnedInputs
      reads this`pendingKernelOffset, this`pendingKernelInputs
    {
      && PinnedPlan() == Joined(old(PinnedPlan()), e, off, how.Joins(e.input, off, false))
      && KernelPlan() == Joined(old(KernelPlan()), e, off, how.Joins(e.input, off, true))
    }

    // Input 'e' belongs at 'off' of the tensor of this call, and may join the pending runs.
    ghost predicate Placeable(e: Pending, off: nat, t: nat, cap: nat, usePinned: MemoryType)
      reads this, dev, live
    {
      && Valid() && book.open.Busy? && t == book.open.tensor && t in book.tensors && cap == book.tensors[t].Cap()
      && e.input.Valid() && e.req < live.Length && Belongs(book.tensors[t], e, off)
      && Stageable(e.input, usePinned)
      && |pendingPinnedInputs| <= e.req
      && (pendingPinnedSize > 0 ==> pendingPinnedOffset + pendingPinnedSize == off)
      && (pendingKernelSize > 0 ==> pendingKernelOffset + pendingKernelSize == off)
    }

    // The input of the next request is copied, or joins a run, or is given up.
    method PlaceInput(e: Pending, off: nat, t: nat, cap: nat, tensorType: MemoryType, tensorId: int,
                      usePinned: MemoryType, useKernel: bool)
      returns (cudaCopy: bool)
      requires Placeable(e, off, t, cap, usePinned)
      modifies dev, live, this`want, this`book
      modifies this`pendingPinnedSize, this`pendingPinnedOffset, this`pendingPinnedInputs
      modifies this`pendingKernelSize, this`pendingKernelOffset, this`pendingKernelCount, this`pendingKernelInputs
      ensures Valid() && Placed(Now(), t, off, off + |e.input.data|)
      ensures book.open.Busy? && book == old(book).(open := book.open)
      ensures book.open.tensor == t && book.open.next == old(book.open.next)
      ensures |pendingPinnedInputs| <= e.req + 1
      ensures Grew(e, off, Routing(usePinned, useKernel, tensorType, tensorId, cap))
      ensures var how := Routing(usePinned, useKernel, tensorType, tensorId, cap);
        TrialOf(old(Seen()), Seen(), e.req, off + |e.input.data| <= cap, Enters(how, e.input, off), dev.risky)
      ensures dev.stream != [] ==> cudaCopy || old(dev.stream) != []
    {
      hide Balanced, JobsRun, FromHost, Eventual, Better, Holds, SameShape, Certain, RunOk, Wanted, Forgets, Weaker,
           Placed, Size, Belongs, BufferCount, PendingOk, Off, TensorOk, Fits, Held, Routing.Joins;
      OpenHere(t);
      PlaceWanted(e, off, t);
      ghost var fate;
      cudaCopy, fate := SetFixedSizeInputTensor(e, off, t, cap, tensorType, tensorId, usePinned, useKernel);
      assert dev.stream != [] ==> dev.stream[0] in dev.stream;
      PlaceEnd(e, off, t, fate);
    }

    // The input has been placed; if a copy has failed it is no longer promised.
    ghost method PlaceEnd(e: Pending, off: nat, t: nat, fate: Fate)
      requires Valid() && book.open.Busy? && t == book.open.tensor && t in book.tensors
      requires Belongs(book.tensors[t], e, off) && e.req < live.Length
      requires fate.Overflowed? <==> off + |e.input.data| > book.tensors[t].Cap()
      requires fate.Copied? ==> Holds(Eventual(Now()), want, t, off, off + |e.input.data|)
      requires fate.Failed? ==> !live[e.req] && dev.risky != {}
      requires fate.ToPinned? ==> forall p :: off <= p < off + |e.input.data| ==> book.open.pinned.Covers(p)
      requires fate.ToKernel? ==> forall p :: off <= p < off + |e.input.data| ==> book.open.kernel.Covers(p)
      modifies this`want
      ensures Valid() && Placed(Now(), t, off, off + |e.input.data|)
    {
      hide Balanced, JobsRun, Eventual, Holds, SameShape, Certain, RunOk, Placed, Size, Belongs, PendingOk, Off,
           TensorOk, Held;
      if fate.Failed? {
        want := GiveUp(e, off, t);
        BalancedFacts(Now());
      }
      PlaceDone(e, off, t, fate);
    }

    // The next request is seen to.
    method Place(e: Pending, off: nat, t: nat, cap: nat, tensorType: MemoryType, tensorId: int,
                 usePinned: MemoryType, useKernel: bool)
      requires Placeable(e, off, t, cap, usePinned) && Steady() && KnownBy(needSync) && off == book.open.next
      modifies dev, live, this`want, this`book, this`needSync
      modifies this`pendingPinnedSize, this`pendingPinnedOffset, this`pendingPinnedInputs
      modifies this`pendingKernelSize, this`pendingKernelOffset, this`pendingKernelCount, this`pendingKernelInputs
      ensures Valid() && Steady() && KnownBy(needSync)
      ensures book.open.Busy? && book == old(book).(open := book.open)
      ensures book.open.tensor == t && book.open.next == off + |e.input.data|
      ensures |pendingPinnedInputs| <= e.req + 1
      ensures Grew(e, off, Routing(usePinned, useKernel, tensorType, tensorId, cap))
      ensures var how := Routing(usePinned, useKernel, tensorType, tensorId, cap);
        TrialOf(old(Seen()), Seen(), e.req, off + |e.input.data| <= cap, Enters(how, e.input, off), dev.risky)
    {
      hide Balanced, JobsRun, FromHost, Eventual, SameShape, Certain, RunOk, Placed, Size, Belongs, BufferCount,
           Posts, QueueOk, PendingOk, Off, Held, Grew, TrialOf;
      PlaceWanted(e, off, t);
      var c := PlaceInput(e, off, t, cap, tensorType, tensorId, usePinned, useKernel);
      needSync := needSync || c;
      Advance(e.req, t, off + |e.input.data|);
    }

    // The next request has been seen to.
    ghost method Advance(k: nat, t: nat, hi: nat)
      requires Valid() && book.open.Busy? && t in book.tensors && k < |book.tensors[t].parts|
      requires book.open.next == Off(book.tensors[t].parts, k) && hi == Off(book.tensors[t].parts, k + 1)
      requires Placed(Now(), t, book.open.next, hi) && Steady()
      modifies this`book
      ensures Valid() && Steady() && book == old(book).(open := old(book.open).(next := hi))
    {
      hide Balanced, JobsRun, FromHost, Eventual, SameShape, Certain, RunOk, Placed, Size, BufferCount, Off, Posts,
           QueueOk, Held;
      AdvanceKeeps(Now(), t, k, hi);
      book := book.(open := book.open.(next := hi));
    }

    lemma {:induction false} PlaceWanted(e: Pending, off: nat, t: nat)
      requires Valid() && t in book.tensors
      requires Belongs(book.tensors[t], e, off)
      ensures e.req < |book.tensors[t].parts| && off == Off(book.tensors[t].parts, e.req)
      ensures Off(book.tensors[t].parts, e.req + 1) == off + |e.input.data| && t < |want|
      ensures off + |e.input.data| <= book.tensors[t].Cap() ==> Wanted(want, t, off, e.input.data)
    {
      hide Balanced, JobsRun, FromHost, RunOk, PendingOk, Certain, Wanted, TensorOk, Held;
      BalancedTensor(Now(), t);
      assert Off(book.tensors[t].parts, e.req + 1) == off + |e.input.data|;
      hide Off;
      if off + |e.input.data| <= book.tensors[t].Cap() {
        SingleRun(book.tensors[t], e, off);
        EntryWanted(want, t, book.tensors[t], Run(off, [e]), 0);
      }
    }

    // The input has been failed, and is no longer promised.
    lemma {:induction false} GiveUp(e: Pending, off: nat, t: nat) returns (less: Want)
      requires Valid() && t in book.tensors && e.req < live.Length && !live[e.req]
      requires Belongs(book.tensors[t], e, off)
      requires off + |e.input.data| <= book.tensors[t].Cap()
      ensures Balanced(Now().(want := less)) && Eventual(Now().(want := less)) == Eventual(Now())
      ensures Holds(Eventual(Now()), less, t, off, off + |e.input.data|)
    {
      hide Balanced, JobsRun, FromHost, RunOk, PendingOk, Certain, Holds, Eventual, Forgets, Held;
      SingleRun(book.tensors[t], e, off);
      less := ForgetEntry(Now(), t, Run(off, [e]), 0);
    }

    lemma {:induction false} PlaceDone(e: Pending, off: nat, t: nat, fate: Fate)
      requires Valid() && book.open.Busy? && t == book.open.tensor && t in book.tensors
      requires Belongs(book.tensors[t], e, off)
      requires fate.Overflowed? <==> off + |e.input.data| > book.tensors[t].Cap()
      requires fate.Copied? || fate.Failed? ==> Holds(Eventual(Now()), want, t, off, off + |e.input.data|)
      requires fate.ToPinned? ==> forall p :: off <= p < off + |e.input.data| ==> book.open.pinned.Covers(p)
      requires fate.ToKernel? ==> forall p :: off <= p < off + |e.input.data| ==> book.open.kernel.Covers(p)
      ensures Placed(Now(), t, off, off + |e.input.data|)
    {
      hide Balanced, JobsRun, FromHost, PendingOk, Certain, Holds, Eventual, RightAt, Held;
      match fate
      case Overflowed => OverflowBytes(book.tensors[t], e.req);
      case ToPinned =>
      case ToKernel =>
      case _ => PlacedHolds(Now(), t, off, off + |e.input.data|);
    }

    // Starts the books of a tensor.
    ghost method Begin(t: nat, parts: seq<seq<byte>>)
      requires Ready() && t < |book.before| && t !in book.tensors && |parts| == live.Length
      modifies this`want, this`book
      ensures Valid() && Steady() && KnownBy(needSync) && pendingPinnedInputs == [] && pendingKernelInputs == []
      ensures pendingPinnedOffset == 0 && pendingKernelOffset == 0
      ensures t < |dev.mem| && book == old(book).(
        tensors := old(book.tensors)[t := Tensor(parts, dev.mem[t], Laid(parts, dev.mem[t]))],
        open := Busy(t, 0, Run(0, []), Run(0, [])))
    {
      hide Balanced, JobsRun, FromHost, Eventual, Posts, QueueOk, Laid, Held;
      ghost var v := Now();
      BalancedFacts(v);
      BeginKeeps(v, t, parts);
      CertainBegun(v, t, parts);
      want := Begun(v, t, parts).want;
      book := Begun(v, t, parts).book;
      BalancedFacts(Now());
    }

    ghost method End(t: nat)
      requires Valid() && book.open.Busy? && book.open.tensor == t && t in book.tensors
      requires book.open.next == Total(book.tensors[t].parts) && Steady()
      requires pendingPinnedInputs == [] && pendingKernelInputs == []
      modifies this`book
      ensures Valid() && Steady() && book == old(book).(open := Idle)
    {
      hide Balanced, JobsRun, FromHost, Eventual, SameShape, Certain, Posts, QueueOk, Held;
      EndKeeps(Now(), t);
      book := book.(open := Idle);
    }

    // The books as they are during a call on tensor 't', which held 'initial' before, after 'idx' requests.
    twostate predicate Working(t: nat, initial: seq<byte>, inputs: seq<Input>, how: Routing, idx: nat)
      requires idx <= |inputs|
      reads this, dev, live
    {
      var parts := Datas(inputs);
      && Valid() && Steady() && Counted() && KnownBy(needSync)
      && book.open.Busy? && book.open.tensor == t
      && book.before == old(book.before)
      && book.tensors == old(book.tensors)[t := Tensor(parts, initial, Laid(parts, initial))]
      && PinnedPlan() == After(old(flushed), Planned(inputs, how, false, idx))
      && KernelPlan() == Planned(inputs, how, true, idx).(flushed := [])
    }

    // One turn of the loop over the requests: flush a run that does not reach up to here, then place the input.
    method ProcessRequest(idx: nat, input: Input, off: nat, t: nat, cap: nat, tensorType: MemoryType, tensorId: int,
                          usePinned: MemoryType, useKernel: bool)
      returns (ghost used: set<nat>)
      requires Valid() && Steady() && Counted() && KnownBy(needSync)
      requires book.open.Busy? && book.open.tensor == t && t in book.tensors
      requires cap == book.tensors[t].Cap() && Belongs(book.tensors[t], Pending(idx, input), off) && idx < live.Length
      requires input.Valid() && off == book.open.next && |pendingPinnedInputs| <= idx && Stageable(input, usePinned)
      requires Launchable(pendingKernelInputs) || !Overtaken(off)
      requires Lined(pendingPinnedInputs, pendingKernelInputs, idx)
      modifies dev, live, this
      ensures Valid() && Steady() && Counted() && KnownBy(needSync) && book.open.Busy?
      ensures book.open.tensor == t && book.open.next == off + |input.data|
      ensures book.before == old(book.before) && book.tensors == old(book.tensors)
      ensures |pendingPinnedInputs| <= idx + 1
      ensures var how := Routing(usePinned, useKernel, tensorType, tensorId, cap); var e := Pending(idx, input);
        && PinnedPlan() == Joined(Caught(old(PinnedPlan()), off), e, off, how.Joins(input, off, false))
        && KernelPlan() == Joined(Caught(old(KernelPlan()), off), e, off, how.Joins(input, off, true)).(flushed := [])
      ensures TurnOf(old(Seen()), Seen(), idx, off + |input.data| <= cap, used, old(flushed), flushed, dev.risky)
      ensures forall k :: k in used ==>
        && Fresh(old(pendingPinnedInputs), old(pendingKernelInputs), idx, k)
        && !Fresh(pendingPinnedInputs, pendingKernelInputs, idx + 1, k)
    {
      hide Balanced, JobsRun, FromHost, Eventual, SameShape, Certain, Placed, Off, RunOk, Belongs, PendingOk, Steady,
           KnownBy, Counted, Held, Shared, Caught, Size, Launchable, Overtaken, Routing.Joins, Laid, Stageable,
           Losses, TrialOf, TurnOf, Lined, Reqs;
      var e := Pending(idx, input);
      ghost var how := Routing(usePinned, useKernel, tensorType, tensorId, cap);
      ghost var tried := FlushStale(off, t, cap, tensorType, tensorId, idx);
      ghost var mid, plist, klist := Seen(), pendingPinnedInputs, pendingKernelInputs;
      Place(e, off, t, cap, tensorType, tensorId, usePinned, useKernel);
      ghost var fits := off + |input.data| <= cap;
      TurnDone(old(Seen()), mid, Seen(), idx, fits, Enters(how, input, off), tried, old(flushed), flushed, dev.risky);
      used := tried + if Enters(how, input, off) then {} else {idx};
      JoinedReqs(plist, klist, pendingPinnedInputs, pendingKernelInputs, e, idx, Enters(how, input, off), tried);
    }

    lemma {:induction false} JoinedReqs(plist: seq<Pending>, klist: seq<Pending>, plist': seq<Pending>,
        klist': seq<Pending>, e: Pending, n: nat, joins: bool, tried: set<nat>)
      requires plist' == plist || (joins && plist' == plist + [e])
      requires klist' == klist || (joins && klist' == klist + [e])
      requires e.req == n && forall k :: k in tried || k in Reqs(plist) || k in Reqs(klist) ==> k < n
      requires forall k :: k in tried ==> k !in Reqs(plist) && k !in Reqs(klist)
      ensures forall k :: k in tried || (!joins && k == n) ==> !Fresh(plist', klist', n + 1, k)
    {
      hide Reqs;
      ReqsMore(plist, e);
      ReqsMore(klist, e);
    }

    // The pending kernel run does not reach up to 'off'.
    predicate Overtaken(off: nat)
      reads this`pendingKernelSize, this`pendingKernelOffset
    {
      pendingKernelSize > 0 && off != pendingKernelSize + pendingKernelOffset
    }

    // A run that does not end at 'off' is flushed, so that a new one may begin.
    method FlushStale(off: nat, t: nat, cap: nat, tensorType: MemoryType, tensorId: int, ghost n: nat)
      returns (ghost used: set<nat>)
      requires Valid() && Steady() && Counted() && KnownBy(needSync)
      requires book.open.Busy? && book.open.tensor == t && t in book.tensors
      requires cap == book.tensors[t].Cap() && (Launchable(pendingKernelInputs) || !Overtaken(off))
      requires Lined(pendingPinnedInputs, pendingKernelInputs, n)
      modifies dev, live, this
      ensures Valid() && Steady() && Counted() && KnownBy(needSync) && book.open.Busy?
      ensures book.open.tensor == t && book.open.next == old(book.open).next
      ensures book.before == old(book.before) && book.tensors == old(book.tensors)
      ensures |pendingPinnedInputs| <= |old(pendingPinnedInputs)|
      ensures PinnedPlan() == Caught(old(PinnedPlan()), off)
      ensures KernelPlan() == Caught(old(KernelPlan()), off).(flushed := [])
      ensures pendingPinnedSize > 0 ==> pendingPinnedOffset + pendingPinnedSize == off
      ensures pendingKernelSize > 0 ==> pendingKernelOffset + pendingKernelSize == off
      ensures Losses(old(Seen()), Seen(), used, old(flushed), flushed, dev.risky)
      ensures forall k :: k in used ==>
        k < n && (k in Reqs(old(pendingPinnedInputs)) || k in Reqs(old(pendingKernelInputs)))
      ensures forall k :: k in Reqs(pendingPinnedInputs) || k in Reqs(pendingKernelInputs) ==> k < n && k !in used
      ensures Shared(flushed, dev.risky, n) ==> Shared(old(flushed), dev.risky, n)
    {
      hide Balanced, JobsRun, FromHost, Eventual, SameShape, Certain, RunOk, PendingOk, Steady, KnownBy, Counted, Held,
           Shared, Launchable, Size, Caught, Losses, Reqs, Ordered;
      ghost var plist, klist := pendingPinnedInputs, pendingKernelInputs;
      ReqsNone(plist);
      Meanwhile();
      ghost var seen := Seen();
      ghost var u := FlushStalePinned(off, t, cap, tensorType, tensorId);
      ghost var mid := Seen();
      ghost var v := FlushStaleKernel(off, t, cap, tensorType, tensorId);
      used := u + v;
      assert used == {} + u + v;
      StaleLosses(old(Seen()), seen, mid, Seen(), plist, u, v, old(flushed), flushed, dev.risky);
      if Shared(flushed, dev.risky, n) { SharedBefore(old(flushed), flushed, dev.risky, n); }
    }

    lemma {:induction false} StaleLosses(a: Responses, b: Responses, c: Responses, d: Responses, plist: seq<Pending>,
        u: set<nat>, v: set<nat>, before: seq<seq<Pending>>, flushed: seq<seq<Pending>>, risky: set<nat>)
      requires Losses(a, b, {}, [], before, risky) && Losses(b, c, u, [], flushed, risky)
      requires Losses(c, d, v, [], [], risky) && v !! Reqs(plist) && u <= Reqs(plist)
      requires flushed == before || flushed == before + [plist]
      ensures Losses(a, d, u + v, before, flushed, risky)
    {
      hide Losses, Shared, Reqs;
      LossesMore(a, b, {}, {}, [], before, before, before, risky);
      LossesMore(b, c, u, u, [], before, flushed, flushed, risky);
      LossesThen(a, b, c, {}, u, before, before, flushed, risky);
      assert {} + u == u;
      LossesMore(c, d, v, v, [], flushed, [], flushed, risky);
      forall k | k in v && Shared(flushed, risky, k) ensures Shared(before, risky, k) {
        SharedBefore(before, flushed, risky, k);
      }
      LossesThen(a, c, d, u, v, before, flushed, flushed, risky);
    }

    method FlushStalePinned(off: nat, t: nat, cap: nat, tensorType: MemoryType, tensorId: int)
      returns (ghost used: set<nat>)
      requires Valid() && Steady() && Counted() && KnownBy(needSync) && Ordered(pendingPinnedInputs)
      requires book.open.Busy? && book.open.tensor == t && t in book.tensors && cap == book.tensors[t].Cap()
      modifies dev, live, this
      ensures Valid() && Steady() && Counted() && KnownBy(needSync) && Cost(used, flushed) && book.open.Busy?
      ensures book.open.tensor == t && book.open.next == old(book.open).next
      ensures book.before == old(book.before) && book.tensors == old(book.tensors) && KernelUnchanged()
      ensures PinnedPlan() == Caught(old(PinnedPlan()), off)
      ensures if used == {} then pendingPinnedInputs == old(pendingPinnedInputs) || pendingPinnedInputs == []
              else used == Reqs(old(pendingPinnedInputs)) && pendingPinnedInputs == []
      ensures flushed == old(flushed) || flushed == old(flushed) + [old(pendingPinnedInputs)]
      ensures pendingPinnedSize > 0 ==> pendingPinnedOffset + pendingPinnedSize == off
    {
      hide Balanced, JobsRun, FromHost, Eventual, SameShape, Certain, RunOk, PendingOk, Steady, KnownBy, Counted, Held,
           Losses, Size, Reqs, Ordered;
      OpenHere(t);
      NoCost();
      used := {};
      if pendingPinnedSize > 0 && off != pendingPinnedSize + pendingPinnedOffset {
        used := Reqs(pendingPinnedInputs);
        var c := FlushPendingPinned(t, cap, tensorType, tensorId);
        needSync := needSync || c;
      }
    }

    method FlushStaleKernel(off: nat, t: nat, cap: nat, tensorType: MemoryType, tensorId: int)
      returns (ghost used: set<nat>)
      requires Valid() && Steady() && Counted() && KnownBy(needSync) && Ordered(pendingKernelInputs)
      requires book.open.Busy? && book.open.tensor == t && t in book.tensors && cap == book.tensors[t].Cap()
      requires Launchable(pendingKernelInputs) || !Overtaken(off)
      modifies dev, live, this
      ensures Valid() && Steady() && Counted() && KnownBy(needSync) && Cost(used, []) && book.open.Busy?
      ensures book.open.tensor == t && book.open.next == old(book.open).next
      ensures book.before == old(book.before) && book.tensors == old(book.tensors)
      ensures PinnedUnchanged() && flushed == old(flushed)
      ensures KernelPlan() == Caught(old(KernelPlan()), off).(flushed := [])
      ensures if used == {} then pendingKernelInputs == old(pendingKernelInputs) || pendingKernelInputs == []
              else used == Reqs(old(pendingKernelInputs)) && pendingKernelInputs == []
      ensures pendingKernelSize > 0 ==> pendingKernelOffset + pendingKernelSize == off
    {
      hide Balanced, JobsRun, FromHost, Eventual, SameShape, Certain, RunOk, PendingOk, Steady, KnownBy, Counted, Held,
           Losses, Launchable, Size, Reqs, Ordered;
      OpenHere(t);
      LossesNone(Seen(), dev.risky);
      used := {};
      if pendingKernelSize > 0 && off != pendingKernelSize + pendingKernelOffset {
        used := Reqs(pendingKernelInputs);
        var c := FlushPendingCopyKernel(t, cap, tensorType, tensorId);
        needSync := needSync || c;
      }
    }

    // Workers, with what is known kept.
    method Meanwhile()
      requires Valid() && Steady() && Counted() && KnownBy(needSync)
      modifies dev, live, this`want, this`workQueue, this`book, this`completions
      ensures Valid() && Steady() && Counted() && KnownBy(needSync) && Dimmed()
      ensures book == old(book).(jobs := book.jobs)
      ensures old(completions) <= completions && dev.marked == old(dev.marked)
      ensures dev.stream == old(dev.stream) || true in completions
    {
      hide Balanced, JobsRun, FromHost, Eventual, SameShape, Certain, Posts, QueueOk, JobsOn, SeenTo, PendingOk, Held,
           Losses, Tallied;
      Workers();
      QueueGoesOn(old(workQueue), workQueue, |workQueue|, workers, dev.risky);
      if workers > 1 { TalliedOn(old(workQueue), workQueue, flushed, dev.roomy); }
    }

    // Done with the tensor.
    method FlushAll(t: nat, cap: nat, tensorType: MemoryType, tensorId: int)
      requires Valid() && Steady() && Counted() && KnownBy(needSync)
      requires book.open.Busy? && book.open.tensor == t && t in book.tensors
      requires cap == book.tensors[t].Cap() && (pendingKernelInputs != [] ==> Launchable(pendingKernelInputs))
      requires Ordered(pendingPinnedInputs) && Ordered(pendingKernelInputs)
      requires Reqs(pendingPinnedInputs) !! Reqs(pendingKernelInputs)
      modifies dev, live, this
      ensures Valid() && Steady() && Counted() && KnownBy(needSync) && book.open.Busy?
      ensures book.open.tensor == t && book.open.next == old(book.open).next
      ensures book.before == old(book.before) && book.tensors == old(book.tensors)
      ensures pendingPinnedInputs == [] && pendingKernelInputs == []
      ensures flushed == old(flushed) + [old(pendingPinnedInputs)]
      ensures var used := Reqs(old(pendingPinnedInputs)) + Reqs(old(pendingKernelInputs));
        Losses(old(Seen()), Seen(), used, old(flushed), flushed, dev.risky)
    {
      hide Balanced, JobsRun, FromHost, Eventual, SameShape, Certain, RunOk, PendingOk, Steady, KnownBy, Counted, Held,
           Losses, Launchable, Reqs, Ordered;
      ghost var plist, klist := pendingPinnedInputs, pendingKernelInputs;
      NoCost();
      var c := FlushPendingPinned(t, cap, tensorType, tensorId);
      needSync := needSync || c;
      ghost var mid := Seen();
      c := FlushPendingCopyKernel(t, cap, tensorType, tensorId);
      needSync := needSync || c;
      StaleLosses(old(Seen()), old(Seen()), mid, Seen(), plist, Reqs(plist), Reqs(klist), old(flushed), flushed,
                  dev.risky);
    }

    // CpuPinned says that no pinned buffer is needed for the tensor.
    function UsePinned(tensorType: MemoryType): MemoryType {
      if pinnedEnabled then GetUsePinnedMemoryType(tensorType) else CpuPinned
    }

    function HowTo(tensorType: MemoryType, tensorId: int, cap: nat): Routing {
      Routing(UsePinned(tensorType), kernelThreshold != 0, tensorType, tensorId, cap)
    }

    // Every launch for the tensor gathers.
    ghost predicate AllLaunchable(inputs: seq<Input>, how: Routing) {
      forall f :: f in KernelFlushes(inputs, how) ==> Launchable(f)
    }

    // Lays the inputs of the batch side by side in block 't'.
    method ProcessTensor(name: string, t: nat, tensorType: MemoryType, tensorId: int)
      requires Ready() && t < |book.before| && t !in book.tensors && t < |dev.mem|
      requires forall k :: 0 <= k < |requests| ==> name in requests[k] && requests[k][name].Valid()
      requires AllLaunchable(InputsFor(name), HowTo(tensorType, tensorId, |dev.mem[t]|))
      requires forall k :: 0 <= k < |requests| ==> Stageable(requests[k][name], UsePinned(tensorType))
      modifies dev, live, this
      ensures Ready()
      ensures var initial := old(dev.mem[t]); var parts := Datas(InputsFor(name));
        && book.tensors == old(book.tensors)[t := Tensor(parts, initial, Laid(parts, initial))]
        && Answered(old(Seen()), Seen(), parts, |initial|, old(flushed), flushed, dev.risky)
      ensures flushed ==
        old(flushed) + PinnedFlushes(InputsFor(name), HowTo(tensorType, tensorId, |old(dev.mem[t])|))
      ensures book.before == old(book.before)
    {
      hide Balanced, JobsRun, FromHost, Eventual, SameShape, Certain, Placed, Off, RunOk, Laid, PendingOk, Steady,
           KnownBy, Counted, Verdict, Answered, TurnOf, Losses, Belongs, Held, Planned, Launchable, AllLaunchable,
           Caught, Grown, Stageable, Routing.Joins, UsePinned, Lined, Fresh, Untried, Reqs, Shared;
      var usePinned := UsePinned(tensorType);
      var useKernel := kernelThreshold != 0;
      var cap := |dev.mem[t]|;
      ghost var initial, inputs, how := dev.mem[t], InputsFor(name), HowTo(tensorType, tensorId, cap);
      ghost var parts, earlier := Datas(inputs), flushed;
      Begin(t, parts);
      PlannedFirst(inputs, how, flushed);
      OffZero(parts);
      VerdictFirst(Seen(), parts, cap, earlier, dev.risky);
      var bufferOffset := 0;
      for idx := 0 to |requests|
        invariant Working(t, initial, inputs, how, idx)
        invariant bufferOffset == Off(parts, idx) == book.open.next && |pendingPinnedInputs| <= idx
        invariant Verdict(old(Seen()), Seen(), parts, cap, idx, pendingPinnedInputs, pendingKernelInputs, earlier,
                          flushed, dev.risky)
      {
        ghost var before, more := Seen(), flushed;
        ghost var plist, klist := pendingPinnedInputs, pendingKernelInputs;
        BelongsAt(book.tensors[t], idx, requests[idx][name]);
        KernelCaught(inputs, how, idx);
        PlansUntried(inputs, how, idx, earlier);
        ghost var used := ProcessRequest(
          idx, requests[idx][name], bufferOffset, t, cap, tensorType, tensorId, usePinned, useKernel);
        PlannedNext(inputs, how, idx, earlier);
        OffStep(parts, idx);
        PlansUntried(inputs, how, idx + 1, earlier);
        PlansFresh(inputs, how, idx);
        VerdictNext(old(Seen()), before, Seen(), parts, cap, idx, used, plist, klist, pendingPinnedInputs,
                    pendingKernelInputs, earlier, more, flushed, dev.risky);
        bufferOffset := bufferOffset + |requests[idx][name].data|;
      }
      ghost var before, more, plist, klist := Seen(), flushed, pendingPinnedInputs, pendingKernelInputs;
      KernelLast(inputs, how);
      PlansUntried(inputs, how, |requests|, earlier);
      LinedFacts(plist, klist, |requests|);
      FlushAll(t, cap, tensorType, tensorId);
      VerdictLast(old(Seen()), before, Seen(), parts, cap, plist, klist, earlier, more, flushed, dev.risky);
      Conclude(t);
    }

    lemma {:induction false} KernelCaught(inputs: seq<Input>, how: Routing, idx: nat)
      requires Valid() && book.open.Busy? && idx < |inputs| && AllLaunchable(inputs, how)
      requires KernelPlan() == Planned(inputs, how, true, idx).(flushed := [])
      ensures Launchable(pendingKernelInputs) || !Overtaken(Off(Datas(inputs), idx))
    {
      hide Planned, KernelFlushes, Off, Size, Launchable, Balanced, JobsRun, FromHost, Eventual, Held, Certain;
      OpenHere(book.open.tensor);
      CaughtFlushes(inputs, how, idx);
    }

    lemma {:induction false} KernelLast(inputs: seq<Input>, how: Routing)
      requires AllLaunchable(inputs, how)
      requires KernelPlan() == Planned(inputs, how, true, |inputs|).(flushed := [])
      ensures pendingKernelInputs != [] ==> Launchable(pendingKernelInputs)
    {
      hide Planned, KernelFlushes, Launchable;
      LastFlushes(inputs, how);
    }

    // The call is over; the event covers what is in flight.
    method Conclude(t: nat)
      requires Valid() && Steady() && Counted() && KnownBy(needSync) && pendingPinnedInputs == []
      requires pendingKernelInputs == []
      requires book.open.Busy? && book.open.tensor == t && t in book.tensors
      requires book.open.next == Total(book.tensors[t].parts)
      modifies dev`marked, this`book
      ensures Ready() && book == old(book).(open := Idle)
    {
      hide Balanced, JobsRun, FromHost, Eventual, SameShape, Certain, Posts, QueueOk, BufferCount, Held, Tallied;
      if needSync && useEvent {
        dev.EventRecord();
      }
      End(t);
    }

    // -------------------------------------------------------------------------
    // Finalize

    // Waits for the first copies.
    method Synchronize()
      requires Ready()
      modifies dev, this`needSync
      ensures dev.crashed == old(dev.crashed)
      ensures Valid() && Steady() && Arrived(book.deferred, dev.mem, want, 0)
      ensures dev.stream != [] ==> needSync || true in completions
      ensures deferredPinned == [] ==>
        needSync == old(needSync) && dev.stream == old(dev.stream) && dev.marked == old(dev.marked)
    {
      hide Balanced, JobsRun, FromHost, Eventual, Better, SameShape, Certain, PendingOk, Posts, QueueOk, Holds, Sound,
           Fits, Apply, Arrived, Held;
      ghost var v := Now();
      BalancedFacts(v);
      if deferredPinned != [] && needSync {
        ghost var k := if useEvent then dev.marked else |dev.stream|;
        assert v.stream[|v.stream|..] == [] && v.stream[..|v.stream|] == v.stream;
        if useEvent {
          dev.EventSynchronize(want);
        } else {
          dev.StreamSynchronize(want);
        }
        LandKeeps(v, k);
        assert Now() == v.(mem := dev.mem, stream := dev.stream);
        BalancedFacts(Now());
        needSync := false;
      }
      DrainedArrived(Now());
    }

    // The second copy of a deferred run; its requests are failed if it cannot be made.
    method FinalizeDeferred(i: nat) returns (cudaUsed: bool)
      requires Valid() && i < |deferredPinned| == |book.deferred|
      requires deferredPinned[i] == book.deferred[i] && !book.deferred[i].finalized
      requires Arrived(book.deferred, dev.mem, want, i)
      modifies dev, live, this`want, this`book
      ensures Valid() && Dimmed() && Arrived(book.deferred, dev.mem, want, i + 1)
      ensures book == old(book).(deferred := old(book.deferred)[i := old(book.deferred)[i].(finalized := true)])
      ensures !cudaUsed ==> forall c :: c in dev.stream ==> c in old(dev.stream)
    {
      hide Balanced, JobsRun, FromHost, Eventual, Better, SameShape, Certain, Holds, Sound, Fits, RunOk, Aligned, Fed,
           Routed, Size, Arrived, Weaker, Forgets, BufferCount, Held, Losses, Reqs;
      var d := deferredPinned[i];
      ghost var ds, m := book.deferred, dev.mem;
      NoCost();
      WeakerRefl(want);
      Land();
      ArrivedStays(ds, m, dev.mem, want, want, i);
      ArrivedNext(ds, dev.mem, want, i, d);
      DeferredReady(Now(), i);
      HeldSettled(book.deferred, book.jobs, flushed, i);
      m := dev.mem;
      var ok;
      ok, cudaUsed := Issue(
        Copy(d.tensor, d.run.base, Slice(d.pin, 0, Size(d.run.list))), CpuPinned, d.tensorType, false,
        Reqs(d.run.list));
      ghost var v := Now();
      if !ok {
        FailRun(d.tensor, d.run);
        ForgetsWeaker(v, want);
      }
      ArrivedStays(ds, m, dev.mem, v.want, want, i);
      ArrivedNext(ds, dev.mem, want, i, d.(finalized := true));
      SettleKeeps(Now(), i);
      HeldSettled(book.deferred, book.jobs, flushed, i);
      book := book.(deferred := book.deferred[i := d.(finalized := true)]);
    }

    // Every second copy that was put off.
    method FinalizeDeferreds()
      requires Valid() && Steady() && Arrived(book.deferred, dev.mem, want, 0)
      requires dev.stream != [] ==> needSync || true in completions
      modifies dev, live, this`want, this`book, this`needSync
      ensures Valid() && Dimmed() && book == old(book).(deferred := book.deferred)
      ensures |book.deferred| == |deferredPinned| && forall j :: 0 <= j < |book.deferred| ==> book.deferred[j].finalized
      ensures dev.stream != [] ==> needSync || true in completions
      ensures deferredPinned == [] ==>
        needSync == old(needSync) && dev.stream == old(dev.stream) && dev.marked == old(dev.marked)
    {
      hide Balanced, JobsRun, FromHost, Eventual, Better, SameShape, Certain, PendingOk, Holds, Posts, QueueOk, Arrived,
           Held, Losses;
      NoCost();
      for i := 0 to |deferredPinned|
        invariant Valid() && Dimmed() && Arrived(book.deferred, dev.mem, want, i)
        invariant book == old(book).(deferred := book.deferred) && |book.deferred| == |deferredPinned|
        invariant forall j :: 0 <= j < i ==> book.deferred[j].finalized
        invariant forall j :: i <= j < |deferredPinned| ==> book.deferred[j] == deferredPinned[j]
        invariant dev.stream != [] ==> needSync || true in completions
        invariant i == 0 ==> needSync == old(needSync) && dev.stream == old(dev.stream) && dev.marked == old(dev.marked)
      {
        if !deferredPinned[i].finalized {
          ghost var seen := Seen();
          var c := FinalizeDeferred(i);
          DimmedThen(old(Seen()), seen, Seen(), flushed, dev.risky);
          assert dev.stream != [] ==> dev.stream[0] in dev.stream;
          needSync := needSync || c;
        } else {
          ArrivedNext(book.deferred, dev.mem, want, i, book.deferred[i]);
        }
      }
    }

    // Get: waits until the workers have put entry 'i' into the completion queue.
    method AwaitCompletion(i: nat) returns (ready: bool)
      requires Valid()
      modifies dev, live, this`want, this`workQueue, this`book, this`completions
      ensures Valid() && Dimmed() && JobsGoOn()
      ensures if ready then i < |completions| else |completions| <= i && AllIdle(workQueue)
    {
      hide Balanced, JobsRun, FromHost, Eventual, SameShape, Certain, SeenTo, JobShapes, WillComplete, Remaining,
           Posts, PendingOk;
      hide AsyncCopy.AddedTo, JobsOn, Held, Shared;
      Workers();
      JobsShape(workQueue);
      while |completions| <= i
        invariant Valid() && Dimmed() && JobsGoOn() && JobShapes(workQueue)
        decreases Remaining(workQueue)
      {
        ghost var before := workQueue;
        if j: nat, k: nat :|
          j < |workQueue| && k < |workQueue[j].proto.tasks| && AsyncCopy.Runnable(workQueue[j].proto, k) {
          RunTask(j, k);
          JobsOnTrans(old(workQueue), before, workQueue, |workQueue|);
        } else {
          return false;
        }
      }
      return true;
    }

    // One Get for every flush that was handed to the workers.
    method AwaitCompletions() returns (ready: bool)
      requires Valid() && asyncTaskCount == |workQueue| && Posts(workQueue) == |completions|
      requires QueueOk(workQueue, workers, dev.risky) && (dev.stream != [] ==> needSync || true in completions)
      modifies dev, live, this`want, this`workQueue, this`book, this`completions, this`needSync
      ensures Valid() && Dimmed() && book == old(book).(jobs := book.jobs)
      ensures ready <==> forall j :: 0 <= j < |old(workQueue)| ==> WillComplete(old(workQueue)[j])
      ensures ready && dev.stream != [] ==> needSync
      ensures ready ==> forall j :: 0 <= j < |book.jobs| ==> book.jobs[j].proto.posts == 1
      ensures asyncTaskCount == 0 ==>
        needSync == old(needSync) && dev.stream == old(dev.stream) && dev.marked == old(dev.marked)
    {
      hide Balanced, JobsRun, FromHost, Eventual, SameShape, Certain, PendingOk, Posts, QueueOk, JobsOn, SeenTo,
           WillComplete, Held, Losses;
      NoCost();
      JobsOnRefl(workQueue);
      for i := 0 to asyncTaskCount
        invariant Valid() && Dimmed() && book == old(book).(jobs := book.jobs)
        invariant asyncTaskCount == |workQueue| == |old(workQueue)| && Posts(workQueue) == |completions| >= i
        invariant QueueOk(workQueue, workers, dev.risky) && JobsOn(old(workQueue), workQueue, |workQueue|)
        invariant dev.stream != [] ==> needSync || true in completions[i..]
        invariant i == 0 ==> needSync == old(needSync) && dev.stream == old(dev.stream) && dev.marked == old(dev.marked)
      {
        ghost var before, seen := workQueue, Seen();
        var got := AwaitCompletion(i);
        DimmedThen(old(Seen()), seen, Seen(), flushed, dev.risky);
        JobsOnTrans(old(workQueue), before, workQueue, |workQueue|);
        QueueGoesOn(before, workQueue, |workQueue|, workers, dev.risky);
        if !got {
          IdlePosts(workQueue, workers, dev.risky);
          JobsOnComplete(old(workQueue), workQueue);
          return false;
        }
        needSync := needSync || completions[i];
      }
      JobsShape(workQueue);
      PostsBound(workQueue);
      AllPosted(workQueue);
      JobsOnComplete(old(workQueue), workQueue);
      return true;
    }

    // Done exactly when the completion of every flush handed to the workers will come. Then nobody owes
    // anything, and the caller is told of every copy still in flight: by the result, and by the event.
    method Finalize() returns (r: Outcome)
      requires Ready()
      modifies dev, live, this
      ensures Valid() && Dimmed() && flushed == old(flushed)
      ensures book == old(book).(deferred := book.deferred, jobs := book.jobs)
      ensures r.Done? <==> forall j :: 0 <= j < |old(workQueue)| ==> WillComplete(old(workQueue)[j])
      ensures r.Done? ==>
        Settled(book) && (!r.needSync ==> dev.stream == []) && (useEvent ==> dev.marked == |dev.stream|)
    {
      hide Balanced, JobsRun, FromHost, Eventual, SameShape, Certain, PendingOk, Posts, QueueOk, Arrived, WillComplete,
           Held, Losses;
      JobsShape(workQueue);
      PostsBound(workQueue);
      Synchronize();
      FinalizeDeferreds();
      ghost var seen := Seen();
      var ready := AwaitCompletions();
      DimmedThen(old(Seen()), seen, Seen(), flushed, dev.risky);
      if !ready {
        return Blocked;
      }
      if deferredPinned != [] && needSync && useEvent {
        dev.EventRecord();
      }
      return Done(needSync);
    }
  }
}
