// What becomes of the responses, and of the outputs that wait in pinned buffers until Finalize.

module Handouts {
  import opened Memory
  import opened Devices
  import opened ScatterBooks

  // The machine and the responder, as far as they do not change.
  datatype Setup = Setup(risky: set<nat>, roomy: bool, hostile: bool, pinnedEnabled: bool, copyOnStream: bool) {
    // CpuPinned says that no pinned buffer is needed for a tensor.
    function UsePinned(tensorType: MemoryType): MemoryType {
      if pinnedEnabled then GetUsePinnedMemoryType(tensorType) else CpuPinned
    }

    // The output goes through a pinned buffer, if there is room for one.
    predicate Staged(x: Slot) {
      UsePinned(x.from) != CpuPinned && x.memType == UsePinned(x.from)
    }

    // The copy out of the pinned buffer is put on the stream.
    predicate Async(x: Slot) {
      copyOnStream || x.memType.Gpu?
    }

    // That copy may be refused.
    predicate Refusable(x: Slot) {
      x.req in risky && x.memType.Gpu?
    }
  }

  // A response is lost only to a refusal of its own, unless the program has ended.
  ghost predicate Spared(was: Responses, now: Responses, risky: set<nat>) {
    && |now.live| == |was.live|
    && (forall k :: 0 <= k < |now.live| && now.live[k] ==> was.live[k])
    && (forall k :: 0 <= k < |now.live| && was.live[k] ==> now.live[k] || k in risky || now.crashed)
    && (was.crashed ==> now.crashed)
  }

  lemma {:induction false} SparedRefl(a: Responses, risky: set<nat>)
    ensures Spared(a, a, risky)
  {}

  lemma {:induction false} SparedTrans(a: Responses, b: Responses, c: Responses, risky: set<nat>)
    requires Spared(a, b, risky) && Spared(b, c, risky)
    ensures Spared(a, c, risky)
  {}

  lemma {:induction false} SparedOne(a: Responses, b: Responses, k: nat, risky: set<nat>)
    requires b.live == a.live || (k in risky && k < |a.live| && b.live == a.live[k := false])
    requires b.crashed == a.crashed
    ensures Spared(a, b, risky)
  {}

  // ---------------------------------------------------------------------------
  // Handing out

  // The response of one of these outputs has been sent.
  ghost predicate AnyGone(list: seq<Slot>, live: seq<bool>) {
    exists x :: x in list && x.req < |live| && !live[x.req]
  }

  // A copy for one output may be refused, and a later output is of the same response.
  ghost predicate Repeats(list: seq<Slot>, u: Setup) {
    exists i, j :: 0 <= i < j < |list| && u.Refusable(list[i]) && list[j].req == list[i].req
  }

  // These outputs have been copied out of pinned buffers, one after the other. A response is lost only to a refused
  // copy of its own; one that is gone when its turn comes is used all the same, and that ends the program.
  ghost predicate Given(was: Responses, now: Responses, list: seq<Slot>, u: Setup) {
    && |now.live| == |was.live|
    && (forall k :: 0 <= k < |now.live| && now.live[k] ==> was.live[k])
    && (forall k :: 0 <= k < |now.live| && was.live[k] && !now.live[k] ==>
         exists x :: x in list && x.req == k && u.Refusable(x))
    && (forall x :: x in list ==> x.req < |now.live| && (u.hostile && u.Refusable(x) ==> !now.live[x.req]))
    && (was.crashed || AnyGone(list, was.live) || (u.hostile && Repeats(list, u)) ==> now.crashed)
    && (now.crashed ==> was.crashed || AnyGone(list, was.live) || Repeats(list, u))
  }

  lemma {:induction false} GivenNothing(a: Responses, u: Setup)
    ensures Given(a, a, [], u)
  {}

  lemma {:induction false} GivenOne(was: Responses, now: Responses, x: Slot, u: Setup)
    requires x.req < |was.live| && now.crashed == (was.crashed || !was.live[x.req])
    requires now.live == was.live || (u.Refusable(x) && now.live == was.live[x.req := false])
    requires u.hostile && u.Refusable(x) ==> !now.live[x.req]
    ensures Given(was, now, [x], u)
  {
    assert x in [x];
  }

  lemma {:induction false} RepeatsJoin(a: seq<Slot>, b: seq<Slot>, u: Setup)
    ensures Repeats(a + b, u) <==>
      Repeats(a, u) || Repeats(b, u)
      || exists x, y :: x in a && y in b && u.Refusable(x) && y.req == x.req
  {
    hide Setup.Refusable;
    var all, n := a + b, |a|;
    if Repeats(all, u) {
      var i, j :| 0 <= i < j < |all| && u.Refusable(all[i]) && all[j].req == all[i].req;
      if i < n <= j {
        assert a[i] in a && b[j - n] in b;
      } else if n <= i {
        assert u.Refusable(b[i - n]) && b[j - n].req == b[i - n].req;
      } else {
        assert u.Refusable(a[i]) && a[j].req == a[i].req;
      }
    }
    RepeatsPart(a, b, u);
  }

  lemma {:induction false} RepeatsPart(a: seq<Slot>, b: seq<Slot>, u: Setup)
    ensures Repeats(a, u) || Repeats(b, u) ==> Repeats(a + b, u)
    ensures (exists x, y :: x in a && y in b && u.Refusable(x) && y.req == x.req) ==> Repeats(a + b, u)
  {
    hide Setup.Refusable;
    var all, n := a + b, |a|;
    if Repeats(a, u) {
      var i, j :| 0 <= i < j < n && u.Refusable(a[i]) && a[j].req == a[i].req;
      assert u.Refusable(all[i]) && all[j].req == all[i].req;
    }
    if Repeats(b, u) {
      var i, j :| 0 <= i < j < |b| && u.Refusable(b[i]) && b[j].req == b[i].req;
      assert u.Refusable(all[n + i]) && all[n + j].req == all[n + i].req;
    }
    if x, y :| x in a && y in b && u.Refusable(x) && y.req == x.req {
      var i :| 0 <= i < n && a[i] == x;
      var j :| 0 <= j < |b| && b[j] == y;
      assert all[i] == x && all[n + j] == y;
    }
  }

  lemma {:induction false} GoneJoin(l: seq<Slot>, m: seq<Slot>, live: seq<bool>)
    ensures AnyGone(l + m, live) <==> AnyGone(l, live) || AnyGone(m, live)
  {
    forall x ensures x in l + m <==> x in l || x in m {}
  }

  lemma {:induction false} GoneWhich(list: seq<Slot>, live: seq<bool>) returns (x: Slot)
    requires AnyGone(list, live)
    ensures x in list && x.req < |live| && !live[x.req]
  {
    x :| x in list && x.req < |live| && !live[x.req];
  }

  lemma {:induction false} GoneAt(list: seq<Slot>, live: seq<bool>, x: Slot)
    requires x in list && x.req < |live| && !live[x.req]
    ensures AnyGone(list, live)
  {}

  // A response that has gone meanwhile was refused a copy.
  lemma {:induction false} GoneBetween(a: Responses, b: Responses, l: seq<Slot>, m: seq<Slot>, u: Setup)
    requires Given(a, b, l, u) && AnyGone(m, b.live) && !AnyGone(m, a.live)
    ensures exists x, y :: x in l && y in m && u.Refusable(x) && y.req == x.req
  {
    var y :| y in m && y.req < |b.live| && !b.live[y.req];
    var x :| x in l && x.req == y.req && u.Refusable(x);
  }

  lemma {:induction false} GivenJoin(a: Responses, b: Responses, c: Responses, l: seq<Slot>, m: seq<Slot>, u: Setup)
    requires Given(a, b, l, u) && Given(b, c, m, u)
    ensures Given(a, c, l + m, u)
  {
    hide Repeats, Setup.Refusable, AnyGone;
    RepeatsJoin(l, m, u);
    GoneJoin(l, m, a.live);
    if AnyGone(m, b.live) && !AnyGone(m, a.live) { GoneBetween(a, b, l, m, u); }
    if AnyGone(m, a.live) {
      var y := GoneWhich(m, a.live);
      GoneAt(m, b.live, y);
    }
    if u.hostile {
      forall x, y | x in l && y in m && u.Refusable(x) && y.req == x.req ensures AnyGone(m, b.live) {
        GoneAt(m, b.live, y);
      }
    }
    forall k | 0 <= k < |c.live| && a.live[k] && !c.live[k]
      ensures exists x :: x in l + m && x.req == k && u.Refusable(x)
    {
      if b.live[k] {
        var x :| x in m && x.req == k && u.Refusable(x);
        assert x in l + m;
      } else {
        var x :| x in l && x.req == k && u.Refusable(x);
        assert x in l + m;
      }
    }
  }

  // All outputs that wait, in order.
  function Flat(ds: seq<Deferred>): seq<Slot> {
    if ds == [] then [] else Flat(ds[..|ds| - 1]) + ds[|ds| - 1].run.list
  }

  lemma {:induction false} FlatHas(ds: seq<Deferred>, x: Slot)
    ensures x in Flat(ds) <==> exists i :: 0 <= i < |ds| && x in ds[i].run.list
  {
    if ds != [] {
      var n := |ds| - 1;
      FlatHas(ds[..n], x);
      if i :| 0 <= i < |ds| && x in ds[i].run.list {
        if i < n { assert ds[..n][i] == ds[i]; }
      }
    }
  }

  lemma {:induction false} FlatMore(ds: seq<Deferred>, i: nat)
    requires i < |ds|
    ensures Flat(ds[..i + 1]) == Flat(ds[..i]) + ds[i].run.list
  {
    assert ds[..i + 1][..i] == ds[..i];
  }

  // ---------------------------------------------------------------------------
  // The copies in flight while handing out

  ghost predicate InFlight(ds: seq<Deferred>, n: nat, stream: seq<Copy>, u: Setup)
    requires n <= |ds|
  {
    && (forall c :: c in stream ==> exists i :: 0 <= i < n && FromRun(ds[i], |ds[i].run.list|, c, u))
    && (u.hostile ==> forall i :: 0 <= i < n ==> Underway(ds[i], |ds[i].run.list|, stream, u))
  }

  // The copy brings one of the first 'k' entries of the run.
  ghost predicate FromRun(d: Deferred, k: nat, c: Copy, u: Setup)
    requires k <= |d.run.list|
  {
    exists a :: 0 <= a < k && c == HandCopy(d, a) && u.Async(d.run.list[a])
  }

  // The copies of its first 'k' entries that were not refused are in flight.
  ghost predicate Underway(d: Deferred, k: nat, stream: seq<Copy>, u: Setup)
    requires k <= |d.run.list|
  {
    forall a :: 0 <= a < k && u.Async(d.run.list[a]) && !u.Refusable(d.run.list[a]) ==> HandCopy(d, a) in stream
  }

  // From 'old' to 'stream', the first 'k' entries of the run have been handed out.
  ghost predicate PutOn(d: Deferred, k: nat, old': seq<Copy>, stream: seq<Copy>, u: Setup)
    requires k <= |d.run.list|
  {
    && (forall c :: c in stream ==> c in old' || FromRun(d, k, c, u))
    && (u.hostile ==> (forall c :: c in old' ==> c in stream) && Underway(d, k, stream, u))
  }

  lemma {:induction false} PutOnNone(d: Deferred, stream: seq<Copy>, u: Setup)
    ensures PutOn(d, 0, stream, stream, u)
  {}

  lemma {:induction false} PutOnNext(d: Deferred, k: nat, a: seq<Copy>, b: seq<Copy>, c: seq<Copy>, u: Setup)
    requires k < |d.run.list| && PutOn(d, k, a, b, u)
    requires forall x :: x in c ==> x in b || (x == HandCopy(d, k) && u.Async(d.run.list[k]))
    requires u.hostile ==> forall x :: x in b ==> x in c
    requires u.hostile && u.Async(d.run.list[k]) && !u.Refusable(d.run.list[k]) ==> HandCopy(d, k) in c
    ensures PutOn(d, k + 1, a, c, u)
  {
    hide Setup.Async, Setup.Refusable;
    forall x | x in c ensures x in a || FromRun(d, k + 1, x, u) {
      if x in b && x !in a {
        assert FromRun(d, k, x, u);
        var i :| 0 <= i < k && x == HandCopy(d, i) && u.Async(d.run.list[i]);
      }
    }
  }

  lemma {:induction false} InFlightNext(ds: seq<Deferred>, n: nat, a: seq<Copy>, b: seq<Copy>, u: Setup)
    requires n < |ds| && InFlight(ds, n, a, u) && PutOn(ds[n], |ds[n].run.list|, a, b, u)
    ensures InFlight(ds, n + 1, b, u)
  {
    hide FromRun, Setup.Async, Setup.Refusable;
  }

  lemma {:induction false} InFlightNone(ds: seq<Deferred>, u: Setup)
    ensures InFlight(ds, 0, [], u)
  {}

  // No two of them go to the same buffer.
  lemma {:induction false} InFlightApart(b: Book, ds: seq<Deferred>, stream: seq<Copy>, u: Setup)
    requires InFlight(ds, |ds|, stream, u)
    requires forall i :: 0 <= i < |ds| ==> LineOk(b, ds[i])
    requires forall i, j :: 0 <= i < j < |ds| ==> Follows(ds[i], ds[j])
    ensures Handing(b, stream)
  {
    hide InFlight, Follows;
    forall c | c in stream ensures Fills(b, c) {
      var i, a := Origin(ds, stream, u, c);
      assert LineOk(b, ds[i]) && ds[i].run.list[a] in ds[i].run.list;
    }
    forall c, c' | c in stream && c' in stream && c.dst == c'.dst ensures c == c' {
      var i, a := Origin(ds, stream, u, c);
      var j, e := Origin(ds, stream, u, c');
      OneOrigin(b, ds, i, a, j, e);
    }
  }

  lemma {:induction false} OneOrigin(b: Book, ds: seq<Deferred>, i: nat, a: nat, j: nat, e: nat)
    requires i < |ds| && a < |ds[i].run.list| && j < |ds| && e < |ds[j].run.list|
    requires forall i :: 0 <= i < |ds| ==> LineOk(b, ds[i])
    requires forall i, j :: 0 <= i < j < |ds| ==> Follows(ds[i], ds[j])
    requires ds[i].run.list[a].block == ds[j].run.list[e].block
    ensures i == j && a == e
  {
    var x, y := ds[i].run.list[a], ds[j].run.list[e];
    assert x in ds[i].run.list && y in ds[j].run.list;
    if i == j { assert LineOk(b, ds[i]); }
  }

  lemma {:induction false} Origin(ds: seq<Deferred>, stream: seq<Copy>, u: Setup, c: Copy) returns (i: nat, a: nat)
    requires InFlight(ds, |ds|, stream, u) && c in stream
    ensures i < |ds| && a < |ds[i].run.list| && c == HandCopy(ds[i], a) && u.Async(ds[i].run.list[a])
  {
    i :| i < |ds| && FromRun(ds[i], |ds[i].run.list|, c, u);
    a :| a < |ds[i].run.list| && c == HandCopy(ds[i], a) && u.Async(ds[i].run.list[a]);
  }

  // ---------------------------------------------------------------------------
  // Between two tensors

  // How often each response has been given an output, or been refused one.
  ghost predicate UsesOk(os: seq<Slot>, uses: seq<nat>) {
    && (forall j :: 0 <= j < |os| ==> os[j].req < |uses| && uses[os[j].req] >= 1)
    && (forall i, j :: 0 <= i < j < |os| && os[i].req == os[j].req ==> uses[os[i].req] >= 2)
  }

  // Something may be refused for an output that is staged: the copy of its run, if the tensor is in device memory, or
  // a copy for another output of the response, while it waits.
  ghost predicate Blamed(os: seq<Slot>, uses: seq<nat>, u: Setup) {
    exists x :: x in os && x.req in u.risky && u.Staged(x)
      && (x.from.Gpu? || (u.copyOnStream && x.req < |uses| && uses[x.req] >= 2))
  }

  // An output may wait, and its response is lost only if it has another output.
  ghost predicate Waits(x: Slot, uses: seq<nat>, r: Responses, u: Setup) {
    && u.Staged(x) && (x.from.Gpu? || u.copyOnStream) && x.req < |r.live| && x.req < |uses|
    && (r.crashed || r.live[x.req] || (x.req in u.risky && uses[x.req] >= 2))
  }

  // What is known of the outputs: which wait, and what the program can have ended for.
  ghost predicate Tracked(b: Book, uses: seq<nat>, r: Responses, u: Setup) {
    && Lines(b) && UsesOk(b.slots, uses) && |uses| == |r.live|
    && (forall d, x :: d in b.deferred && x in d.run.list ==> Waits(x, uses, r, u))
    && (r.crashed ==> Blamed(b.slots, uses, u))
    && (u.roomy && !r.crashed ==>
         && (u.copyOnStream ==> forall x :: x in b.slots && u.Staged(x) ==> Owed(b, x))
         && (u.hostile ==>
              forall x :: x in b.slots && u.Staged(x) && x.from.Gpu? && x.req in u.risky ==> x in b.pending.list))
  }

  // The pending run, while the tensor in memory 'from' is cut up, before request 'n'.
  ghost predicate Queued(list: seq<Slot>, from: MemoryType, n: nat, live: seq<bool>, u: Setup) {
    && (forall i :: 0 <= i < |list| ==>
         u.Staged(list[i]) && list[i].from == from && list[i].req < n && list[i].req < |live| && live[list[i].req])
    && (forall i, j :: 0 <= i < j < |list| ==> list[i].req < list[j].req)
  }

  // With nothing pending or in hand, the run may be of any tensor.
  lemma {:induction false} TrackedAim(b: Book, b': Book, uses: seq<nat>, r: Responses, u: Setup)
    requires Tracked(b, uses, r, u) && b.pending.list == [] && b' == b.(pending := b'.pending) && b'.pending.list == []
    ensures Tracked(b', uses, r, u)
  {
    hide Setup.Staged;
    forall i | 0 <= i < |b'.deferred| ensures LineOk(b', b'.deferred[i]) { assert LineOk(b, b.deferred[i]); }
    forall x | Owed(b, x) ensures Owed(b', x) {}
  }

  // More is allocated.
  lemma {:induction false} SameLine(b: Book, b': Book, d: Deferred)
    requires LineOk(b, d) && RunOk(b, d.run) && b'.before == b.before && b'.slots == b.slots && b'.pins == b.pins
    requires b'.pending == b.pending && b'.hand == b.hand
    ensures LineOk(b', d) && RunOk(b', d.run)
  {
    SameRun(b, b', d.run);
  }

  lemma {:induction false} TrackedPins(b: Book, b': Book, uses: seq<nat>, r: Responses, u: Setup)
    requires Tracked(b, uses, r, u) && b' == b.(pins := b'.pins) && b.pins <= b'.pins
    ensures Tracked(b', uses, r, u)
  {
    hide Setup.Staged;
    forall i | 0 <= i < |b'.deferred| ensures LineOk(b', b'.deferred[i]) { assert LineOk(b, b.deferred[i]); }
    forall x | Owed(b, x) ensures Owed(b', x) {}
  }

  // Request 'k' has its turn.
  function Used(uses: seq<nat>, k: nat): (r: seq<nat>)
    ensures |r| == |uses|
  {
    if k < |uses| then uses[k := uses[k] + 1] else uses
  }

  lemma {:induction false} UsedOk(os: seq<Slot>, uses: seq<nat>, k: nat)
    requires UsesOk(os, uses)
    ensures UsesOk(os, Used(uses, k))
    ensures k < |uses| && (exists x :: x in os && x.req == k) ==> Used(uses, k)[k] >= 2
  {
    if k < |uses| && exists x :: x in os && x.req == k {
      var x :| x in os && x.req == k;
      var j :| 0 <= j < |os| && os[j] == x;
    }
  }

  // It is refused its buffer, or, with buffer 's', the copy into it.
  lemma {:induction false} WaitsUsed(b: Book, uses: seq<nat>, r: Responses, r': Responses, u: Setup, k: nat)
    requires Lines(b) && UsesOk(b.slots, uses) && k < |uses| == |r.live| && r'.crashed == r.crashed
    requires forall d, x :: d in b.deferred && x in d.run.list ==> Waits(x, uses, r, u)
    requires r'.live == r.live || (k in u.risky && r'.live == r.live[k := false])
    ensures forall d, x :: d in b.deferred && x in d.run.list ==> Waits(x, Used(uses, k), r', u)
  {
    hide Setup.Staged;
    UsedOk(b.slots, uses, k);
    forall d, x | d in b.deferred && x in d.run.list ensures Waits(x, Used(uses, k), r', u) {
      assert Waits(x, uses, r, u);
      var i :| 0 <= i < |b.deferred| && b.deferred[i] == d;
      assert LineOk(b, b.deferred[i]);
    }
  }

  lemma {:induction false} BlamedMore(os: seq<Slot>, os': seq<Slot>, uses: seq<nat>, uses': seq<nat>, u: Setup)
    requires Blamed(os, uses, u) && |uses'| == |uses| && forall k :: 0 <= k < |uses| ==> uses[k] <= uses'[k]
    requires forall x :: x in os ==> x in os'
    ensures Blamed(os', uses', u)
  {}

  lemma {:induction false} TrackedRefused(b: Book, uses: seq<nat>, r: Responses, r': Responses, u: Setup, k: nat)
    requires Tracked(b, uses, r, u) && k < |uses| && r'.crashed == r.crashed
    requires k in u.risky && r'.live == r.live[k := false]
    ensures Tracked(b, Used(uses, k), r', u)
  {
    hide Setup.Staged, Blamed, Waits;
    UsedOk(b.slots, uses, k);
    WaitsUsed(b, uses, r, r', u, k);
    if r.crashed { BlamedMore(b.slots, b.slots, uses, Used(uses, k), u); }
  }

  lemma {:induction false} UsesNext(os: seq<Slot>, uses: seq<nat>, s: Slot)
    requires UsesOk(os, uses) && s.req < |uses|
    ensures UsesOk(os + [s], Used(uses, s.req))
  {
    var all, more := os + [s], Used(uses, s.req);
    UsedOk(os, uses, s.req);
    forall i, j | 0 <= i < j < |all| && all[i].req == all[j].req ensures more[all[i].req] >= 2 {
      if j == |os| { assert os[i] in os; }
    }
  }

  lemma {:induction false} LinesNext(b: Book, b': Book, s: Slot, queued: bool)
    requires Lines(b) && b.hand == [] && forall x :: x in b.slots ==> x.block < s.block
    requires forall x :: x in b.pending.list ==> x in b.slots
    requires b'.slots == b.slots + [s] && b'.hand == [] && b'.deferred == b.deferred && b'.pins == b.pins
    requires b'.pending.list == if queued then b.pending.list + [s] else b.pending.list
    ensures Lines(b')
  {
    forall i | 0 <= i < |b'.deferred| ensures LineOk(b', b'.deferred[i]) { assert LineOk(b, b.deferred[i]); }
    forall i, j | 0 <= i < j < |b'.deferred| ensures Follows(b'.deferred[i], b'.deferred[j]) {
      assert Follows(b.deferred[i], b.deferred[j]);
    }
    forall j | 0 <= j < |b.pending.list| ensures b.pending.list[j].block < s.block {
      assert b.pending.list[j] in b.slots;
    }
  }

  // The response has got a buffer; the output is queued, or has been copied, or been refused its copy.
  lemma {:induction false} TrackedTaken(b: Book, b': Book, uses: seq<nat>, r: Responses, r': Responses, u: Setup,
      s: Slot)
    requires Tracked(b, uses, r, u) && b.hand == [] && s.req < |uses| && r'.crashed == r.crashed
    requires forall x :: x in b.slots ==> x.block < s.block
    requires forall x :: x in b.pending.list ==> x in b.slots
    requires b'.slots == b.slots + [s] && b'.hand == [] && b'.deferred == b.deferred && b'.pins == b.pins
    requires b'.pending.list == if u.Staged(s) then b.pending.list + [s] else b.pending.list
    requires r'.live == r.live || (s.req in u.risky && r'.live == r.live[s.req := false])
    ensures Tracked(b', Used(uses, s.req), r', u)
  {
    hide Setup.Staged, Blamed, Waits, Lines, UsesOk;
    LinesNext(b, b', s, u.Staged(s));
    UsesNext(b.slots, uses, s);
    WaitsUsed(b, uses, r, r', u, s.req);
    if r.crashed { BlamedMore(b.slots, b'.slots, uses, Used(uses, s.req), u); }
    forall x | Owed(b, x) ensures Owed(b', x) {}
  }

  // The pending run is done with, whatever has become of it: copied, or failed with its block copy.
  ghost predicate Closed(b: Book, uses: seq<nat>, r: Responses, r': Responses, u: Setup) {
    && |r'.live| == |r.live| && (forall k :: 0 <= k < |r.live| && r'.live[k] ==> r.live[k])
    && (r.crashed ==> r'.crashed) && (r'.crashed && !r.crashed ==> Blamed(b.slots, uses, u))
    && (forall k :: 0 <= k < |r.live| && r.live[k] && !r'.live[k] && !r'.crashed ==>
         k in u.risky && exists x :: x in b.pending.list && x.req == k)
    && (u.roomy && !r'.crashed && b.pending.list != [] ==> !u.copyOnStream)
    && (u.roomy && u.hostile && !r'.crashed ==>
         forall x :: x in b.pending.list ==> !(x.from.Gpu? && x.req in u.risky))
  }

  lemma {:induction false} QueuedAt(list: seq<Slot>, from: MemoryType, n: nat, live: seq<bool>, u: Setup, x: Slot)
    requires Queued(list, from, n, live, u) && x in list
    ensures u.Staged(x) && x.from == from && x.req < n && x.req < |live| && live[x.req]
  {
    var i :| 0 <= i < |list| && list[i] == x;
  }

  lemma {:induction false} QueuedLater(list: seq<Slot>, from: MemoryType, n: nat, live: seq<bool>, u: Setup)
    requires Queued(list, from, n, live, u)
    ensures Queued(list, from, n + 1, live, u)
  {
    hide Setup.Staged;
  }

  lemma {:induction false} QueuedNone(from: MemoryType, n: nat, live: seq<bool>, u: Setup)
    ensures Queued([], from, n, live, u)
  {}

  // The output of request 'n' joins the run, or does not.
  lemma {:induction false} QueuedNext(list: seq<Slot>, from: MemoryType, n: nat, live: seq<bool>, live': seq<bool>,
      u: Setup, s: Slot)
    requires Queued(list, from, n, live, u) && |live'| == |live| && s.req == n < |live| && s.from == from
    requires live' == live || live' == live[n := false]
    ensures Queued(list, from, n + 1, live', u)
    ensures u.Staged(s) && live' == live && live[n] ==> Queued(list + [s], from, n + 1, live', u)
  {
    hide Setup.Staged;
  }

  lemma {:induction false} ClosedSpares(b: Book, uses: seq<nat>, r: Responses, r': Responses, u: Setup)
    requires Closed(b, uses, r, r', u)
    ensures Spared(r, r', u.risky)
  {}

  lemma {:induction false} ClosedDirect(b: Book, uses: seq<nat>, r: Responses, r': Responses, u: Setup)
    requires !u.roomy && |r'.live| == |r.live| && r'.crashed == r.crashed
    requires forall k :: 0 <= k < |r.live| && r'.live[k] ==> r.live[k]
    requires forall k :: 0 <= k < |r.live| && r.live[k] && !r'.live[k] ==>
      k in u.risky && exists x :: x in b.pending.list && x.req == k
    ensures Closed(b, uses, r, r', u)
  {}

  lemma {:induction false} ClosedGiven(b: Book, uses: seq<nat>, r: Responses, r': Responses, u: Setup,
      from: MemoryType, n: nat)
    requires Queued(b.pending.list, from, n, r.live, u) && !from.Gpu? && !u.copyOnStream
    requires Given(r, r', b.pending.list, u)
    ensures Closed(b, uses, r, r', u)
  {
    hide Setup.Staged;
    forall x | x in b.pending.list ensures x.from == from && x.req < |r.live| && r.live[x.req] {
      QueuedAt(b.pending.list, from, n, r.live, u, x);
    }
  }

  lemma {:induction false} ClosedFailed(b: Book, uses: seq<nat>, r: Responses, r': Responses, u: Setup,
      from: MemoryType, n: nat, k: nat)
    requires Queued(b.pending.list, from, n, r.live, u) && from.Gpu?
    requires |r'.live| == |r.live| && (r.crashed ==> r'.crashed)
    requires forall k :: 0 <= k < |r.live| && r'.live[k] ==> r.live[k]
    requires if b.pending.list == [] then r' == r
             else r'.crashed && k in u.risky && exists x :: x in b.pending.list && x.req == k
    requires forall x :: x in b.pending.list ==> x in b.slots
    ensures Closed(b, uses, r, r', u)
  {
    hide Setup.Staged;
    if b.pending.list != [] {
      var x :| x in b.pending.list && x.req == k;
      QueuedAt(b.pending.list, from, n, r.live, u, x);
    }
  }

  lemma {:induction false} TrackedClosed(b: Book, b': Book, uses: seq<nat>, r: Responses, r': Responses, u: Setup)
    requires Tracked(b, uses, r, u) && b' == b.(pending := b'.pending) && b'.pending.list == []
    requires Closed(b, uses, r, r', u) && forall x :: x in b.pending.list ==> x in b.slots
    ensures Tracked(b', uses, r', u)
  {
    hide Setup.Staged, Blamed;
    forall i | 0 <= i < |b'.deferred| ensures LineOk(b', b'.deferred[i]) { assert LineOk(b, b.deferred[i]); }
    forall d, x | d in b'.deferred && x in d.run.list ensures Waits(x, uses, r', u) {
      assert Waits(x, uses, r, u);
      if r.live[x.req] && !r'.live[x.req] && !r'.crashed {
        var y :| y in b.pending.list && y.req == x.req;
        WaitingTwice(b, uses, d, x, y);
      }
    }
    if u.roomy && u.copyOnStream && !r'.crashed {
      forall x | x in b'.slots && u.Staged(x) ensures Owed(b', x) { assert Owed(b, x); }
    }
  }

  // An output that waits and one that is pending are two.
  lemma {:induction false} WaitingTwice(b: Book, uses: seq<nat>, d: Deferred, x: Slot, y: Slot)
    requires Lines(b) && UsesOk(b.slots, uses) && d in b.deferred && x in d.run.list && y in b.pending.list
    requires y in b.slots && x.req == y.req
    ensures x.req < |uses| && uses[x.req] >= 2
  {
    var i :| 0 <= i < |b.deferred| && b.deferred[i] == d;
    assert LineOk(b, b.deferred[i]);
    assert x.block < y.block;
    TwoUses(b.slots, uses, x, y);
  }

  lemma {:induction false} TwoUses(os: seq<Slot>, uses: seq<nat>, x: Slot, y: Slot)
    requires UsesOk(os, uses) && x in os && y in os && x != y && x.req == y.req
    ensures x.req < |uses| && uses[x.req] >= 2
  {
    var i :| 0 <= i < |os| && os[i] == x;
    var j :| 0 <= j < |os| && os[j] == y;
    if i < j { assert os[i].req == os[j].req; } else { assert os[j].req == os[i].req; }
  }

  // The pending run waits.
  lemma {:induction false} TrackedDeferred(b: Book, b': Book, uses: seq<nat>, r: Responses, u: Setup, d: Deferred,
      n: nat, from: MemoryType)
    requires Tracked(b, uses, r, u) && b.hand == [] && d.run.list == b.pending.list && d.pin in b.pins
    requires b' == b.(pending := b'.pending, deferred := b.deferred + [d]) && b'.pending.list == []
    requires Queued(b.pending.list, from, n, r.live, u) && (from.Gpu? || u.copyOnStream)
    requires forall x :: x in b.pending.list ==> x in b.slots
    requires forall i :: 0 <= i < |b.deferred| ==> b.deferred[i].pin < d.pin
    requires u.hostile && from.Gpu? ==> forall x :: x in b.pending.list ==> x.req !in u.risky
    ensures Tracked(b', uses, r, u)
  {
    hide Setup.Staged, Blamed, Lines, LineOk, Follows;
    LinesDeferred(b, b', d);
    forall e, x | e in b'.deferred && x in e.run.list ensures Waits(x, uses, r, u) {
      if e == d {
        var j :| 0 <= j < |d.run.list| && d.run.list[j] == x;
        var i :| 0 <= i < |b.slots| && b.slots[i] == x;
      }
    }
    if u.roomy && u.copyOnStream && !r.crashed {
      forall x | x in b'.slots && u.Staged(x) ensures Owed(b', x) { DeferredOwed(b, b', d, x); }
    }
    if u.roomy && u.hostile && !r.crashed {
      forall x | x in b.pending.list ensures !(x.from.Gpu? && x.req in u.risky) {
        var j :| 0 <= j < |b.pending.list| && b.pending.list[j] == x;
      }
    }
  }

  lemma {:induction false} LinesDeferred(b: Book, b': Book, d: Deferred)
    requires Lines(b) && b.hand == [] && d.run.list == b.pending.list && d.pin in b.pins
    requires b' == b.(pending := b'.pending, deferred := b.deferred + [d]) && b'.pending.list == []
    requires forall x :: x in b.pending.list ==> x in b.slots
    requires forall i :: 0 <= i < |b.deferred| ==> b.deferred[i].pin < d.pin
    ensures Lines(b')
  {
    forall i | 0 <= i < |b'.deferred| ensures LineOk(b', b'.deferred[i]) {
      if i < |b.deferred| { assert LineOk(b, b.deferred[i]); }
    }
    forall i, j | 0 <= i < j < |b'.deferred| ensures Follows(b'.deferred[i], b'.deferred[j]) {
      if j < |b.deferred| { assert Follows(b.deferred[i], b.deferred[j]); } else { assert LineOk(b, b.deferred[i]); }
    }
  }

  lemma {:induction false} DeferredOwed(b: Book, b': Book, d: Deferred, x: Slot)
    requires Owed(b, x) && b'.hand == b.hand && d.run.list == b.pending.list && b'.deferred == b.deferred + [d]
    ensures Owed(b', x)
  {
    if x in b.pending.list {
      assert b'.deferred[|b.deferred|] == d;
    } else if x !in b.hand {
      var j :| 0 <= j < |b.deferred| && x in b.deferred[j].run.list;
      assert b'.deferred[j] == b.deferred[j];
    }
  }

  // ---------------------------------------------------------------------------
  // What the end of the program can be put down to

  // A response that is gone, or repeats, among the outputs that wait.
  lemma {:induction false} WaitingBlamed(b: Book, uses: seq<nat>, r: Responses, u: Setup)
    requires Tracked(b, uses, r, u) && (AnyGone(Flat(b.deferred), r.live) || Repeats(Flat(b.deferred), u))
    ensures Blamed(b.slots, uses, u)
  {
    hide Setup.Staged;
    var all := Flat(b.deferred);
    if !r.crashed && AnyGone(all, r.live) {
      var x :| x in all && x.req < |r.live| && !r.live[x.req];
      var d := WaitsIn(b, uses, r, u, x);
    } else if !r.crashed {
      var i, j :| 0 <= i < j < |all| && u.Refusable(all[i]) && all[j].req == all[i].req;
      FlatSorted(b, |b.deferred|);
      var d := WaitsIn(b, uses, r, u, all[i]);
      var e := WaitsIn(b, uses, r, u, all[j]);
      TwoUses(b.slots, uses, all[i], all[j]);
    }
  }

  lemma {:induction false} EndBlamed(b: Book, uses: seq<nat>, r: Responses, r': Responses, u: Setup)
    requires Tracked(b, uses, r, u) && Given(r, r', Flat(b.deferred), u)
    ensures r'.crashed ==> Blamed(b.slots, uses, u)
    ensures Spared(r, r', u.risky)
  {
    hide Blamed, Setup.Staged, Repeats, AnyGone;
    if r'.crashed && !r.crashed { WaitingBlamed(b, uses, r, u); }
  }

  // Without copyOnStream, outputs only wait on their way from the device to the host.
  lemma {:induction false} AsyncWaits(b: Book, uses: seq<nat>, r: Responses, u: Setup, x: Slot)
    requires Tracked(b, uses, r, u) && x in Flat(b.deferred) && u.Async(x)
    ensures u.copyOnStream && u.Staged(x)
  {
    hide Blamed;
    var d := WaitsIn(b, uses, r, u, x);
  }

  lemma {:induction false} WaitsIn(b: Book, uses: seq<nat>, r: Responses, u: Setup, x: Slot) returns (d: Deferred)
    requires Tracked(b, uses, r, u) && x in Flat(b.deferred)
    ensures d in b.deferred && x in d.run.list && x in b.slots && Waits(x, uses, r, u)
  {
    FlatHas(b.deferred, x);
    var i :| 0 <= i < |b.deferred| && x in b.deferred[i].run.list;
    d := b.deferred[i];
    assert LineOk(b, b.deferred[i]);
  }

  lemma {:induction false} FlatSorted(b: Book, n: nat)
    requires Lines(b) && n <= |b.deferred|
    ensures Sorted(Flat(b.deferred[..n]))
    ensures n == |b.deferred| ==> Sorted(Flat(b.deferred))
  {
    if n > 0 {
      FlatSorted(b, n - 1);
      FlatMore(b.deferred, n - 1);
      var l, m := Flat(b.deferred[..n - 1]), b.deferred[n - 1].run.list;
      assert LineOk(b, b.deferred[n - 1]);
      forall x, y | x in l && y in m ensures x.block < y.block {
        FlatHas(b.deferred[..n - 1], x);
        var i :| 0 <= i < n - 1 && x in b.deferred[..n - 1][i].run.list;
        assert Follows(b.deferred[i], b.deferred[n - 1]);
      }
      SortedJoin(l, m);
    }
    assert b.deferred[..|b.deferred|] == b.deferred;
  }

  lemma {:induction false} SortedJoin(l: seq<Slot>, m: seq<Slot>)
    requires Sorted(l) && Sorted(m) && Below(l, m)
    ensures Sorted(l + m)
  {
    forall i, j | 0 <= i < j < |l + m| ensures (l + m)[i].block < (l + m)[j].block {
      if i < |l| <= j { assert l[i] in l && m[j - |l|] in m; }
    }
  }

  // Two outputs that wait, in the order of their buffers.
  lemma {:induction false} TwoWaiting(b: Book, u: Setup, x: Slot, y: Slot)
    requires Lines(b) && x in Flat(b.deferred) && y in Flat(b.deferred) && x.block < y.block
    requires u.Refusable(x) && x.req == y.req
    ensures Repeats(Flat(b.deferred), u)
  {
    hide Lines, Flat, Setup.Refusable;
    FlatSorted(b, |b.deferred|);
    var all := Flat(b.deferred);
    var i :| 0 <= i < |all| && all[i] == x;
    var j :| 0 <= j < |all| && all[j] == y;
  }

  // ---------------------------------------------------------------------------
  // Released pinned buffers

  // The pinned buffer holds the bytes of the run.
  ghost predicate Right(before: Mem, m: Mem, d: Deferred) {
    && d.run.tensor < |before| && d.run.base + Size(d.run.list) <= |before[d.run.tensor]| && d.pin < |m|
    && m[d.pin] == before[d.run.tensor][d.run.base..d.run.base + Size(d.run.list)]
  }

  lemma {:induction false} ArrivedRight(v: View, m: Mem, i: nat)
    requires Balanced(v) && i < |v.book.deferred| && SameShape(m, v.want) && Arrived(v.book, m, v.want, 0)
    ensures Right(v.book.before, m, v.book.deferred[i]) && RunOk(v.book, v.book.deferred[i].run)
  {
    hide Balanced, RunOk, Size;
    var d := v.book.deferred[i];
    DeferredFacts(v, i);
    assert ArrivedAt(m, v.want, d);
    StagingFacts(v.book, v.want, d.pin, d.run);
    forall p | 0 <= p < Size(d.run.list) ensures m[d.pin][p] == v.book.before[d.run.tensor][d.run.base + p] {
      assert Okay(v.want[d.pin][p], m[d.pin][p]);
    }
  }

  // The slice that belongs in the buffer of an output.
  function SliceBytes(before: Mem, x: Slot): seq<byte> {
    if x.tensor < |before| && x.off + x.size <= |before[x.tensor]| then before[x.tensor][x.off..x.off + x.size] else []
  }

  // On a hostile machine, what goes to a spoilt buffer is nowhere what belongs there.
  ghost predicate AllWrong(b: Book) {
    forall x :: x in b.slots && x.block in b.spoilt ==> Differs(SliceBytes(b.before, x), b.spoilt[x.block])
  }

  // The buffers spoilt are those reached by copies in flight from the first 'n' released pinned buffers.
  ghost predicate SpoiltBy(spoilt: map<nat, seq<byte>>, ds: seq<Deferred>, n: nat, stream: seq<Copy>)
    requires n <= |ds|
  {
    forall b :: b in spoilt <==> exists i :: 0 <= i < n && b in Reached(stream, ds[i].pin)
  }

  lemma {:induction false} SpoiltNext(spoilt: map<nat, seq<byte>>, ds: seq<Deferred>, n: nat, stream: seq<Copy>,
      content: seq<byte>)
    requires n < |ds| && SpoiltBy(spoilt, ds, n, stream)
    ensures SpoiltBy(Spoil(spoilt, stream, ds[n].pin, content), ds, n + 1, stream)
  {
    hide Reached;
  }

  // The bytes that a copy in flight brings out of a released buffer.
  lemma {:induction false} WrongBytes(v: View, ds: seq<Deferred>, u: Setup, n: nat, content: seq<byte>, x: Slot)
    requires Balanced(v) && n < |ds| && InFlight(ds, |ds|, v.stream, u) && Right(v.book.before, v.mem, ds[n])
    requires forall i :: 0 <= i < |ds| ==> LineOk(v.book, ds[i])
    requires forall i, j :: 0 <= i < j < |ds| ==> Follows(ds[i], ds[j])
    requires RunOk(v.book, ds[n].run) && ds[n].pin < |v.mem| && Differs(v.mem[ds[n].pin], content)
    requires x in v.book.slots && x.block in Reached(v.stream, ds[n].pin)
    ensures Differs(SliceBytes(v.book.before, x), StaleBytes(v.stream, ds[n].pin, content, x.block))
  {
    hide Balanced, RunOk, InFlight, Size, Span, Reached, Right;
    InFlightApart(v.book, ds, v.stream, u);
    var c := ReachedWhich(v.stream, ds[n].pin, x.block);
    var i, a := Origin(ds, v.stream, u, c);
    SamePin(ds, i, n);
    var run := ds[n].run;
    assert LineOk(v.book, ds[n]) && run.list[a] in run.list;
    SlotAt(v, x, run.list[a]);
    EntryFacts(v.book, run, a);
    SizeIs(run.list);
    SpanMonotone(run.list, a + 1, |run.list|);
    RightLength(v.book.before, v.mem, ds[n]);
    ReachedBy(v.book, v.stream, ds[n].pin, content, c);
  }

  lemma {:induction false} RightLength(before: Mem, m: Mem, d: Deferred)
    requires Right(before, m, d)
    ensures d.pin < |m| && |m[d.pin]| == Size(d.run.list) && d.run.tensor < |before|
    ensures d.run.base + Size(d.run.list) <= |before[d.run.tensor]|
    ensures forall p :: 0 <= p < |m[d.pin]| ==> m[d.pin][p] == before[d.run.tensor][d.run.base + p]
  {}

  lemma {:induction false} SamePin(ds: seq<Deferred>, i: nat, j: nat)
    requires i < |ds| && j < |ds| && ds[i].pin == ds[j].pin
    requires forall i, j :: 0 <= i < j < |ds| ==> Follows(ds[i], ds[j])
    ensures i == j
  {}

  lemma {:induction false} SlotAt(v: View, x: Slot, y: Slot)
    requires Balanced(v) && x in v.book.slots && y in v.book.slots && x.block == y.block
    ensures x == y
  {
    var i :| 0 <= i < |v.book.slots| && v.book.slots[i] == x;
    SameBlock(v.book, y, i);
  }

  // Which outputs are spoilt in the end.
  lemma {:induction false} SpoiltAre(v: View, ds: seq<Deferred>, u: Setup, x: Slot)
    requires Balanced(v) && InFlight(ds, |ds|, v.stream, u) && SpoiltBy(v.book.spoilt, ds, |ds|, v.stream)
    requires forall i :: 0 <= i < |ds| ==> LineOk(v.book, ds[i])
    requires x in v.book.slots
    ensures x.block in v.book.spoilt ==> x in Flat(ds) && u.Async(x) && x.size > 0
    ensures u.hostile && x in Flat(ds) && u.Async(x) && x.size > 0 && !u.Refusable(x) ==> x.block in v.book.spoilt
  {
    hide Balanced, Reached, Setup.Async, Setup.Refusable;
    FlatHas(ds, x);
    if x.block in v.book.spoilt {
      var n :| 0 <= n < |ds| && x.block in Reached(v.stream, ds[n].pin);
      var c := ReachedWhich(v.stream, ds[n].pin, x.block);
      var i, a := Origin(ds, v.stream, u, c);
      assert LineOk(v.book, ds[i]) && ds[i].run.list[a] in ds[i].run.list;
      SlotAt(v, x, ds[i].run.list[a]);
    }
    if u.hostile && x in Flat(ds) && u.Async(x) && x.size > 0 && !u.Refusable(x) {
      var i :| 0 <= i < |ds| && x in ds[i].run.list;
      var a :| 0 <= a < |ds[i].run.list| && ds[i].run.list[a] == x;
      assert Underway(ds[i], |ds[i].run.list|, v.stream, u);
      ReachedFrom(v.stream, HandCopy(ds[i], a), ds[i].pin);
    }
  }

  lemma {:induction false} ReachedFrom(stream: seq<Copy>, c: Copy, pin: nat)
    requires c in stream && Brings(c, pin)
    ensures c.dst in Reached(stream, pin)
  {}

  // The pinned buffers of the first 'n' deferred runs have been given back, the others hold what they should.
  ghost predicate GivenBack(v: View, ds: seq<Deferred>, n: nat, u: Setup)
    requires n <= |ds|
  {
    && InFlight(ds, |ds|, v.stream, u) && SpoiltBy(v.book.spoilt, ds, n, v.stream) && (u.hostile ==> AllWrong(v.book))
    && (forall i :: 0 <= i < |ds| ==> LineOk(v.book, ds[i]) && RunOk(v.book, ds[i].run))
    && (forall i, j :: 0 <= i < j < |ds| ==> Follows(ds[i], ds[j]))
    && (forall j :: n <= j < |ds| ==> Right(v.book.before, v.mem, ds[j]))
  }

  lemma {:induction false} RightHere(v: View, ds: seq<Deferred>, i: nat, u: Setup)
    requires i < |ds| && GivenBack(v, ds, i, u)
    ensures ds[i].pin < |v.mem| && ds[i].pin in v.book.pins && Handing(v.book, v.stream)
  {
    hide InFlight, SpoiltBy, AllWrong, RunOk, Handing, Follows;
    InFlightApart(v.book, ds, v.stream, u);
    assert LineOk(v.book, ds[i]);
  }

  // The next one is given back, and its bytes are others from now on.
  lemma {:induction false} GivenNext(v: View, ds: seq<Deferred>, n: nat, u: Setup, content: seq<byte>)
    requires Balanced(v) && n < |ds| && GivenBack(v, ds, n, u) && ds[n].pin < |v.mem|
    requires u.hostile ==> Differs(v.mem[ds[n].pin], content)
    ensures GivenBack(Released(v, ds[n].pin, content), ds, n + 1, u)
  {
    hide Balanced, InFlight, LineOk, RunOk, Right, Follows, Reached, SpoiltBy, AllWrong, Differs;
    var v' := Released(v, ds[n].pin, content);
    RightStays(v.book.before, v.mem, v'.mem, ds, n);
    SpoiltNext(v.book.spoilt, ds, n, v.stream, content);
    if u.hostile { WrongNext(v, ds, u, n, content); }
    forall j | 0 <= j < |ds| ensures LineOk(v'.book, ds[j]) && RunOk(v'.book, ds[j].run) {
      SameLine(v.book, v'.book, ds[j]);
    }
  }

  lemma {:induction false} RightStays(before: Mem, m: Mem, m': Mem, ds: seq<Deferred>, i: nat)
    requires i < |ds| && ds[i].pin < |m| && |m'| == |m| && m' == m[ds[i].pin := m'[ds[i].pin]]
    requires forall j :: i <= j < |ds| ==> Right(before, m, ds[j])
    requires forall i, j :: 0 <= i < j < |ds| ==> Follows(ds[i], ds[j])
    ensures forall j :: i < j < |ds| ==> Right(before, m', ds[j])
  {
    forall j | i < j < |ds| ensures Right(before, m', ds[j]) { assert Follows(ds[i], ds[j]); }
  }

  lemma {:induction false} WrongNext(v: View, ds: seq<Deferred>, u: Setup, n: nat, content: seq<byte>)
    requires Balanced(v) && n < |ds| && InFlight(ds, |ds|, v.stream, u) && Right(v.book.before, v.mem, ds[n])
    requires forall i :: 0 <= i < |ds| ==> LineOk(v.book, ds[i]) && RunOk(v.book, ds[i].run)
    requires forall i, j :: 0 <= i < j < |ds| ==> Follows(ds[i], ds[j])
    requires ds[n].pin < |v.mem| && Differs(v.mem[ds[n].pin], content) && AllWrong(v.book)
    ensures AllWrong(Released(v, ds[n].pin, content).book)
  {
    hide Balanced, InFlight, LineOk, RunOk, Right, Follows, Reached;
    var b := Released(v, ds[n].pin, content).book;
    forall x | x in b.slots && x.block in b.spoilt ensures Differs(SliceBytes(b.before, x), b.spoilt[x.block]) {
      if x.block in Reached(v.stream, ds[n].pin) { WrongBytes(v, ds, u, n, content, x); }
    }
  }
}
