// The inputs of a batch, the runs in which they wait to be copied, and which inputs come to share a run.

module Runs {
  import opened Memory
  import opened Layout

  datatype Buffer = Buffer(data: seq<byte>, memType: MemoryType, memId: int)

  // The bytes of an input, and the buffers that hold them one after the other.
  datatype Input = Input(data: seq<byte>, buffers: seq<Buffer>) {
    ghost predicate Valid() {
      data == Concat(Pieces(buffers))
    }
  }

  function Pieces(buffers: seq<Buffer>): (r: seq<seq<byte>>)
    ensures |r| == |buffers| && forall i :: 0 <= i < |r| ==> r[i] == buffers[i].data
  {
    seq(|buffers|, i requires 0 <= i < |buffers| => buffers[i].data)
  }

  // No buffer of the input is in device memory.
  predicate OnHost(input: Input) {
    forall i :: 0 <= i < |input.buffers| ==> !input.buffers[i].memType.Gpu?
  }

  // A request (and so its response) with the input that is to be copied.
  datatype Pending = Pending(req: nat, input: Input)

  // Workers may stage the list: its inputs are in host memory, and copies are made at once.
  predicate FromHost(list: seq<Pending>, onStream: bool) {
    forall j :: 0 <= j < |list| ==> !onStream && OnHost(list[j].input)
  }

  lemma {:induction false} FromHostNone(onStream: bool)
    ensures FromHost([], onStream)
  {}

  lemma {:induction false} FromHostMore(list: seq<Pending>, e: Pending, onStream: bool)
    requires FromHost(list, onStream) && !onStream && OnHost(e.input)
    ensures FromHost(list + [e], onStream)
  {
    hide OnHost;
  }

  // Which inputs are staged through the stream.
  function ThroughStream(list: seq<Pending>, onStream: bool): (r: seq<bool>)
    ensures |r| == |list| && forall j :: 0 <= j < |r| ==> r[j] == (onStream || !OnHost(list[j].input))
  {
    seq(|list|, j requires 0 <= j < |list| => onStream || !OnHost(list[j].input))
  }

  function Parts(run: seq<Pending>): (r: seq<seq<byte>>)
    ensures |r| == |run| && forall i :: 0 <= i < |run| ==> r[i] == run[i].input.data
  {
    seq(|run|, i requires 0 <= i < |run| => run[i].input.data)
  }

  function Size(run: seq<Pending>): nat {
    Total(Parts(run))
  }

  lemma {:induction false} SizeIs(run: seq<Pending>)
    ensures Size(run) == Off(Parts(run), |run|)
  {}

  lemma {:induction false} SizeNone()
    ensures Size([]) == 0
  {}

  // A contiguous run of pending inputs, to start at 'base' of the tensor.
  datatype Run = Run(base: nat, list: seq<Pending>) {
    predicate Covers(p: int) {
      base <= p < base + Size(list)
    }
  }

  lemma {:induction false} PartsAppend(list: seq<Pending>, e: Pending)
    ensures Parts(list + [e]) == Parts(list) + [e.input.data]
    ensures Size(list + [e]) == Size(list) + |e.input.data|
    ensures forall j :: 0 <= j <= |list| ==> Off(Parts(list + [e]), j) == Off(Parts(list), j)
  {
    var parts, more := Parts(list), Parts(list + [e]);
    assert more[..|parts|] == parts;
    forall j | 0 <= j <= |list| ensures Off(more, j) == Off(parts, j) { OffPrefix(parts, more, j); }
  }

  // The requests of a run.
  function Reqs(list: seq<Pending>): (r: set<nat>)
    ensures forall j :: 0 <= j < |list| ==> list[j].req in r
  {
    set j | 0 <= j < |list| :: list[j].req
  }

  lemma {:induction false} ReqsWithin(list: seq<Pending>, lo: nat, hi: nat)
    requires lo <= hi <= |list|
    ensures Reqs(list[lo..hi]) <= Reqs(list) && (lo < hi ==> Reqs(list[lo..hi]) != {})
  {
    if lo < hi { assert list[lo..hi][0].req in Reqs(list[lo..hi]); }
  }

  // ---------------------------------------------------------------------------
  // The arguments of a kernel launch

  // The buffers of a run of inputs, one after the other.
  function Flatten(list: seq<Pending>): (r: seq<seq<byte>>)
    ensures |r| == BufferCount(list)
  {
    if list == [] then [] else Flatten(list[..|list| - 1]) + Pieces(list[|list| - 1].input.buffers)
  }

  function BufferCount(list: seq<Pending>): nat {
    if list == [] then 0 else BufferCount(list[..|list| - 1]) + |list[|list| - 1].input.buffers|
  }

  lemma {:induction false} CountNone()
    ensures BufferCount([]) == 0
  {}

  lemma {:induction false} BufferCountAppend(list: seq<Pending>, e: Pending)
    ensures BufferCount(list + [e]) == BufferCount(list) + |e.input.buffers|
  {
    assert (list + [e])[..|list|] == list;
  }

  lemma {:induction false} ConcatAppend(a: seq<seq<byte>>, b: seq<seq<byte>>, k: nat)
    requires k <= |b|
    ensures ConcatTo(a + b, |a| + k) == Concat(a) + ConcatTo(b, k)
  {
    if k == 0 {
      assert (a + b)[..|a|] == a;
      OffPrefix(a, a + b, |a|);
    } else {
      ConcatAppend(a, b, k - 1);
      var was := ConcatTo(b, k - 1);
      assert (Concat(a) + was) + b[k - 1] == Concat(a) + (was + b[k - 1]);
    }
  }

  // Buffer by buffer or input by input, the bytes are the same.
  lemma {:induction false} FlattenConcat(list: seq<Pending>)
    requires forall j :: 0 <= j < |list| ==> list[j].input.Valid()
    ensures Concat(Flatten(list)) == Concat(Parts(list)) && Total(Flatten(list)) == Size(list)
  {
    if list != [] {
      var rest, last := list[..|list| - 1], list[|list| - 1];
      FlattenConcat(rest);
      ConcatAppend(Flatten(rest), Pieces(last.input.buffers), |last.input.buffers|);
      assert Parts(list)[..|rest|] == Parts(rest);
      OffPrefix(Parts(rest), Parts(list), |rest|);
      assert Concat(Flatten(list)) == Concat(Flatten(rest)) + last.input.data;
      assert Concat(Parts(list)) == Concat(Parts(rest)) + last.input.data;
    }
  }

  lemma {:induction false} TotalNone()
    ensures Total([]) == 0
  {}

  // A buffer more.
  lemma {:induction false} ArgumentsMore(was: seq<seq<byte>>, data: seq<byte>)
    ensures Sizes(was + [data]) == Sizes(was) + [|data|] && Offsets(was + [data]) == Offsets(was) + [Total(was)]
    ensures Total(was + [data]) == Total(was) + |data|
  {
    var all := was + [data];
    assert all[..|was|] == was;
    forall k | 0 <= k <= |was| ensures Off(all, k) == Off(was, k) { OffPrefix(was, all, k); }
    assert Offsets(all) == Offsets(was) + [Total(was)];
  }

  // The three host arrays handed to the kernel.
  method LaunchArguments(list: seq<Pending>) returns (pointers: seq<seq<byte>>, sizes: seq<nat>, offsets: seq<nat>)
    ensures pointers == Flatten(list) && sizes == Sizes(pointers) && offsets == Offsets(pointers)
    ensures |pointers| == |sizes| == |offsets| == BufferCount(list)
  {
    hide Total, Off;
    pointers, sizes, offsets := [], [], [];
    var byteSizeOffset := 0;
    TotalNone();
    for i := 0 to |list|
      invariant pointers == Flatten(list[..i]) && sizes == Sizes(pointers) && offsets == Offsets(pointers)
      invariant byteSizeOffset == Total(pointers)
    {
      var buffers := list[i].input.buffers;
      ghost var before := pointers;
      for b := 0 to |buffers|
        invariant pointers == before + Pieces(buffers)[..b] && sizes == Sizes(pointers) && offsets == Offsets(pointers)
        invariant byteSizeOffset == Total(pointers)
      {
        ArgumentsMore(pointers, buffers[b].data);
        pointers := pointers + [buffers[b].data];
        sizes := sizes + [|buffers[b].data|];
        offsets := offsets + [byteSizeOffset];
        byteSizeOffset := byteSizeOffset + |buffers[b].data|;
      }
      assert Pieces(buffers)[..|buffers|] == Pieces(buffers);
      assert list[..i + 1][..i] == list[..i];
    }
    assert list[..|list|] == list;
  }

  // ---------------------------------------------------------------------------
  // Which inputs share a run

  // How a call gathers a tensor. CpuPinned for 'usePinned' says that no pinned buffer is needed.
  datatype Routing = Routing(usePinned: MemoryType, useKernel: bool, memType: MemoryType, memId: int, cap: nat) {
    // Only the first buffer of an input is looked at.
    predicate Stages(input: Input) {
      usePinned != CpuPinned && input.buffers != [] && input.buffers[0].memType == usePinned
    }

    predicate Launches(input: Input) {
      && !Stages(input) && useKernel && input.buffers != [] && input.buffers[0].memType != Cpu && memType == Gpu
      && (input.buffers[0].memType != Gpu || input.buffers[0].memId == memId)
    }

    predicate Joins(input: Input, off: nat, toKernel: bool) {
      off + |input.data| <= cap && if toKernel then Launches(input) else Stages(input)
    }
  }

  // The runs flushed so far, and the pending one.
  datatype Plan = Plan(flushed: seq<seq<Pending>>, base: nat, list: seq<Pending>)

  // A run that does not reach up to 'off' is flushed.
  function Caught(p: Plan, off: nat): Plan {
    if Size(p.list) > 0 && off != Size(p.list) + p.base then Plan(p.flushed + [p.list], 0, []) else p
  }

  function Grown(p: Plan, e: Pending, off: nat): Plan {
    p.(base := if Size(p.list) == 0 then off else p.base, list := p.list + [e])
  }

  function Joined(p: Plan, e: Pending, off: nat, joins: bool): Plan {
    if joins then Grown(p, e, off) else p
  }

  // The plan of a call that is not the first.
  function After(flushed: seq<seq<Pending>>, p: Plan): Plan {
    p.(flushed := flushed + p.flushed)
  }

  lemma {:induction false} AfterCaught(flushed: seq<seq<Pending>>, p: Plan, off: nat)
    ensures Caught(After(flushed, p), off) == After(flushed, Caught(p, off))
    ensures Caught(p.(flushed := []), off).(flushed := []) == Caught(p, off).(flushed := [])
  {
    hide Size;
    assert flushed + (p.flushed + [p.list]) == flushed + p.flushed + [p.list];
  }

  function Datas(inputs: seq<Input>): (r: seq<seq<byte>>)
    ensures |r| == |inputs| && forall k :: 0 <= k < |r| ==> r[k] == inputs[k].data
  {
    seq(|inputs|, k requires 0 <= k < |inputs| => inputs[k].data)
  }

  // The pinned runs, or the kernel runs, after the first 'n' inputs.
  function Planned(inputs: seq<Input>, how: Routing, toKernel: bool, n: nat): Plan
    requires n <= |inputs|
  {
    if n == 0 then Plan([], 0, [])
    else
      var off := Off(Datas(inputs), n - 1);
      var p := Caught(Planned(inputs, how, toKernel, n - 1), off);
      Joined(p, Pending(n - 1, inputs[n - 1]), off, how.Joins(inputs[n - 1], off, toKernel))
  }

  // Every pinned flush of a call. The last one is made even if nothing is pending.
  function PinnedFlushes(inputs: seq<Input>, how: Routing): seq<seq<Pending>> {
    var p := Planned(inputs, how, false, |inputs|);
    p.flushed + [p.list]
  }

  function KernelFlushes(inputs: seq<Input>, how: Routing): seq<seq<Pending>> {
    var p := Planned(inputs, how, true, |inputs|);
    p.flushed + if p.list == [] then [] else [p.list]
  }

  lemma {:induction false} PlannedFirst(inputs: seq<Input>, how: Routing, flushed: seq<seq<Pending>>)
    ensures After(flushed, Planned(inputs, how, false, 0)) == Plan(flushed, 0, [])
    ensures Planned(inputs, how, true, 0) == Plan([], 0, [])
  {}

  // One input more.
  lemma {:induction false} PlannedNext(inputs: seq<Input>, how: Routing, n: nat, flushed: seq<seq<Pending>>)
    requires n < |inputs|
    ensures var e, off := Pending(n, inputs[n]), Off(Datas(inputs), n);
      var p, q := After(flushed, Planned(inputs, how, false, n)), Planned(inputs, how, true, n).(flushed := []);
      && Joined(Caught(p, off), e, off, how.Joins(e.input, off, false)) ==
         After(flushed, Planned(inputs, how, false, n + 1))
      && Joined(Caught(q, off), e, off, how.Joins(e.input, off, true)).(flushed := []) ==
         Planned(inputs, how, true, n + 1).(flushed := [])
      && p.flushed <= After(flushed, Planned(inputs, how, false, n + 1)).flushed
  {
    hide Off, Size, Caught, Routing.Joins;
    var off := Off(Datas(inputs), n);
    AfterCaught(flushed, Planned(inputs, how, false, n), off);
    AfterCaught(flushed, Planned(inputs, how, true, n), off);
    FlushedGrows(inputs, how, false, n, n + 1);
  }

  lemma {:induction false} FlushedGrows(inputs: seq<Input>, how: Routing, toKernel: bool, n: nat, m: nat)
    requires n <= m <= |inputs|
    ensures Planned(inputs, how, toKernel, n).flushed <= Planned(inputs, how, toKernel, m).flushed
    decreases m
  {
    hide Off, Size;
    if n < m { FlushedGrows(inputs, how, toKernel, n, m - 1); }
  }

  // The run pending after 'n' inputs is one of those flushed, if it is flushed before the next.
  lemma {:induction false} CaughtFlushes(inputs: seq<Input>, how: Routing, n: nat)
    requires n < |inputs|
    ensures var p := Planned(inputs, how, true, n); var off := Off(Datas(inputs), n);
      Size(p.list) > 0 && off != Size(p.list) + p.base ==> p.list in KernelFlushes(inputs, how)
  {
    hide Off, Size;
    var p, next := Planned(inputs, how, true, n), Planned(inputs, how, true, n + 1);
    FlushedGrows(inputs, how, true, n + 1, |inputs|);
    if Size(p.list) > 0 && Off(Datas(inputs), n) != Size(p.list) + p.base {
      assert next.flushed[|p.flushed|] == p.list;
      assert KernelFlushes(inputs, how)[|p.flushed|] == p.list;
    }
  }

  lemma {:induction false} LastFlushes(inputs: seq<Input>, how: Routing)
    ensures var p := Planned(inputs, how, true, |inputs|); p.list != [] ==> p.list in KernelFlushes(inputs, how)
  {
    hide Planned;
  }

  // The inputs that join some run, in order.
  function Chosen(inputs: seq<Input>, how: Routing, toKernel: bool, n: nat): seq<Pending>
    requires n <= |inputs|
  {
    if n == 0 then []
    else
      Chosen(inputs, how, toKernel, n - 1)
      + if how.Joins(inputs[n - 1], Off(Datas(inputs), n - 1), toKernel) then [Pending(n - 1, inputs[n - 1])] else []
  }

  function Flat(runs: seq<seq<Pending>>): seq<Pending> {
    if runs == [] then [] else Flat(runs[..|runs| - 1]) + runs[|runs| - 1]
  }

  lemma {:induction false} FlatMore(runs: seq<seq<Pending>>, f: seq<Pending>)
    ensures Flat(runs + [f]) == Flat(runs) + f
  {
    assert (runs + [f])[..|runs|] == runs;
  }

  // Each of them is in one run, and in one only.
  lemma {:induction false} PlannedOnce(inputs: seq<Input>, how: Routing, toKernel: bool, n: nat)
    requires n <= |inputs|
    ensures var p := Planned(inputs, how, toKernel, n); Flat(p.flushed) + p.list == Chosen(inputs, how, toKernel, n)
  {
    hide Off, Size, Routing.Joins;
    if n > 0 {
      PlannedOnce(inputs, how, toKernel, n - 1);
      var p := Planned(inputs, how, toKernel, n - 1);
      FlatMore(p.flushed, p.list);
    }
  }

  lemma {:induction false} FlushedOnce(inputs: seq<Input>, how: Routing)
    ensures Flat(PinnedFlushes(inputs, how)) == Chosen(inputs, how, false, |inputs|)
    ensures Flat(KernelFlushes(inputs, how)) == Chosen(inputs, how, true, |inputs|)
  {
    hide Planned, Chosen, Flat;
    PlannedOnce(inputs, how, false, |inputs|);
    PlannedOnce(inputs, how, true, |inputs|);
    var p, q := Planned(inputs, how, false, |inputs|), Planned(inputs, how, true, |inputs|);
    FlatMore(p.flushed, p.list);
    FlatMore(q.flushed, q.list);
    assert q.flushed + [] == q.flushed;
  }

  // Ordered by request.
  ghost predicate Ordered(list: seq<Pending>) {
    forall i, j :: 0 <= i < j < |list| ==> list[i].req < list[j].req
  }

  ghost predicate Kind(inputs: seq<Input>, how: Routing, toKernel: bool, n: nat, k: nat) {
    k < n && k < |inputs| && if toKernel then how.Launches(inputs[k]) else how.Stages(inputs[k])
  }

  ghost predicate PlanOk(p: Plan, inputs: seq<Input>, how: Routing, toKernel: bool, n: nat) {
    && Ordered(p.list) && (forall k :: k in Reqs(p.list) ==> Kind(inputs, how, toKernel, n, k))
    && (forall f, k :: f in p.flushed && k in Reqs(f) ==> Kind(inputs, how, toKernel, n, k) && k !in Reqs(p.list))
  }

  lemma {:induction false} ReqsMore(list: seq<Pending>, e: Pending)
    ensures Reqs(list + [e]) == Reqs(list) + {e.req} && Reqs([]) == {} && Reqs([e]) == {e.req}
  {
    assert [e][0].req in Reqs([e]);
    forall k | k in Reqs(list) + {e.req} ensures k in Reqs(list + [e]) {
      if k in Reqs(list) {
        var j :| 0 <= j < |list| && list[j].req == k;
        assert (list + [e])[j].req == k;
      } else {
        assert (list + [e])[|list|].req == k;
      }
    }
  }

  lemma {:induction false} ReqsNone(list: seq<Pending>)
    ensures Reqs(list[..0]) == {} && Reqs([]) == {}
  {}

  // An entry more, of a request that none of those before has.
  lemma {:induction false} ReqsNext(list: seq<Pending>, i: nat)
    requires Ordered(list) && i < |list|
    ensures Reqs(list[..i + 1]) == Reqs(list[..i]) + {list[i].req} && Reqs(list[..i]) !! {list[i].req}
  {
    assert list[..i + 1] == list[..i] + [list[i]];
    ReqsMore(list[..i], list[i]);
  }

  lemma {:induction false} FirstOk(inputs: seq<Input>, how: Routing, toKernel: bool)
    ensures PlanOk(Plan([], 0, []), inputs, how, toKernel, 0)
  {}

  lemma {:induction false} CaughtOk(p: Plan, inputs: seq<Input>, how: Routing, toKernel: bool, n: nat, off: nat)
    requires PlanOk(p, inputs, how, toKernel, n)
    ensures PlanOk(Caught(p, off), inputs, how, toKernel, n)
  {
    hide Kind, Size;
    ReqsMore([], Pending(0, Input([], [])));
  }

  lemma {:induction false} JoinedOk(p: Plan, inputs: seq<Input>, how: Routing, toKernel: bool, n: nat, off: nat)
    requires PlanOk(p, inputs, how, toKernel, n) && n < |inputs|
    ensures var p' := Joined(p, Pending(n, inputs[n]), off, how.Joins(inputs[n], off, toKernel));
      PlanOk(p', inputs, how, toKernel, n + 1)
  {
    hide Size, Routing.Stages, Routing.Launches, Reqs;
    var e := Pending(n, inputs[n]);
    ReqsMore(p.list, e);
    forall j | 0 <= j < |p.list| ensures p.list[j].req < n { assert p.list[j].req in Reqs(p.list); }
  }

  // Every request is in one run at most, and in a pending one only if it is in none that has been flushed.
  lemma {:induction false} PlannedOk(inputs: seq<Input>, how: Routing, toKernel: bool, n: nat)
    requires n <= |inputs|
    ensures PlanOk(Planned(inputs, how, toKernel, n), inputs, how, toKernel, n)
  {
    hide PlanOk, Off, Caught, Joined;
    if n == 0 {
      FirstOk(inputs, how, toKernel);
    } else {
      PlannedOk(inputs, how, toKernel, n - 1);
      var off := Off(Datas(inputs), n - 1);
      var p := Planned(inputs, how, toKernel, n - 1);
      CaughtOk(p, inputs, how, toKernel, n - 1, off);
      JoinedOk(Caught(p, off), inputs, how, toKernel, n - 1, off);
    }
  }

  // Requests whose copies are still to be tried after 'n' of them.
  ghost predicate Fresh(plist: seq<Pending>, klist: seq<Pending>, n: nat, k: nat) {
    n <= k || k in Reqs(plist) || k in Reqs(klist)
  }

  // What the pending runs of a call have in common with each other, and with the pinned runs flushed.
  ghost predicate Lined(plist: seq<Pending>, klist: seq<Pending>, n: nat) {
    && Ordered(plist) && Ordered(klist) && Reqs(plist) !! Reqs(klist)
    && forall k :: k in Reqs(plist) || k in Reqs(klist) ==> k < n
  }

  lemma {:induction false} PlansApart(inputs: seq<Input>, how: Routing, n: nat)
    requires n <= |inputs|
    ensures var p, q := Planned(inputs, how, false, n), Planned(inputs, how, true, n);
      && Lined(p.list, q.list, n)
      && forall f, k :: f in p.flushed && k in Reqs(f) ==> !Fresh(p.list, q.list, n, k)
  {
    hide Planned, Reqs, Ordered, Kind;
    PlannedOk(inputs, how, false, n);
    PlannedOk(inputs, how, true, n);
    var p, q := Planned(inputs, how, false, n), Planned(inputs, how, true, n);
    forall k: nat | Kind(inputs, how, false, n, k) || Kind(inputs, how, true, n, k)
      ensures k < n && !(Kind(inputs, how, false, n, k) && Kind(inputs, how, true, n, k))
    {
      KindFacts(inputs, how, n, k);
    }
    forall f, k | f in p.flushed && k in Reqs(f) ensures !Fresh(p.list, q.list, n, k) {
      assert Kind(inputs, how, false, n, k);
    }
  }

  lemma {:induction false} KindFacts(inputs: seq<Input>, how: Routing, n: nat, k: nat)
    requires Kind(inputs, how, false, n, k) || Kind(inputs, how, true, n, k)
    ensures k < n && !(Kind(inputs, how, false, n, k) && Kind(inputs, how, true, n, k))
  {}

  lemma {:induction false} ListNext(inputs: seq<Input>, how: Routing, toKernel: bool, n: nat)
    requires n < |inputs|
    ensures forall k :: k in Reqs(Planned(inputs, how, toKernel, n + 1).list) ==>
      k in Reqs(Planned(inputs, how, toKernel, n).list)
      || (k == n && how.Joins(inputs[n], Off(Datas(inputs), n), toKernel))
  {
    hide Size, Reqs, Routing.Joins, Off;
    var e, off := Pending(n, inputs[n]), Off(Datas(inputs), n);
    var p := Planned(inputs, how, toKernel, n);
    ReqsMore(p.list, e);
    assert [] + [e] == [e];
    ReqsNone(p.list);
  }

  // After one input more, no others are still to be tried; and the input itself only if it fits.
  lemma {:induction false} PlansFresh(inputs: seq<Input>, how: Routing, n: nat)
    requires n < |inputs|
    ensures var p, q := Planned(inputs, how, false, n).list, Planned(inputs, how, true, n).list;
      var p', q' := Planned(inputs, how, false, n + 1).list, Planned(inputs, how, true, n + 1).list;
      && (forall k :: Fresh(p', q', n + 1, k) ==> Fresh(p, q, n, k))
      && (Fresh(p', q', n + 1, n) ==> Off(Datas(inputs), n + 1) <= how.cap)
  {
    hide Reqs, Planned, Routing.Stages, Routing.Launches, Off;
    PlansApart(inputs, how, n);
    ListNext(inputs, how, false, n);
    ListNext(inputs, how, true, n);
    var p', q' := Planned(inputs, how, false, n + 1).list, Planned(inputs, how, true, n + 1).list;
    if Fresh(p', q', n + 1, n) {
      assert n in Reqs(p') || n in Reqs(q');
      var off := Off(Datas(inputs), n);
      assert n !in Reqs(Planned(inputs, how, false, n).list) && n !in Reqs(Planned(inputs, how, true, n).list);
      assert how.Joins(inputs[n], off, false) || how.Joins(inputs[n], off, true);
      assert Datas(inputs)[n] == inputs[n].data;
      OffStep(Datas(inputs), n);
    }
  }

  // With nothing staged, or nothing launched, no run is ever begun.
  lemma {:induction false} PlannedNone(inputs: seq<Input>, how: Routing, toKernel: bool, n: nat)
    requires n <= |inputs| && forall k :: 0 <= k < |inputs| ==>
      !(if toKernel then how.Launches(inputs[k]) else how.Stages(inputs[k]))
    ensures Planned(inputs, how, toKernel, n) == Plan([], 0, [])
  {
    hide Off;
    if n > 0 {
      PlannedNone(inputs, how, toKernel, n - 1);
      SizeNone();
    }
  }

  // With every input staged, or launched, and none too many, there is one run, and it has all of them.
  lemma {:induction false} PlannedAll(inputs: seq<Input>, how: Routing, toKernel: bool, n: nat)
    requires n <= |inputs| && forall k :: 0 <= k < |inputs| ==>
      if toKernel then how.Launches(inputs[k]) else how.Stages(inputs[k])
    requires Total(Datas(inputs)) <= how.cap
    ensures var p := Planned(inputs, how, toKernel, n);
      && p.flushed == [] && |p.list| == n && Size(p.list) == Off(Datas(inputs), n) && (Size(p.list) > 0 ==> p.base == 0)
      && forall k :: 0 <= k < n ==> p.list[k] == Pending(k, inputs[k])
  {
    hide Off, Size, Routing.Stages, Routing.Launches;
    if n == 0 {
      SizeNone();
      OffZero(Datas(inputs));
    } else {
      PlannedAll(inputs, how, toKernel, n - 1);
      var p, off := Planned(inputs, how, toKernel, n - 1), Off(Datas(inputs), n - 1);
      OffStep(Datas(inputs), n - 1);
      OffMonotone(Datas(inputs), n, |inputs|);
      PartsAppend(p.list, Pending(n - 1, inputs[n - 1]));
    }
  }

  // ---------------------------------------------------------------------------
  // Who may be lost

  // The run holds 'k', and a request that things may be refused for.
  ghost predicate Doomed(list: seq<Pending>, risky: set<nat>, k: nat) {
    k in Reqs(list) && Reqs(list) * risky != {}
  }

  // Request 'k' may be lost to a refusal for a run that it shares.
  ghost predicate Shared(flushed: seq<seq<Pending>>, risky: set<nat>, k: nat) {
    exists f :: f in flushed && Doomed(f, risky, k)
  }

  // Or to one of its own.
  ghost predicate Excused(flushed: seq<seq<Pending>>, risky: set<nat>, k: nat) {
    k in risky || Shared(flushed, risky, k)
  }

  lemma {:induction false} SharedBy(flushed: seq<seq<Pending>>, risky: set<nat>, f: seq<Pending>)
    requires f in flushed && Reqs(f) * risky != {}
    ensures forall k :: k in Reqs(f) ==> Shared(flushed, risky, k)
  {
    forall k | k in Reqs(f) ensures Shared(flushed, risky, k) { assert Doomed(f, risky, k); }
  }

  lemma {:induction false} SharedMore(flushed: seq<seq<Pending>>, more: seq<seq<Pending>>, risky: set<nat>)
    requires flushed <= more
    ensures forall k :: Shared(flushed, risky, k) ==> Shared(more, risky, k)
    ensures forall k :: Excused(flushed, risky, k) ==> Excused(more, risky, k)
  {
    hide Doomed;
    assert forall f :: f in flushed ==> f in more;
  }

  // Those not in the runs that have come in addition share none of them.
  lemma {:induction false} SharedBefore(flushed: seq<seq<Pending>>, more: seq<seq<Pending>>, risky: set<nat>, k: nat)
    requires flushed <= more && Shared(more, risky, k)
    requires forall f :: f in more[|flushed|..] ==> k !in Reqs(f)
    ensures Shared(flushed, risky, k)
  {
    hide Reqs;
    var f :| f in more && Doomed(f, risky, k);
    assert more == flushed + more[|flushed|..];
    assert f in flushed;
  }

  lemma {:induction false} SharedNone(flushed: seq<seq<Pending>>, k: nat)
    ensures !Excused(flushed, {}, k) && !Shared(flushed, {}, k)
  {}
}
