// The segmented copy as a protocol. The main thread hands one task per segment to the work queue;
// every task stages its inputs into the pinned buffer, then counts down; the task that brings the
// counter to zero issues the block copy out of the pinned buffer and posts the completion.
// Each action below is one step of one thread, and the steps may come in any order.

module AsyncCopy {
  import opened Memory
  import opened Layout
  import opened Arithmetic
  import opened Segments

  const COUNTER_MODULUS: nat := 0x1_0000_0000_0000_0000

  // asyncSource: for which inputs staging only issues a copy on the stream.
  // asyncTarget: the block copy, too, is only issued on the stream.
  datatype Config = Config(
    parts: seq<seq<byte>>, workers: nat, segs: seq<Segment>, asyncSource: seq<bool>, asyncTarget: bool)
  {
    // The segments divide the pending list, and are no more than the counter starts from.
    ghost predicate Divided() {
      && 0 < workers && |parts| < COUNTER_MODULUS && |segs| <= Min(|parts|, workers)
      && (forall i :: 0 <= i < |segs| ==> segs[i].lo < segs[i].hi <= |parts| && segs[i].off == Off(parts, segs[i].lo))
      && (forall k :: 0 <= k < |parts| ==> Staged(k))
    }

    ghost predicate Staged(k: nat) {
      exists i :: 0 <= i < |segs| && segs[i].lo <= k < segs[i].hi
    }

    predicate Async(k: nat) {
      k < |asyncSource| && asyncSource[k]
    }

    // Staging is over when its calls have returned: only inputs without bytes are still in flight.
    ghost predicate Prompt() {
      forall k :: 0 <= k < |parts| && Async(k) ==> parts[k] == []
    }

    // No input is staged through the stream.
    ghost predicate HostOnly() {
      forall k :: 0 <= k < |parts| ==> !Async(k)
    }

    // The flush as the stride loop sets it up.
    ghost predicate Valid() {
      0 < workers && |parts| < COUNTER_MODULUS && segs == SegmentsOf(parts, workers)
    }
  }

  // There are as many segments as the counter starts from.
  predicate Full(c: Config) {
    |c.parts| > 0 && |c.segs| == Min(|c.parts|, c.workers)
  }

  lemma {:induction false} EachStaged(c: Config, k: nat)
    requires 0 < c.workers && c.segs == SegmentsOf(c.parts, c.workers) && k < |c.parts|
    ensures c.Staged(k)
  {
    var i := SegmentFor(c.parts, c.workers, k);
    assert c.segs[i] == SegmentAt(c.parts, c.workers, i);
  }

  lemma {:induction false} ValidDivided(c: Config)
    requires c.Valid()
    ensures c.Divided() && |c.segs| == Count(|c.parts|, c.workers)
    ensures Completes(|c.parts|, c.workers) <==> Full(c)
  {
    CountBounds(|c.parts|, c.workers);
    forall k | 0 <= k < |c.parts| ensures c.Staged(k) { EachStaged(c, k); }
  }

  // NotAdded, Dropped: AddTask still to come, AddTask failed. Last: the counter has just reached zero.
  datatype Phase = NotAdded | Dropped | Staging | Last | Done

  datatype Task = Task(phase: Phase, pos: nat, off: nat)

  datatype Flight = Piece(off: nat, data: seq<byte>) | Block

  datatype State = State(
    pinned: seq<byte>, tasks: seq<Task>, counter: nat, flight: seq<Flight>,
    posts: nat,                 // completions put into the queue
    blocks: seq<seq<byte>>)     // what each block copy that has landed carried

  datatype Action = Add(i: nat) | Drop(i: nat) | Stage(i: nat) | Sub(i: nat) | Post(i: nat) | Land

  ghost predicate Start(c: Config, s: State)
  {
    && |s.pinned| == Total(c.parts)
    && |s.tasks| == |c.segs|
    && (forall i :: 0 <= i < |s.tasks| ==>
         var seg := c.segs[i]; s.tasks[i] == Task(NotAdded, seg.lo, seg.off))
    && s.counter == Min(|c.parts|, c.workers)
    && s.flight == [] && s.posts == 0 && s.blocks == []
  }

  // AddTask is called for one segment after the other.
  predicate NextToAdd(s: State, i: nat) {
    i < |s.tasks| && s.tasks[i].phase.NotAdded? && forall j :: 0 <= j < i ==> !s.tasks[j].phase.NotAdded?
  }

  predicate Enabled(c: Config, s: State, a: Action)
    requires |s.tasks| == |c.segs|
  {
    match a
    case Add(i) => NextToAdd(s, i)
    case Drop(i) => NextToAdd(s, i)
    case Stage(i) =>
      && i < |s.tasks| && s.tasks[i].phase.Staging?
      && s.tasks[i].pos < c.segs[i].hi <= |c.parts|
      && s.tasks[i].off + |c.parts[s.tasks[i].pos]| <= |s.pinned|
    case Sub(i) => i < |s.tasks| && s.tasks[i].phase.Staging? && s.tasks[i].pos == c.segs[i].hi
    case Post(i) => i < |s.tasks| && s.tasks[i].phase.Last?
    case Land =>
      && s.flight != []
      && (s.flight[0].Piece? ==> s.flight[0].off + |s.flight[0].data| <= |s.pinned|)
  }

  function FetchSub(counter: nat): nat {
    (counter + COUNTER_MODULUS - 1) % COUNTER_MODULUS
  }

  function Perform(c: Config, s: State, a: Action): (r: State)
    requires |s.tasks| == |c.segs| && Enabled(c, s, a)
    ensures |r.tasks| == |s.tasks| && |r.pinned| == |s.pinned|
  {
    match a
    case Add(i) => s.(tasks := s.tasks[i := s.tasks[i].(phase := Staging)])
    case Drop(i) => s.(tasks := s.tasks[i := s.tasks[i].(phase := Dropped)])
    case Stage(i) =>
      var t := s.tasks[i];
      var data := c.parts[t.pos];
      var s' := s.(tasks := s.tasks[i := t.(pos := t.pos + 1, off := t.off + |data|)]);
      if c.Async(t.pos) then s'.(flight := s.flight + [Piece(t.off, data)])
      else s'.(pinned := Splice(s.pinned, t.off, data))
    case Sub(i) =>
      s.(counter := FetchSub(s.counter),
         tasks := s.tasks[i := s.tasks[i].(phase := if s.counter == 1 then Last else Done)])
    case Post(i) =>
      var s' := s.(posts := s.posts + 1, tasks := s.tasks[i := s.tasks[i].(phase := Done)]);
      if c.asyncTarget then s'.(flight := s.flight + [Block]) else s'.(blocks := s.blocks + [s.pinned])
    case Land =>
      var s' := s.(flight := s.flight[1..]);
      match s.flight[0]
      case Piece(off, data) => s'.(pinned := Splice(s.pinned, off, data))
      case Block => s'.(blocks := s.blocks + [s.pinned])
  }

  // ---------------------------------------------------------------------------
  // What every step keeps

  // The pinned buffer once the staging copies in flight have landed.
  function Settled(pinned: seq<byte>, flight: seq<Flight>): (r: seq<byte>)
    requires forall f :: f in flight && f.Piece? ==> f.off + |f.data| <= |pinned|
    ensures |r| == |pinned|
    decreases |flight|
  {
    if flight == [] then pinned
    else
      assert forall f :: f in flight[1..] ==> f in flight;
      match flight[0]
      case Piece(off, data) => Settled(Splice(pinned, off, data), flight[1..])
      case Block => Settled(pinned, flight[1..])
  }

  lemma {:induction false} SettledAppend(pinned: seq<byte>, flight: seq<Flight>, f: Flight)
    requires forall g :: g in flight + [f] && g.Piece? ==> g.off + |g.data| <= |pinned|
    ensures forall g :: g in flight && g.Piece? ==> g.off + |g.data| <= |pinned|
    ensures Settled(pinned, flight + [f]) ==
            if f.Piece? then Splice(Settled(pinned, flight), f.off, f.data) else Settled(pinned, flight)
    decreases |flight|
  {
    assert f in flight + [f];
    forall g | g in flight && g.Piece? ensures g.off + |g.data| <= |pinned| { assert g in flight + [f]; }
    if flight == [] {
      assert flight + [f] == [f];
    } else {
      assert (flight + [f])[1..] == flight[1..] + [f];
      assert forall g :: g in flight[1..] + [f] ==> g in flight + [f];
      SettledAppend(if flight[0].Piece? then Splice(pinned, flight[0].off, flight[0].data) else pinned, flight[1..], f);
    }
  }

  predicate CountedDown(t: Task) {
    t.phase.Last? || t.phase.Done?
  }

  function Downs(tasks: seq<Task>, n: nat): (r: nat)
    requires n <= |tasks|
    ensures r <= n
  {
    if n == 0 then 0 else Downs(tasks, n - 1) + if CountedDown(tasks[n - 1]) then 1 else 0
  }

  lemma {:induction false} DownsUpdate(tasks: seq<Task>, n: nat, i: nat, t: Task)
    requires n <= |tasks| && i < |tasks|
    ensures Downs(tasks[i := t], n) ==
            Downs(tasks, n)
            + if i < n then (if CountedDown(t) then 1 else 0) - (if CountedDown(tasks[i]) then 1 else 0) else 0
  {
    if n > 0 { DownsUpdate(tasks, n - 1, i, t); }
  }

  lemma {:induction false} DownsFull(tasks: seq<Task>, n: nat)
    requires n <= |tasks| && Downs(tasks, n) == n
    ensures forall i :: 0 <= i < n ==> CountedDown(tasks[i])
  {
    if n > 0 { DownsFull(tasks, n - 1); }
  }

  lemma {:induction false} DownsLess(tasks: seq<Task>, n: nat, i: nat)
    requires i < n <= |tasks| && !CountedDown(tasks[i])
    ensures Downs(tasks, n) < n
  {
    if i < n - 1 { DownsLess(tasks, n - 1, i); }
  }

  ghost predicate TaskOk(c: Config, i: nat, t: Task)
    requires c.Divided() && i < |c.segs|
  {
    var seg := c.segs[i];
    && seg.lo <= t.pos <= seg.hi && t.off == Off(c.parts, t.pos)
    && (CountedDown(t) ==> t.pos == seg.hi)
    && (t.phase.NotAdded? || t.phase.Dropped? ==> t.pos == seg.lo)
  }

  ghost predicate OneLast(s: State) {
    && (forall i :: 0 <= i < |s.tasks| && s.tasks[i].phase.Last? ==> s.counter == 0 && s.posts == 0)
    && (forall i, j :: 0 <= i < j < |s.tasks| && s.tasks[i].phase.Last? ==> !s.tasks[j].phase.Last?)
  }

  // Tasks and counter.
  ghost predicate Control(c: Config, s: State)
    requires c.Divided()
  {
    && |s.pinned| == Total(c.parts) && |s.tasks| == |c.segs|
    && (forall i :: 0 <= i < |s.tasks| ==> TaskOk(c, i, s.tasks[i]))
    && OneLast(s)
    && s.counter + Downs(s.tasks, |s.tasks|) == Min(|c.parts|, c.workers)
    && s.posts <= 1 && (s.posts == 1 ==> s.counter == 0)
    && (s.counter == 0 && c.parts != [] && s.posts == 0 ==> exists i :: 0 <= i < |s.tasks| && s.tasks[i].phase.Last?)
    && (c.parts == [] ==> s.posts == 0)
  }

  // Every byte a task has staged is the input's.
  ghost predicate Written(c: Config, settled: seq<byte>, tasks: seq<Task>)
    requires c.Divided() && |settled| == Total(c.parts) && |tasks| == |c.segs|
  {
    forall i, p :: 0 <= i < |tasks| && c.segs[i].off <= p < tasks[i].off && p < |settled| ==>
      settled[p] == Concat(c.parts)[p]
  }

  ghost predicate PieceOk(c: Config, f: Flight) {
    f.Piece? ==> f.off + |f.data| <= Total(c.parts) && f.data == Concat(c.parts)[f.off..f.off + |f.data|]
  }

  ghost predicate FromDevice(c: Config, f: Flight) {
    f.Piece? ==> exists k :: 0 <= k < |c.parts| && c.Async(k) && f.data == c.parts[k]
  }

  // Staging, once landed.
  ghost predicate Data(c: Config, s: State)
    requires c.Divided() && |s.pinned| == Total(c.parts) && |s.tasks| == |c.segs|
  {
    && (forall f :: f in s.flight ==> PieceOk(c, f))
    && (forall f :: f in s.flight ==> FromDevice(c, f))
    && Written(c, Settled(s.pinned, s.flight), s.tasks)
  }

  // Block copies: one per completion, the last entry of the stream while it has not landed.
  ghost predicate Blocks(c: Config, flight: seq<Flight>, posts: nat, blocks: seq<seq<byte>>) {
    && (!c.asyncTarget ==> forall f :: f in flight ==> f.Piece?)
    && (forall j :: 0 <= j < |flight| && flight[j].Block? ==> j == |flight| - 1 && posts == 1)
    && |blocks| + (if flight != [] && flight[|flight| - 1].Block? then 1 else 0) == posts
    && (forall b :: b in blocks ==> |b| == Total(c.parts))
    && (c.asyncTarget || c.Prompt() ==> forall b :: b in blocks ==> b == Concat(c.parts))
  }

  ghost predicate Inv(c: Config, s: State) {
    c.Divided() && Control(c, s) && Data(c, s) && Blocks(c, s.flight, s.posts, s.blocks)
  }

  lemma {:induction false} StartInv(c: Config, s: State)
    requires c.Divided() && Start(c, s)
    ensures Inv(c, s)
  {
    NoDowns(s.tasks, |s.tasks|);
  }

  lemma {:induction false} NoDowns(tasks: seq<Task>, n: nat)
    requires n <= |tasks| && forall i :: 0 <= i < |tasks| ==> tasks[i].phase.NotAdded?
    ensures Downs(tasks, n) == 0
  {
    if n > 0 { NoDowns(tasks, n - 1); }
  }

  // The counter reaches zero only when every segment has been staged: none dropped, none still running.
  lemma {:induction false} ZeroMeansStaged(c: Config, s: State)
    requires c.Divided() && Control(c, s) && s.counter == 0
    ensures |c.segs| == Min(|c.parts|, c.workers)
    ensures forall i :: 0 <= i < |s.tasks| ==> CountedDown(s.tasks[i])
  {
    DownsFull(s.tasks, |s.tasks|);
  }

  lemma {:induction false} StagedMeansConcat(c: Config, s: State)
    requires c.Divided() && Control(c, s) && Data(c, s)
    requires forall i :: 0 <= i < |s.tasks| ==> CountedDown(s.tasks[i])
    ensures Settled(s.pinned, s.flight) == Concat(c.parts)
  {
    forall p | 0 <= p < |s.pinned| ensures Settled(s.pinned, s.flight)[p] == Concat(c.parts)[p] {
      var k := Owner(c.parts, |c.parts|, p);
      assert c.Staged(k);
      var i :| 0 <= i < |c.segs| && c.segs[i].lo <= k < c.segs[i].hi;
      var seg := c.segs[i];
      assert TaskOk(c, i, s.tasks[i]);
      OffMonotone(c.parts, seg.lo, k);
      OffMonotone(c.parts, k + 1, seg.hi);
    }
  }

  lemma {:induction false} ControlStep(c: Config, s: State, a: Action)
    requires c.Divided() && Control(c, s) && Enabled(c, s, a)
    ensures Control(c, Perform(c, s, a))
  {
    var s' := Perform(c, s, a);
    match a
    case Sub(i) => SubControl(c, s, i);
    case Post(i) => PostControl(c, s, i);
    case Land =>
    case Add(i) => MoveControl(c, s, s', i, s'.tasks[i]);
    case Drop(i) => MoveControl(c, s, s', i, s'.tasks[i]);
    case Stage(i) =>
      assert TaskOk(c, i, s.tasks[i]);
      MoveControl(c, s, s', i, s'.tasks[i]);
  }

  lemma {:induction false} PostControl(c: Config, s: State, i: nat)
    requires c.Divided() && Control(c, s) && Enabled(c, s, Post(i))
    ensures Control(c, Perform(c, s, Post(i)))
  {
    var s' := Perform(c, s, Post(i));
    DownsUpdate(s.tasks, |s.tasks|, i, s'.tasks[i]);
    assert TaskOk(c, i, s.tasks[i]);
  }

  // A task that has not counted down moves on.
  lemma {:induction false} MoveControl(c: Config, s: State, s': State, i: nat, t: Task)
    requires c.Divided() && Control(c, s) && i < |s.tasks|
    requires !CountedDown(s.tasks[i]) && !CountedDown(t) && TaskOk(c, i, t)
    requires s'.tasks == s.tasks[i := t] && |s'.pinned| == |s.pinned| && s'.counter == s.counter && s'.posts == s.posts
    ensures Control(c, s')
  {
    DownsUpdate(s.tasks, |s.tasks|, i, t);
    if s.counter == 0 && c.parts != [] && s.posts == 0 {
      var j :| 0 <= j < |s.tasks| && s.tasks[j].phase.Last?;
      assert s'.tasks[j].phase.Last?;
    }
  }

  lemma {:induction false} SubControl(c: Config, s: State, i: nat)
    requires c.Divided() && Control(c, s) && Enabled(c, s, Sub(i))
    ensures Control(c, Perform(c, s, Sub(i)))
  {
    var s' := Perform(c, s, Sub(i));
    DownsUpdate(s.tasks, |s.tasks|, i, s'.tasks[i]);
    DownsLess(s.tasks, |s.tasks|, i);
    assert s.counter > 0;
    assert s'.counter == s.counter - 1;
    assert s'.counter == 0 ==> s'.tasks[i].phase.Last?;
  }

  lemma {:induction false} StageConcat(c: Config, k: nat)
    requires k < |c.parts|
    ensures Off(c.parts, k + 1) <= Total(c.parts)
    ensures Concat(c.parts)[Off(c.parts, k)..Off(c.parts, k + 1)] == c.parts[k]
  {
    OffMonotone(c.parts, k + 1, |c.parts|);
    forall p | Off(c.parts, k) <= p < Off(c.parts, k + 1)
      ensures Concat(c.parts)[p] == c.parts[k][p - Off(c.parts, k)]
    {
      ConcatAt(c.parts, |c.parts|, k, p);
    }
  }

  lemma {:induction false} DataStep(c: Config, s: State, a: Action)
    requires c.Divided() && Control(c, s) && Data(c, s) && Enabled(c, s, a)
    ensures Data(c, Perform(c, s, a))
  {
    match a
    case Stage(i) => StageData(c, s, i);
    case Post(i) => if c.asyncTarget { SettledAppend(s.pinned, s.flight, Block); }
    case Land => assert forall f :: f in s.flight[1..] ==> f in s.flight;
    case _ =>
  }

  lemma {:induction false} StageData(c: Config, s: State, i: nat)
    requires c.Divided() && Control(c, s) && Data(c, s) && Enabled(c, s, Stage(i))
    ensures Data(c, Perform(c, s, Stage(i)))
  {
    hide Data, Perform;
    assert TaskOk(c, i, s.tasks[i]);
    if c.Async(s.tasks[i].pos) { StageIssued(c, s, i); } else { StageCopied(c, s, i); }
  }

  lemma {:induction false} StageIssued(c: Config, s: State, i: nat)
    requires c.Divided() && Control(c, s) && Data(c, s) && Enabled(c, s, Stage(i))
    requires s.tasks[i].pos < |c.parts| && c.Async(s.tasks[i].pos)
    ensures Data(c, Perform(c, s, Stage(i)))
  {
    var t := s.tasks[i];
    assert TaskOk(c, i, t);
    StageConcat(c, t.pos);
    var data := c.parts[t.pos];
    var f := Piece(t.off, data);
    StageWritten(c, Settled(s.pinned, s.flight), Splice(Settled(s.pinned, s.flight), t.off, data), s.tasks, i);
    assert PieceOk(c, f) && FromDevice(c, f);
    assert forall g :: g in s.flight + [f] ==> g in s.flight || g == f;
    SettledAppend(s.pinned, s.flight, f);
  }

  lemma {:induction false} StageCopied(c: Config, s: State, i: nat)
    requires c.Divided() && Control(c, s) && Data(c, s) && Enabled(c, s, Stage(i))
    requires s.tasks[i].pos < |c.parts| && !c.Async(s.tasks[i].pos)
    ensures Data(c, Perform(c, s, Stage(i)))
  {
    var s' := Perform(c, s, Stage(i));
    var t := s.tasks[i];
    assert TaskOk(c, i, t);
    StageConcat(c, t.pos);
    var data := c.parts[t.pos];
    forall p | 0 <= p < |s.pinned|
      ensures Settled(s'.pinned, s.flight)[p] == Settled(s.pinned, s.flight)[p]
              || Settled(s'.pinned, s.flight)[p] == Concat(c.parts)[p]
      ensures t.off <= p < t.off + |data| ==> Settled(s'.pinned, s.flight)[p] == Concat(c.parts)[p]
    {
      SettledAt(c, s.pinned, s'.pinned, s.flight, p);
    }
    StageWritten(c, Settled(s.pinned, s.flight), Settled(s'.pinned, s.flight), s.tasks, i);
  }

  // A byte written by the host stays as it is, or becomes the input's, when the copies in flight land.
  lemma {:induction false} SettledAt(c: Config, a: seq<byte>, b: seq<byte>, flight: seq<Flight>, p: nat)
    requires |a| == |b| == Total(c.parts) && p < |a| && forall f :: f in flight ==> PieceOk(c, f)
    requires forall f :: f in flight && f.Piece? ==> f.off + |f.data| <= |a|
    ensures a[p] == b[p] ==> Settled(b, flight)[p] == Settled(a, flight)[p]
    ensures b[p] == Concat(c.parts)[p] ==> Settled(b, flight)[p] == Concat(c.parts)[p]
    decreases |flight|
  {
    if flight != [] {
      assert PieceOk(c, flight[0]) && forall f :: f in flight[1..] ==> f in flight;
      match flight[0]
      case Piece(off, data) => SettledAt(c, Splice(a, off, data), Splice(b, off, data), flight[1..], p);
      case Block => SettledAt(c, a, b, flight[1..], p);
    }
  }

  lemma {:induction false} StageWritten(c: Config, settled: seq<byte>, settled': seq<byte>, tasks: seq<Task>, i: nat)
    requires c.Divided() && |settled| == |settled'| == Total(c.parts) && |tasks| == |c.segs| && i < |tasks|
    requires Written(c, settled, tasks) && TaskOk(c, i, tasks[i]) && tasks[i].pos < |c.parts|
    requires tasks[i].off + |c.parts[tasks[i].pos]| <= |settled|
    requires forall p :: 0 <= p < |settled| ==> settled'[p] == settled[p] || settled'[p] == Concat(c.parts)[p]
    requires forall p :: tasks[i].off <= p < tasks[i].off + |c.parts[tasks[i].pos]| ==>
      settled'[p] == Concat(c.parts)[p]
    ensures var t, data := tasks[i], c.parts[tasks[i].pos];
      Written(c, settled', tasks[i := t.(pos := t.pos + 1, off := t.off + |data|)])
  {}

  // Copies of nothing change nothing.
  lemma {:induction false} OnlyBlocks(pinned: seq<byte>, flight: seq<Flight>)
    requires forall f :: f in flight && f.Piece? ==> f.data == [] && f.off <= |pinned|
    ensures Settled(pinned, flight) == pinned
    decreases |flight|
  {
    if flight != [] {
      assert flight[0] in flight && forall f :: f in flight[1..] ==> f in flight;
      if flight[0].Piece? { assert Splice(pinned, flight[0].off, []) == pinned; }
      OnlyBlocks(pinned, flight[1..]);
    }
  }

  // If staging is over when it returns, the buffer is as it will be.
  lemma {:induction false} PromptSettled(c: Config, s: State)
    requires c.Divided() && Control(c, s) && Data(c, s) && c.Prompt()
    ensures Settled(s.pinned, s.flight) == s.pinned
  {
    forall f | f in s.flight && f.Piece? ensures f.data == [] && f.off <= |s.pinned| {
      assert FromDevice(c, f) && PieceOk(c, f);
    }
    OnlyBlocks(s.pinned, s.flight);
  }

  lemma {:induction false} BlocksStep(c: Config, s: State, a: Action)
    requires Inv(c, s) && Enabled(c, s, a)
    ensures var s' := Perform(c, s, a); Blocks(c, s'.flight, s'.posts, s'.blocks)
  {
    match a
    case Stage(i) =>
      if s.posts == 1 { ZeroMeansStaged(c, s); }
    case Post(i) => PostBlocks(c, s, i);
    case Land => LandBlocks(c, s);
    case _ =>
  }

  lemma {:induction false} PostBlocks(c: Config, s: State, i: nat)
    requires Inv(c, s) && Enabled(c, s, Post(i))
    ensures var s' := Perform(c, s, Post(i)); Blocks(c, s'.flight, s'.posts, s'.blocks)
  {
    ZeroMeansStaged(c, s);
    StagedMeansConcat(c, s);
    if !c.asyncTarget && c.Prompt() { PromptSettled(c, s); }
  }

  lemma {:induction false} LandBlocks(c: Config, s: State)
    requires Inv(c, s) && Enabled(c, s, Land)
    ensures var s' := Perform(c, s, Land); Blocks(c, s'.flight, s'.posts, s'.blocks)
  {
    var rest := s.flight[1..];
    assert forall f :: f in rest ==> f in s.flight;
    if s.flight[0].Block? {
      ZeroMeansStaged(c, s);
      StagedMeansConcat(c, s);
      assert rest == [];
      assert Settled(s.pinned, s.flight) == s.pinned;
    } else {
      assert forall j :: 0 <= j < |rest| ==> rest[j] == s.flight[j + 1];
    }
  }

  lemma {:induction false} StepInv(c: Config, s: State, a: Action)
    requires Inv(c, s) && Enabled(c, s, a)
    ensures Inv(c, Perform(c, s, a))
  {
    ControlStep(c, s, a);
    DataStep(c, s, a);
    BlocksStep(c, s, a);
  }

  // ---------------------------------------------------------------------------
  // One worker

  // Task 'i' has been added and has not finished.
  predicate Runnable(s: State, i: nat) {
    i < |s.tasks| && (s.tasks[i].phase.Staging? || s.tasks[i].phase.Last?)
  }

  function NextAction(c: Config, s: State, i: nat): Action
    requires Runnable(s, i) && |s.tasks| == |c.segs|
  {
    if s.tasks[i].phase.Last? then Post(i) else if s.tasks[i].pos == c.segs[i].hi then Sub(i) else Stage(i)
  }

  ghost predicate AnyDropped(s: State) {
    exists i :: 0 <= i < |s.tasks| && s.tasks[i].phase.Dropped?
  }

  lemma {:induction false} NextEnabled(c: Config, s: State, i: nat)
    requires Inv(c, s) && Runnable(s, i)
    ensures Enabled(c, s, NextAction(c, s, i))
  {
    assert TaskOk(c, i, s.tasks[i]);
    if s.tasks[i].phase.Staging? && s.tasks[i].pos < c.segs[i].hi { StageFits(c, s.tasks[i].pos); }
  }

  // No task runs once the completion has been posted.
  lemma {:induction false} RunnablePosts(c: Config, s: State, i: nat)
    requires Inv(c, s) && Runnable(s, i)
    ensures s.posts == 0
    ensures Perform(c, s, (NextEnabled(c, s, i); NextAction(c, s, i))).posts == if s.tasks[i].phase.Last? then 1 else 0
  {
    if s.posts == 1 { ZeroMeansStaged(c, s); }
  }

  // AddTask has been called for the first 'k' segments.
  ghost predicate AddedTo(s: State, k: nat) {
    forall i :: 0 <= i < |s.tasks| ==> (s.tasks[i].phase.NotAdded? <==> i >= k)
  }

  lemma {:induction false} NotAddedPosts(c: Config, s: State, i: nat)
    requires Inv(c, s) && i < |s.tasks| && s.tasks[i].phase.NotAdded?
    ensures s.posts == 0
  {
    if s.posts == 1 { ZeroMeansStaged(c, s); }
  }

  lemma {:induction false} WorkAdds(c: Config, s: State, a: Action, k: nat)
    requires |s.tasks| == |c.segs| && Enabled(c, s, a) && !a.Add? && !a.Drop? && AddedTo(s, k)
    ensures AddedTo(Perform(c, s, a), k)
  {}

  // Working never drops a task, nor does it take one back.
  lemma {:induction false} WorkDrops(c: Config, s: State, a: Action)
    requires |s.tasks| == |c.segs| && Enabled(c, s, a) && !a.Drop?
    ensures AnyDropped(Perform(c, s, a)) <==> AnyDropped(s)
  {
    var s' := Perform(c, s, a);
    if AnyDropped(s) {
      var i :| 0 <= i < |s.tasks| && s.tasks[i].phase.Dropped?;
      assert s'.tasks[i].phase.Dropped?;
    }
  }

  // The task about to issue the block copy finds the inputs side by side in the pinned buffer.
  lemma {:induction false} LastIsConcat(c: Config, s: State, i: nat)
    requires Inv(c, s) && c.Prompt() && i < |s.tasks| && s.tasks[i].phase.Last?
    ensures s.pinned == Concat(c.parts)
  {
    ZeroMeansStaged(c, s);
    StagedMeansConcat(c, s);
    PromptSettled(c, s);
  }

  // ---------------------------------------------------------------------------
  // Runs: any interleaving

  ghost predicate Legal(c: Config, s: State, acts: seq<Action>)
    requires |s.tasks| == |c.segs|
    decreases |acts|
  {
    acts != [] ==> Enabled(c, s, acts[0]) && Legal(c, Perform(c, s, acts[0]), acts[1..])
  }

  ghost function Exec(c: Config, s: State, acts: seq<Action>): (r: State)
    requires |s.tasks| == |c.segs| && Legal(c, s, acts)
    ensures |r.tasks| == |c.segs|
    decreases |acts|
  {
    if acts == [] then s else Exec(c, Perform(c, s, acts[0]), acts[1..])
  }

  lemma {:induction false} RunInv(c: Config, s: State, acts: seq<Action>)
    requires Inv(c, s) && Legal(c, s, acts)
    ensures Inv(c, Exec(c, s, acts))
    decreases |acts|
  {
    if acts != [] {
      StepInv(c, s, acts[0]);
      RunInv(c, Perform(c, s, acts[0]), acts[1..]);
    }
  }

  // Nothing is left to do.
  ghost predicate Quiet(c: Config, s: State)
    requires |s.tasks| == |c.segs|
  {
    forall a :: !Enabled(c, s, a)
  }

  // Under every interleaving: at most one completion; whoever is about to issue the block copy, or
  // has issued it, does so after every segment was staged in full; and the block carries the inputs
  // side by side unless the staging copies are still in flight when a host copy reads them.
  lemma {:induction false} CompletionSafety(c: Config, s: State, acts: seq<Action>)
    requires c.Valid() && Start(c, s) && Legal(c, s, acts)
    ensures var t := Exec(c, s, acts);
      && t.posts <= 1 && |t.blocks| <= t.posts
      && (t.posts == 1 || (exists i :: 0 <= i < |t.tasks| && t.tasks[i].phase.Last?) ==>
           forall i :: 0 <= i < |t.tasks| ==> t.tasks[i].pos == c.segs[i].hi)
      && (c.Prompt() || c.asyncTarget ==> forall b :: b in t.blocks ==> b == Concat(c.parts))
  {
    ValidDivided(c);
    StartInv(c, s);
    RunInv(c, s, acts);
    var t := Exec(c, s, acts);
    if t.counter == 0 { ZeroMeansStaged(c, t); }
    assert forall i :: 0 <= i < |t.tasks| ==> TaskOk(c, i, t.tasks[i]);
  }

  function Effort(c: Config, t: Task, i: nat): nat
    requires i < |c.segs|
  {
    var hi := c.segs[i].hi;
    match t.phase
    case NotAdded => 4 + 2 * if t.pos <= hi then hi - t.pos else 0
    case Staging => 3 + 2 * if t.pos <= hi then hi - t.pos else 0
    case Last => 2
    case _ => 0
  }

  function Work(c: Config, tasks: seq<Task>, n: nat): nat
    requires n <= |tasks| == |c.segs|
  {
    if n == 0 then 0 else Work(c, tasks, n - 1) + Effort(c, tasks[n - 1], n - 1)
  }

  lemma {:induction false} WorkUpdate(c: Config, tasks: seq<Task>, n: nat, i: nat, t: Task)
    requires c.Divided() && n <= |tasks| == |c.segs| && i < |tasks|
    ensures Work(c, tasks[i := t], n) ==
            Work(c, tasks, n) + if i < n then Effort(c, t, i) - Effort(c, tasks[i], i) else 0
  {
    if n > 0 { WorkUpdate(c, tasks, n - 1, i, t); }
  }

  function Remaining(c: Config, s: State): nat
    requires |s.tasks| == |c.segs|
  {
    Work(c, s.tasks, |s.tasks|) + |s.flight|
  }

  lemma {:induction false} StepShrinks(c: Config, s: State, a: Action)
    requires Inv(c, s) && Enabled(c, s, a)
    ensures Remaining(c, Perform(c, s, a)) < Remaining(c, s)
  {
    if !a.Land? {
      EffortShrinks(c, s, a);
      hide Inv, Perform, Enabled, Effort;
      WorkUpdate(c, s.tasks, |s.tasks|, a.i, Perform(c, s, a).tasks[a.i]);
    }
  }

  lemma {:induction false} EffortShrinks(c: Config, s: State, a: Action)
    requires Inv(c, s) && Enabled(c, s, a) && !a.Land?
    ensures a.i < |s.tasks| && c.Divided() && |s.tasks| == |c.segs|
    ensures var s' := Perform(c, s, a);
      && s'.tasks == s.tasks[a.i := s'.tasks[a.i]]
      && Effort(c, s'.tasks[a.i], a.i) + |s'.flight| < Effort(c, s.tasks[a.i], a.i) + |s.flight|
  {
    hide Data, Blocks;
    assert TaskOk(c, a.i, s.tasks[a.i]);
  }

  // No run goes on for ever.
  lemma {:induction false} RunsEnd(c: Config, s: State, acts: seq<Action>)
    requires Inv(c, s) && Legal(c, s, acts)
    ensures |acts| + Remaining(c, Exec(c, s, acts)) <= Remaining(c, s)
    decreases |acts|
  {
    if acts != [] {
      StepInv(c, s, acts[0]);
      StepShrinks(c, s, acts[0]);
      RunInv(c, s, acts);
      RunsEnd(c, Perform(c, s, acts[0]), acts[1..]);
    }
  }

  lemma {:induction false} QuietPhases(c: Config, s: State)
    requires Inv(c, s) && Quiet(c, s)
    ensures s.flight == []
    ensures forall i :: 0 <= i < |s.tasks| ==> s.tasks[i].phase.Done? || s.tasks[i].phase.Dropped?
  {
    assert s.flight != [] ==> PieceOk(c, s.flight[0]);
    assert !Enabled(c, s, Land);
    forall i | 0 <= i < |s.tasks| ensures s.tasks[i].phase.Done? || s.tasks[i].phase.Dropped? {
      assert TaskOk(c, i, s.tasks[i]);
      assert !Enabled(c, s, Post(i)) && !Enabled(c, s, Sub(i)) && !Enabled(c, s, Stage(i));
      if s.tasks[i].phase.Staging? {
        StageFits(c, s.tasks[i].pos);
        assert false;
      }
      if s.tasks[i].phase.NotAdded? {
        var j := FirstNotAdded(s, i);
        assert Enabled(c, s, Add(j));
      }
    }
  }

  lemma {:induction false} StageFits(c: Config, k: nat)
    requires k < |c.parts|
    ensures Off(c.parts, k) + |c.parts[k]| <= Total(c.parts)
  {
    OffMonotone(c.parts, k + 1, |c.parts|);
  }

  lemma {:induction false} FirstNotAdded(s: State, i: nat) returns (j: nat)
    requires i < |s.tasks| && s.tasks[i].phase.NotAdded?
    ensures NextToAdd(s, j)
    decreases i
  {
    if k: nat :| k < i && s.tasks[k].phase.NotAdded? { j := FirstNotAdded(s, k); } else { j := i; }
  }

  // A flush whose tasks have all run has posted exactly one completion if no AddTask failed and the
  // number of segments is the number the countdown started from, and none otherwise.
  lemma {:induction false} CompletionCount(c: Config, s: State, acts: seq<Action>)
    requires c.Valid() && Start(c, s) && Legal(c, s, acts) && Quiet(c, Exec(c, s, acts))
    ensures var t := Exec(c, s, acts);
      && (t.posts == 1 <==> Completes(|c.parts|, c.workers) && !AnyDropped(t))
      && (t.posts == 1 && (c.Prompt() || c.asyncTarget) ==> t.blocks == [Concat(c.parts)])
  {
    ValidDivided(c);
    StartInv(c, s);
    RunInv(c, s, acts);
    var t := Exec(c, s, acts);
    QuietCount(c, t);
  }

  lemma {:induction false} QuietCount(c: Config, t: State)
    requires Inv(c, t) && Quiet(c, t)
    ensures t.posts == 1 <==> Full(c) && !AnyDropped(t)
    ensures t.posts == 1 && (c.Prompt() || c.asyncTarget) ==> t.blocks == [Concat(c.parts)]
  {
    QuietPhases(c, t);
    if t.posts == 1 {
      ZeroMeansStaged(c, t);
      assert |t.blocks| == 1 && t.blocks[0] in t.blocks;
    } else if !AnyDropped(t) {
      AllDown(t.tasks, |t.tasks|);
    }
  }

  // Once every task has been handed out and none is left to run, the completion has come or never will.
  lemma {:induction false} StuckCount(c: Config, t: State)
    requires Inv(c, t) && c.HostOnly() && !c.asyncTarget && AddedTo(t, |c.segs|)
    requires forall i :: 0 <= i < |t.tasks| ==> !Runnable(t, i)
    ensures t.posts == 1 <==> Full(c) && !AnyDropped(t)
  {
    assert forall f :: f !in t.flight;
    forall a ensures !Enabled(c, t, a) {
      if a.Stage? || a.Sub? || a.Post? { assert a.i < |t.tasks| ==> !Runnable(t, a.i); }
    }
    QuietCount(c, t);
  }

  // A completion is posted only by a flush whose tasks were all handed out, as many as the counter started from.
  lemma {:induction false} PostedFull(c: Config, t: State)
    requires Inv(c, t) && t.posts == 1
    ensures Full(c) && !AnyDropped(t)
  {
    ZeroMeansStaged(c, t);
  }

  lemma {:induction false} AllDown(tasks: seq<Task>, n: nat)
    requires n <= |tasks| && forall i :: 0 <= i < n ==> CountedDown(tasks[i])
    ensures Downs(tasks, n) == n
  {
    if n > 0 { AllDown(tasks, n - 1); }
  }

  // ---------------------------------------------------------------------------
  // Staging from device memory into a host tensor

  // Byte 'p' belongs to an input that is staged through the stream, and is still 'junk'.
  ghost predicate Stalled(c: Config, s: State, p: nat, junk: byte) {
    && Inv(c, s) && !AnyDropped(s) && p < |s.pinned| && s.pinned[p] == junk
    && (exists k :: 0 <= k < |c.parts| && c.Async(k) && Off(c.parts, k) <= p < Off(c.parts, k + 1))
    && forall b :: b in s.blocks ==> p < |b| && b[p] == junk
  }

  lemma {:induction false} StallStep(c: Config, s: State, p: nat, junk: byte, a: Action)
    requires !c.asyncTarget && Stalled(c, s, p, junk)
    requires Enabled(c, s, a) && !a.Land? && !a.Drop?
    ensures Stalled(c, Perform(c, s, a), p, junk) && Remaining(c, Perform(c, s, a)) < Remaining(c, s)
  {
    var s' := Perform(c, s, a);
    StallByte(c, s, p, junk, a);
    hide Inv, Perform, Enabled, Remaining, AnyDropped;
    StepInv(c, s, a);
    StepShrinks(c, s, a);
    WorkDrops(c, s, a);
  }

  // Staging some other input leaves the byte alone, and a block copy finds it so.
  lemma {:induction false} StallByte(c: Config, s: State, p: nat, junk: byte, a: Action)
    requires !c.asyncTarget && Stalled(c, s, p, junk)
    requires Enabled(c, s, a) && !a.Land? && !a.Drop?
    ensures p < |Perform(c, s, a).pinned| && Perform(c, s, a).pinned[p] == junk
    ensures forall b :: b in Perform(c, s, a).blocks ==> p < |b| && b[p] == junk
  {
    hide Control, Data, Blocks, AnyDropped;
    if a.Stage? && !c.Async(s.tasks[a.i].pos) {
      var t := s.tasks[a.i];
      TaskAt(c, s, a.i);
      var k :| 0 <= k < |c.parts| && c.Async(k) && Off(c.parts, k) <= p < Off(c.parts, k + 1);
      if t.off <= p < t.off + |c.parts[t.pos]| { OwnerUnique(c.parts, k, t.pos, p); }
    }
  }

  lemma {:induction false} TaskAt(c: Config, s: State, i: nat)
    requires Inv(c, s) && i < |s.tasks|
    ensures |s.tasks| == |c.segs| && s.tasks[i].off == Off(c.parts, s.tasks[i].pos)
  {
    assert TaskOk(c, i, s.tasks[i]);
  }

  // A run in which nothing lands before the completion, so that the byte is the one of the buffer as allocated.
  lemma {:induction false} StallStream(c: Config, s: State, p: nat, junk: byte) returns (acts: seq<Action>)
    requires !c.asyncTarget && Stalled(c, s, p, junk)
    ensures Legal(c, s, acts) && Stalled(c, Exec(c, s, acts), p, junk)
    ensures forall a :: Enabled(c, Exec(c, s, acts), a) ==> a.Land? || a.Drop?
    decreases Remaining(c, s)
  {
    if a :| Enabled(c, s, a) && !a.Land? && !a.Drop? {
      StallStep(c, s, p, junk, a);
      var rest := StallStream(c, Perform(c, s, a), p, junk);
      acts := [a] + rest;
      assert acts[1..] == rest;
    } else {
      acts := [];
    }
  }

  lemma {:induction false} StallCount(c: Config, t: State)
    requires Inv(c, t) && !AnyDropped(t) && !c.asyncTarget && Full(c)
    requires forall a :: Enabled(c, t, a) ==> a.Land? || a.Drop?
    ensures t.posts == 1 && |t.blocks| == 1
  {
    forall i | 0 <= i < |t.tasks| ensures t.tasks[i].phase.Done? {
      assert TaskOk(c, i, t.tasks[i]);
      assert !Enabled(c, t, Post(i)) && !Enabled(c, t, Sub(i)) && !Enabled(c, t, Stage(i));
      if t.tasks[i].phase.Staging? {
        StageFits(c, t.tasks[i].pos);
        assert false;
      }
      if t.tasks[i].phase.NotAdded? {
        var j := FirstNotAdded(t, i);
        assert Enabled(c, t, Add(j));
      }
    }
    AllDown(t.tasks, |t.tasks|);
    if t.flight != [] { assert t.flight[|t.flight| - 1] in t.flight; }
  }

  ghost predicate AlwaysConcat(c: Config)
  {
    forall s, acts :: Start(c, s) && Legal(c, s, acts) ==>
      forall b :: b in Exec(c, s, acts).blocks ==> b == Concat(c.parts)
  }

  // The return values of the staging copies are dropped, so the block copy does not wait for them.
  // It is right in every run exactly when it cannot overtake them: only inputs without bytes are staged
  // through the stream, or the block copy goes through it as well, or there is no block copy.
  lemma {:induction false} StagingIsSafe(c: Config)
    requires c.Valid()
    ensures AlwaysConcat(c) <==> c.Prompt() || c.asyncTarget || !Completes(|c.parts|, c.workers)
  {
    ValidDivided(c);
    if c.Prompt() || c.asyncTarget || !Full(c) {
      forall s, acts | Start(c, s) && Legal(c, s, acts)
        ensures forall b :: b in Exec(c, s, acts).blocks ==> b == Concat(c.parts)
      {
        StartInv(c, s);
        RunInv(c, s, acts);
        RightBlocks(c, Exec(c, s, acts));
      }
    } else {
      var s, acts := StaleBlock(c);
    }
  }

  lemma {:induction false} RightBlocks(c: Config, t: State)
    requires Inv(c, t)
    requires c.Prompt() || c.asyncTarget || !Full(c)
    ensures forall b :: b in t.blocks ==> b == Concat(c.parts)
  {
    forall b | b in t.blocks ensures b == Concat(c.parts) {
      ZeroMeansStaged(c, t);
    }
  }

  // One input with bytes, staged through the stream, is enough, wherever it is in the list.
  lemma {:induction false} StaleBlock(c: Config) returns (s: State, acts: seq<Action>)
    requires c.Divided() && !c.Prompt() && !c.asyncTarget && Full(c)
    ensures Start(c, s) && Legal(c, s, acts)
    ensures exists b :: b in Exec(c, s, acts).blocks && b != Concat(c.parts)
  {
    var k :| 0 <= k < |c.parts| && c.Async(k) && c.parts[k] != [];
    var p := Off(c.parts, k);
    OffMonotone(c.parts, k + 1, |c.parts|);
    var junk: byte := if Concat(c.parts)[p] == 0 then 1 else 0;
    var tasks := seq(|c.segs|, i requires 0 <= i < |c.segs| => Task(NotAdded, c.segs[i].lo, c.segs[i].off));
    s := State(seq(Total(c.parts), _ => junk), tasks, Min(|c.parts|, c.workers), [], 0, []);
    StartInv(c, s);
    acts := StallStream(c, s, p, junk);
    var t := Exec(c, s, acts);
    StallCount(c, t);
    assert t.blocks[0] in t.blocks;
  }
}
