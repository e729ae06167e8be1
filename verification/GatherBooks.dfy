// What the collector owes: which bytes of which tensor are written, in flight, staged or still pending.

module GatherBooks {
  import opened Memory
  import opened Layout
  import opened Arithmetic
  import opened Runs
  import AsyncCopy
  import opened Segments

  datatype Deferred = Deferred(finalized: bool, pin: nat, tensor: nat, tensorType: MemoryType, run: Run)

  datatype Job = Job(tensor: nat, tensorType: MemoryType, run: Run, config: AsyncCopy.Config, proto: AsyncCopy.State)

  // A tensor: the input of every request, the block before, and the block as it is to become.
  datatype Tensor = Tensor(parts: seq<seq<byte>>, initial: seq<byte>, goal: seq<byte>) {
    ghost predicate Valid() {
      goal == Laid(parts, initial)
    }

    function Cap(): nat {
      |goal|
    }

    function Bytes(): nat {
      AcceptedBytes(parts, |goal|)
    }

    function OwnerOf(p: nat): (k: nat)
      requires p < Bytes()
      ensures k < |parts|
    {
      Owner(parts, Accepted(parts, |goal|, |parts|), p)
    }
  }

  // The call in progress. Bytes from 'next' on belong to requests not looked at yet.
  datatype Open = Idle | Busy(tensor: nat, next: nat, pinned: Run, kernel: Run)

  // 'before' is the memory as the collector finds it; its pinned buffers are allocated above.
  datatype Book = Book(before: Mem, tensors: map<nat, Tensor>, deferred: seq<Deferred>, jobs: seq<Job>, open: Open)

  datatype View = View(mem: Mem, stream: seq<Copy>, want: Want, live: seq<bool>, book: Book)

  // The memory once the stream has drained.
  ghost function Eventual(v: View): (r: Mem)
    ensures SameShape(v.mem, r)
  {
    Drained(v.mem, v.stream)
  }

  // ---------------------------------------------------------------------------

  ghost predicate RunOk(t: Tensor, run: Run) {
    && run.base + Size(run.list) <= t.Cap()
    && forall j :: 0 <= j < |run.list| ==> EntryOk(t, run, j)
  }

  // Entry 'j' of a run sits where its request belongs.
  ghost predicate EntryOk(t: Tensor, run: Run, j: nat)
    requires j < |run.list|
  {
    && run.list[j].req < |t.parts|
    && run.list[j].input.data == t.parts[run.list[j].req]
    && (run.list[j].input.data != [] ==> Off(t.parts, run.list[j].req) == run.base + Off(Parts(run.list), j))
  }

  // Input 'e' is the one of its request, and 'off' is where it goes.
  ghost predicate Belongs(t: Tensor, e: Pending, off: nat) {
    e.req < |t.parts| && e.input.data == t.parts[e.req] && off == Off(t.parts, e.req)
  }

  lemma {:induction false} BelongsAt(t: Tensor, k: nat, input: Input)
    requires k < |t.parts| && input.data == t.parts[k]
    ensures Belongs(t, Pending(k, input), Off(t.parts, k))
  {}

  // Nothing but the goal is promised; a promise is given up only for a request that has been failed.
  ghost predicate TensorOk(t: Tensor, w: seq<Option<byte>>, live: seq<bool>) {
    && t.Valid() && |w| == t.Cap() && |live| == |t.parts|
    && (forall p :: 0 <= p < |w| ==> w[p] == Some(t.goal[p]) || (w[p] == None && p < t.Bytes() && !live[t.OwnerOf(p)]))
  }

  ghost predicate TensorsOk(b: Book, want: Want, live: seq<bool>) {
    forall t :: t in b.tensors ==> t < |b.before| <= |want| && TensorOk(b.tensors[t], want[t], live)
  }

  ghost predicate DeferredOk(floor: nat, tensors: map<nat, Tensor>, want: Want, e: Mem, d: Deferred) {
    && floor <= d.pin < |e| && |e| == |want| && |e[d.pin]| == Size(d.run.list)
    && d.tensor in tensors && RunOk(tensors[d.tensor], d.run)
    && Aligned(want, Copy(d.tensor, d.run.base, Slice(d.pin, 0, Size(d.run.list))))
    && Holds(e, want, d.pin, 0, Size(d.run.list))
  }

  ghost predicate DeferredsOk(floor: nat, tensors: map<nat, Tensor>, ds: seq<Deferred>, want: Want, e: Mem) {
    forall j :: 0 <= j < |ds| && !ds[j].finalized ==> DeferredOk(floor, tensors, want, e, ds[j])
  }

  ghost predicate JobOk(tensors: map<nat, Tensor>, g: Job) {
    && g.tensor in tensors && RunOk(tensors[g.tensor], g.run)
  }

  // The protocol of every job is where its invariant says.
  ghost predicate JobsRun(gs: seq<Job>) {
    forall j :: 0 <= j < |gs| ==> JobRuns(gs[j])
  }

  ghost predicate JobRuns(g: Job) {
    && g.config.Valid() && g.config.parts == Parts(g.run.list) && g.config.HostOnly() && !g.config.asyncTarget
    && AsyncCopy.Inv(g.config, g.proto)
  }

  ghost predicate JobsOk(tensors: map<nat, Tensor>, gs: seq<Job>) {
    forall j :: 0 <= j < |gs| ==> JobOk(tensors, gs[j])
  }

  // The two runs have no byte in common.
  predicate Apart(a: Run, b: Run) {
    Size(a.list) == 0 || Size(b.list) == 0 || a.base + Size(a.list) <= b.base || b.base + Size(b.list) <= a.base
  }

  ghost predicate OpenOk(tensors: map<nat, Tensor>, open: Open) {
    open.Busy? ==>
      && open.tensor in tensors
      && Apart(open.pinned, open.kernel)
      && RunOk(tensors[open.tensor], open.pinned)
      && RunOk(tensors[open.tensor], open.kernel)
  }

  ghost predicate StreamOk(b: Book, stream: seq<Copy>) {
    forall c :: c in stream ==> Routed(b, c)
  }

  // Copies go into a tensor or a pinned buffer, from outside or from a pinned buffer.
  ghost predicate Routed(b: Book, c: Copy) {
    (c.dst in b.tensors || |b.before| <= c.dst) && (c.src.Slice? ==> |b.before| <= c.src.blk)
  }

  ghost predicate InDeferred(ds: seq<Deferred>, t: nat, p: int) {
    exists j :: 0 <= j < |ds| && !ds[j].finalized && ds[j].tensor == t && ds[j].run.Covers(p)
  }

  ghost predicate InJobs(gs: seq<Job>, t: nat, p: int) {
    exists j :: 0 <= j < |gs| && gs[j].proto.posts == 0 && gs[j].tensor == t && gs[j].run.Covers(p)
  }

  ghost predicate InOpen(tensors: map<nat, Tensor>, open: Open, t: nat, p: int) {
    && open.Busy? && open.tensor == t
    && (open.pinned.Covers(p) || open.kernel.Covers(p) || (t in tensors && open.next <= p < tensors[t].Bytes()))
  }

  ghost predicate Owed(b: Book, t: nat, p: int) {
    InDeferred(b.deferred, t, p) || InJobs(b.jobs, t, p) || InOpen(b.tensors, b.open, t, p)
  }

  ghost predicate Promise(b: Book, want: Want, e: Mem) {
    forall t, p :: t in b.tensors && t < |want| == |e| && 0 <= p < |want[t]| && p < |e[t]| ==>
      Okay(want[t][p], e[t][p]) || Owed(b, t, p)
  }

  // No block other than the tensors has been written, up to where the pinned buffers begin.
  ghost predicate AsBefore(b: Book, m: Mem) {
    |b.before| <= |m| && forall i :: 0 <= i < |b.before| && i !in b.tensors ==> m[i] == b.before[i]
  }

  // The ledger balances: every byte of every tensor is right once the stream drains, or somebody still owes it.
  ghost predicate Balanced(v: View) {
    && AsBefore(v.book, v.mem)
    && Sound(v.mem, v.stream, v.want)
    && StreamOk(v.book, v.stream)
    && TensorsOk(v.book, v.want, v.live)
    && DeferredsOk(|v.book.before|, v.book.tensors, v.book.deferred, v.want, Eventual(v))
    && JobsOk(v.book.tensors, v.book.jobs)
    && OpenOk(v.book.tensors, v.book.open)
    && Promise(v.book, v.want, Eventual(v))
  }

  lemma {:induction false} BalancedFacts(v: View)
    requires Balanced(v)
    ensures Sound(v.mem, v.stream, v.want) && SameShape(v.mem, v.want) && |v.book.before| <= |v.mem|
    ensures forall c :: c in v.stream ==> Fits(v.mem, c)
    ensures OpenOk(v.book.tensors, v.book.open)
    ensures forall t :: t in v.book.tensors ==>
      t < |v.book.before| && v.book.tensors[t].Valid() && |v.mem[t]| == v.book.tensors[t].Cap()
  {
    SoundFits(v.mem, v.stream, v.want);
    forall t | t in v.book.tensors ensures v.book.tensors[t].Valid() && |v.mem[t]| == v.book.tensors[t].Cap() {
      assert TensorOk(v.book.tensors[t], v.want[t], v.live);
    }
  }

  lemma {:induction false} BalancedTensor(v: View, t: nat)
    requires Balanced(v) && t in v.book.tensors
    ensures t < |v.book.before| <= |v.want| == |Eventual(v)| && TensorOk(v.book.tensors[t], v.want[t], v.live)
    ensures v.book.tensors[t].Valid()
    ensures Wanted(v.want, t, 0, v.book.tensors[t].goal) && |Eventual(v)[t]| == |v.want[t]|
  {
    TensorWanted(v.book, v.want, v.live, t);
  }

  // ---------------------------------------------------------------------------
  // Memory steps

  // A step of the machine that leaves the books alone and only writes wanted bytes.
  ghost predicate Moved(v: View, v': View) {
    && v' == v.(mem := v'.mem, stream := v'.stream)
    && Sound(v'.mem, v'.stream, v'.want)
    && StreamOk(v'.book, v'.stream)
    && AsBefore(v'.book, v'.mem)
    && Better(Eventual(v), Eventual(v'), v.want)
  }

  lemma {:induction false} BetterDeferreds(b: Book, want: Want, e: Mem, e': Mem)
    requires DeferredsOk(|b.before|, b.tensors, b.deferred, want, e) && Better(e, e', want)
    ensures DeferredsOk(|b.before|, b.tensors, b.deferred, want, e')
  {
    forall j | 0 <= j < |b.deferred| && !b.deferred[j].finalized
      ensures DeferredOk(|b.before|, b.tensors, want, e', b.deferred[j])
    {
      var d := b.deferred[j];
      assert DeferredOk(|b.before|, b.tensors, want, e, d);
      BetterHolds(e, e', want, d.pin, 0, Size(d.run.list));
    }
  }

  lemma {:induction false} BetterPromise(b: Book, want: Want, e: Mem, e': Mem)
    requires Promise(b, want, e) && Better(e, e', want)
    ensures Promise(b, want, e')
  {
    forall t, p | t in b.tensors && t < |want| == |e'| && 0 <= p < |want[t]| && p < |e'[t]|
      ensures Okay(want[t][p], e'[t][p]) || Owed(b, t, p)
    {
      assert Okay(want[t][p], e[t][p]) || Owed(b, t, p);
      assert e'[t][p] == e[t][p] || Okay(want[t][p], e'[t][p]);
    }
  }

  lemma {:induction false} MoveKeeps(v: View, v': View)
    requires Balanced(v) && Moved(v, v')
    ensures Balanced(v')
  {
    BetterDeferreds(v.book, v.want, Eventual(v), Eventual(v'));
    BetterPromise(v.book, v.want, Eventual(v), Eventual(v'));
  }

  // Copies in flight do not touch other blocks.
  lemma {:induction false} ApplyAsBefore(b: Book, m: Mem, ops: seq<Copy>)
    requires AsBefore(b, m) && StreamOk(b, ops) && forall c :: c in ops ==> Fits(m, c)
    ensures AsBefore(b, Apply(m, ops))
  {
    forall i | 0 <= i < |b.before| && i !in b.tensors ensures Apply(m, ops)[i] == b.before[i] {
      assert forall c :: c in ops ==> Routed(b, c);
      UntouchedKeeps(m, ops, i);
    }
  }

  // A block that is no tensor yet is as it was before, and stays so.
  lemma {:induction false} BlockBefore(v: View, t: nat)
    requires Balanced(v) && t < |v.book.before| && t !in v.book.tensors
    ensures t < |v.mem| && v.mem[t] == v.book.before[t]
    ensures t < |Eventual(v)| && Eventual(v)[t] == v.book.before[t]
  {
    BalancedFacts(v);
    ApplyAsBefore(v.book, v.mem, v.stream);
  }

  lemma {:induction false} LandMoves(v: View, k: nat)
    requires Sound(v.mem, v.stream, v.want) && StreamOk(v.book, v.stream) && AsBefore(v.book, v.mem) && k <= |v.stream|
    ensures (forall c :: c in v.stream[..k] ==> Fits(v.mem, c))
    ensures var v' := v.(mem := Apply(v.mem, v.stream[..k]), stream := v.stream[k..]);
      Moved(v, v') && Eventual(v') == Eventual(v)
  {
    SoundFits(v.mem, v.stream, v.want);
    LandSound(v.mem, v.stream, v.want, k);
    BetterRefl(Eventual(v), v.want);
    assert forall c :: c in v.stream[k..] ==> c in v.stream;
    assert forall c :: c in v.stream[..k] ==> c in v.stream;
    ApplyAsBefore(v.book, v.mem, v.stream[..k]);
  }

  lemma {:induction false} LandKeeps(v: View, k: nat)
    requires Balanced(v) && k <= |v.stream|
    ensures (forall c :: c in v.stream[..k] ==> Fits(v.mem, c))
    ensures var v' := v.(mem := Apply(v.mem, v.stream[..k]), stream := v.stream[k..]);
      Balanced(v') && Eventual(v') == Eventual(v) && SameShape(v.mem, v'.mem)
  {
    LandMoves(v, k);
    MoveKeeps(v, v.(mem := Apply(v.mem, v.stream[..k]), stream := v.stream[k..]));
  }

  // A copy handed to CopyBuffer, whether it is done at once or goes on the stream.
  lemma {:induction false} CopyMoves(v: View, c: Copy, async: bool)
    requires Sound(v.mem, v.stream, v.want) && StreamOk(v.book, v.stream) && AsBefore(v.book, v.mem)
    requires Aligned(v.want, c) && Fits(v.mem, c) && Routed(v.book, c)
    requires Fed(if async then Eventual(v) else v.mem, v.want, c)
    ensures var v' := if async then v.(stream := v.stream + [c]) else v.(mem := Do(v.mem, c));
      Moved(v, v') && Holds(Eventual(v'), v.want, c.dst, c.off, c.off + c.src.Len())
  {
    IssueSound(v.mem, v.stream, v.want, c, async);
  }

  lemma {:induction false} CopyKeeps(v: View, c: Copy, async: bool)
    requires Balanced(v) && Aligned(v.want, c) && Fits(v.mem, c) && Routed(v.book, c)
    requires Fed(if async then Eventual(v) else v.mem, v.want, c)
    ensures var v' := if async then v.(stream := v.stream + [c]) else v.(mem := Do(v.mem, c));
      && Balanced(v') && Better(Eventual(v), Eventual(v'), v.want) && Better(v.mem, v'.mem, v.want)
      && SameShape(v.mem, v'.mem)
      && Holds(Eventual(v'), v.want, c.dst, c.off, c.off + c.src.Len())
  {
    var v' := if async then v.(stream := v.stream + [c]) else v.(mem := Do(v.mem, c));
    CopyMoves(v, c, async);
    if !async { DoFed(v.mem, c, v.want); }
    MoveKeeps(v, v');
  }

  // ---------------------------------------------------------------------------
  // Promises given up

  function Forget(w: seq<Option<byte>>, lo: nat, hi: nat): (r: seq<Option<byte>>)
    requires lo <= hi <= |w|
    ensures |r| == |w| && forall p :: 0 <= p < |w| ==> r[p] == if lo <= p < hi then None else w[p]
  {
    w[..lo] + seq(hi - lo, i => None) + w[hi..]
  }

  // Nobody reads block 'i' any more, or yet.
  ghost predicate Unread(v: View, i: nat) {
    && (forall c :: c in v.stream && c.src.Slice? ==> c.src.blk != i)
    && (forall j :: 0 <= j < |v.book.deferred| && !v.book.deferred[j].finalized ==> v.book.deferred[j].pin != i)
  }

  // 'less' promises no more than before, and no less for the pinned buffers that are still to be read.
  ghost predicate Forgets(v: View, less: Want) {
    Weaker(v.want, less) && forall i :: |v.book.before| <= i < |less| ==> less[i] == v.want[i] || Unread(v, i)
  }

  lemma {:induction false} ForgetsWeaker(v: View, less: Want)
    requires Forgets(v, less)
    ensures Weaker(v.want, less) && |less| == |v.want|
  {}

  lemma {:induction false} ForgetsStays(v: View, v': View, less: Want)
    requires Forgets(v', less) && v'.want == v.want && v'.book == v.book && v'.stream == v.stream
    ensures Forgets(v, less)
  {
    forall i | |v.book.before| <= i < |less| ensures less[i] == v.want[i] || Unread(v, i) {}
  }

  lemma {:induction false} WeakerDeferreds(v: View, less: Want, e: Mem)
    requires DeferredsOk(|v.book.before|, v.book.tensors, v.book.deferred, v.want, e) && Forgets(v, less)
    ensures DeferredsOk(|v.book.before|, v.book.tensors, v.book.deferred, less, e)
  {
    forall j | 0 <= j < |v.book.deferred| && !v.book.deferred[j].finalized
      ensures DeferredOk(|v.book.before|, v.book.tensors, less, e, v.book.deferred[j])
    {
      var d := v.book.deferred[j];
      assert DeferredOk(|v.book.before|, v.book.tensors, v.want, e, d);
      assert less[d.pin] == v.want[d.pin];
      forall p | d.run.base <= p < d.run.base + Size(d.run.list)
        ensures less[d.tensor][p] == v.want[d.tensor][p] || less[d.tensor][p] == None {}
    }
  }

  lemma {:induction false} WeakerPromise(b: Book, want: Want, less: Want, e: Mem)
    requires Promise(b, want, e) && Weaker(want, less)
    ensures Promise(b, less, e)
  {
    forall t, p | t in b.tensors && t < |less| == |e| && 0 <= p < |less[t]| && p < |e[t]|
      ensures Okay(less[t][p], e[t][p]) || Owed(b, t, p)
    {
      assert less[t][p] == want[t][p] || less[t][p] == None;
    }
  }

  lemma {:induction false} ForgetKeeps(v: View, less: Want)
    requires Balanced(v) && Forgets(v, less) && TensorsOk(v.book, less, v.live)
    ensures Balanced(v.(want := less)) && Eventual(v.(want := less)) == Eventual(v)
  {
    SoundFits(v.mem, v.stream, v.want);
    assert forall c :: c in v.stream && c.src.Slice? && c.src.blk < |less| ==> Routed(v.book, c);
    SoundWeaken(v.mem, v.stream, v.want, less);
    WeakerDeferreds(v, less, Eventual(v));
    WeakerPromise(v.book, v.want, less, Eventual(v));
  }

  lemma {:induction false} ForgetTensors(b: Book, want: Want, live: seq<bool>, t: nat, lo: nat, hi: nat)
    requires TensorsOk(b, want, live) && t in b.tensors && lo <= hi <= b.tensors[t].Bytes()
    requires |live| == |b.tensors[t].parts| && forall p :: lo <= p < hi ==> !live[b.tensors[t].OwnerOf(p)]
    ensures t < |want| && hi <= |want[t]| && TensorsOk(b, want[t := Forget(want[t], lo, hi)], live)
  {
    assert TensorOk(b.tensors[t], want[t], live);
    var less := want[t := Forget(want[t], lo, hi)];
    forall u | u in b.tensors ensures TensorOk(b.tensors[u], less[u], live) {
      assert TensorOk(b.tensors[u], want[u], live);
      if u != t { assert less[u] == want[u]; }
    }
  }

  // A range of a tensor whose owners have all been failed.
  lemma {:induction false} ForgetRange(v: View, t: nat, lo: nat, hi: nat) returns (less: Want)
    requires Balanced(v) && t in v.book.tensors && lo <= hi <= v.book.tensors[t].Bytes()
    requires |v.live| == |v.book.tensors[t].parts| && forall p :: lo <= p < hi ==> !v.live[v.book.tensors[t].OwnerOf(p)]
    ensures Balanced(v.(want := less)) && Forgets(v, less) && Eventual(v.(want := less)) == Eventual(v)
    ensures t < |less| == |v.want| && hi <= |v.want[t]| && less == v.want[t := Forget(v.want[t], lo, hi)]
  {
    ForgetTensors(v.book, v.want, v.live, t, lo, hi);
    less := v.want[t := Forget(v.want[t], lo, hi)];
    ForgetKeeps(v, less);
  }

  // A block that nobody reads, such as a pinned buffer that is being filled.
  lemma {:induction false} ForgetBlock(v: View, i: nat, lo: nat, hi: nat)
    requires Balanced(v) && |v.book.before| <= i < |v.want| && lo <= hi <= |v.want[i]| && Unread(v, i)
    ensures var v' := v.(want := v.want[i := Forget(v.want[i], lo, hi)]);
      Balanced(v') && Forgets(v, v'.want) && Eventual(v') == Eventual(v)
  {
    var less := v.want[i := Forget(v.want[i], lo, hi)];
    forall u | u in v.book.tensors ensures TensorOk(v.book.tensors[u], less[u], v.live) {
      assert TensorOk(v.book.tensors[u], v.want[u], v.live);
    }
    ForgetKeeps(v, less);
  }

  lemma {:induction false} KillKeeps(v: View, live: seq<bool>)
    requires Balanced(v) && |live| == |v.live| && forall k :: 0 <= k < |live| && live[k] ==> v.live[k]
    ensures Balanced(v.(live := live)) && Eventual(v.(live := live)) == Eventual(v)
  {
    forall t | t in v.book.tensors ensures TensorOk(v.book.tensors[t], v.want[t], live) {
      assert TensorOk(v.book.tensors[t], v.want[t], v.live);
    }
  }

  // ---------------------------------------------------------------------------
  // What a run holds

  lemma {:induction false} GoalAt(t: Tensor, k: nat, p: nat)
    requires t.Valid() && k < |t.parts| && Off(t.parts, k) <= p < Off(t.parts, k + 1) <= t.Cap()
    ensures p < t.Bytes() && t.OwnerOf(p) == k && t.goal[p] == t.parts[k][p - Off(t.parts, k)]
  {
    var n := Accepted(t.parts, t.Cap(), |t.parts|);
    AcceptedIsPrefix(t.parts, t.Cap(), |t.parts|, k);
    OffMonotone(t.parts, k + 1, n);
    OwnerUnique(t.parts, k, t.OwnerOf(p), p);
    ConcatAt(t.parts, n, k, p);
  }

  // Byte 'p' of the tensor, if it lies in entry 'j' of a run.
  lemma {:induction false} EntryAt(t: Tensor, run: Run, j: nat, p: nat)
    requires t.Valid() && RunOk(t, run) && j < |run.list|
    requires run.base + Off(Parts(run.list), j) <= p < run.base + Off(Parts(run.list), j + 1)
    ensures run.Covers(p) && p < t.Bytes() && t.OwnerOf(p) == run.list[j].req
    ensures t.goal[p] == Parts(run.list)[j][p - run.base - Off(Parts(run.list), j)]
  {
    var parts := Parts(run.list);
    assert EntryOk(t, run, j);
    OffMonotone(parts, j + 1, |parts|);
    GoalAt(t, run.list[j].req, p);
  }

  lemma {:induction false} EntryOwner(t: Tensor, run: Run, p: nat) returns (j: nat)
    requires t.Valid() && RunOk(t, run) && run.Covers(p)
    ensures j < |run.list| && Off(Parts(run.list), j) <= p - run.base < Off(Parts(run.list), j + 1)
    ensures p < t.Bytes() && t.OwnerOf(p) == run.list[j].req
    ensures t.goal[p] == Parts(run.list)[j][p - run.base - Off(Parts(run.list), j)]
  {
    j := Owner(Parts(run.list), |run.list|, p - run.base);
    EntryAt(t, run, j, p);
  }

  lemma {:induction false} RunReqs(v: View, t: nat, run: Run)
    requires Balanced(v) && t in v.book.tensors && RunOk(v.book.tensors[t], run)
    ensures forall j :: 0 <= j < |run.list| ==> run.list[j].req < |v.live|
  {
    hide Balanced, Wanted;
    BalancedTensor(v, t);
    forall j | 0 <= j < |run.list| ensures run.list[j].req < |v.live| {
      assert EntryOk(v.book.tensors[t], run, j);
    }
  }

  ghost predicate AllDead(run: seq<Pending>, live: seq<bool>) {
    forall j :: 0 <= j < |run| ==> run[j].req < |live| ==> !live[run[j].req]
  }

  lemma {:induction false} RunOwners(t: Tensor, run: Run, live: seq<bool>)
    requires t.Valid() && RunOk(t, run) && |live| == |t.parts| && AllDead(run.list, live)
    ensures Size(run.list) > 0 ==> run.base + Size(run.list) <= t.Bytes()
    ensures forall p :: run.base <= p < run.base + Size(run.list) && p < t.Bytes() ==> !live[t.OwnerOf(p)]
  {
    if Size(run.list) > 0 { var _ := EntryOwner(t, run, run.base + Size(run.list) - 1); }
    forall p | run.base <= p < run.base + Size(run.list) && p < t.Bytes() ensures !live[t.OwnerOf(p)] {
      var j := EntryOwner(t, run, p);
    }
  }

  // 'data' is what is wanted at 'off' of block 'b'.
  ghost predicate Wanted(want: Want, b: nat, off: nat, data: seq<byte>) {
    && b < |want| && off + |data| <= |want[b]|
    && forall p :: off <= p < off + |data| ==> Okay(want[b][p], data[p - off])
  }

  lemma {:induction false} TensorWanted(b: Book, want: Want, live: seq<bool>, t: nat)
    requires TensorsOk(b, want, live) && t in b.tensors
    ensures b.tensors[t].Valid() && Wanted(want, t, 0, b.tensors[t].goal)
  {
    assert TensorOk(b.tensors[t], want[t], live);
  }

  lemma {:induction false} RunFits(t: Tensor, run: Run)
    requires RunOk(t, run)
    ensures run.base + Size(run.list) <= t.Cap()
  {}

  lemma {:induction false} EntryWanted(want: Want, t: nat, tensor: Tensor, run: Run, j: nat)
    requires tensor.Valid() && Wanted(want, t, 0, tensor.goal) && RunOk(tensor, run) && j < |run.list|
    ensures Off(Parts(run.list), j + 1) <= Size(run.list)
    ensures Wanted(want, t, run.base + Off(Parts(run.list), j), run.list[j].input.data)
  {
    hide RunOk, Off;
    var parts := Parts(run.list);
    var off, data := run.base + Off(parts, j), run.list[j].input.data;
    OffMonotone(parts, j + 1, |parts|);
    OffStep(parts, j);
    RunFits(tensor, run);
    forall p | off <= p < off + |data| ensures Okay(want[t][p], data[p - off]) {
      EntryAt(tensor, run, j, p);
      assert Okay(want[t][p], tensor.goal[p]);
    }
  }

  lemma {:induction false} RunWanted(want: Want, t: nat, tensor: Tensor, run: Run)
    requires tensor.Valid() && Wanted(want, t, 0, tensor.goal) && RunOk(tensor, run)
    ensures Wanted(want, t, run.base, Concat(Parts(run.list)))
  {
    var parts := Parts(run.list);
    forall p | run.base <= p < run.base + Size(run.list) ensures Okay(want[t][p], Concat(parts)[p - run.base]) {
      var j := EntryOwner(tensor, run, p);
      ConcatAt(parts, |parts|, j, p - run.base);
    }
  }

  lemma {:induction false} PieceWanted(want: Want, b: nat, off: nat, pieces: seq<seq<byte>>, i: nat)
    requires Wanted(want, b, off, Concat(pieces)) && i < |pieces|
    ensures Off(pieces, i) + |pieces[i]| <= Total(pieces)
    ensures Aligned(want, Copy(b, off + Off(pieces, i), Bytes(pieces[i])))
  {
    OffMonotone(pieces, i + 1, |pieces|);
    var lo := off + Off(pieces, i);
    forall p | lo <= p < lo + |pieces[i]| ensures Okay(want[b][p], pieces[i][p - lo]) {
      ConcatAt(pieces, |pieces|, i, p - off);
    }
  }

  // A run of no bytes may be moved anywhere.
  lemma {:induction false} EmptyRun(t: Tensor, run: Run, base: nat)
    requires RunOk(t, run) && Size(run.list) == 0 && base <= t.Cap()
    ensures RunOk(t, Run(base, run.list))
  {
    forall j | 0 <= j < |run.list| ensures EntryOk(t, Run(base, run.list), j) {
      assert EntryOk(t, run, j);
      OffMonotone(Parts(run.list), j + 1, |run.list|);
    }
  }

  lemma {:induction false} RunAppend(t: Tensor, run: Run, e: Pending, off: nat) returns (run': Run)
    requires RunOk(t, run) && Belongs(t, e, off) && off + |e.input.data| <= t.Cap()
    requires (Size(run.list) > 0 ==> run.base + Size(run.list) == off)
    ensures run' == Run(if Size(run.list) == 0 then off else run.base, run.list + [e]) && RunOk(t, run')
    ensures Size(run'.list) == Size(run.list) + |e.input.data|
    ensures Size(run'.list) > 0 ==> run'.base + Size(run'.list) == off + |e.input.data|
    ensures forall p :: run'.Covers(p) <==> run.Covers(p) || off <= p < off + |e.input.data|
  {
    var was := run;
    if Size(run.list) == 0 {
      EmptyRun(t, run, off);
      was := Run(off, run.list);
    }
    run' := Run(was.base, was.list + [e]);
    PartsAppend(run.list, e);
    forall j | 0 <= j < |run'.list| ensures EntryOk(t, run', j) {
      if j < |was.list| { assert EntryOk(t, was, j); }
    }
  }

  // Nothing has been given up.
  ghost predicate Certain(tensors: map<nat, Tensor>, want: Want) {
    forall t, p :: t in tensors && t < |want| && 0 <= p < |want[t]| ==> want[t][p].Some?
  }

  lemma {:induction false} CertainGrows(tensors: map<nat, Tensor>, want: Want, promise: seq<Option<byte>>, floor: nat)
    requires floor <= |want| && forall t :: t in tensors ==> t < floor
    ensures Certain(tensors, want) ==> Certain(tensors, want + [promise])
  {
    assert forall t :: t in tensors ==> (want + [promise])[t] == want[t];
  }

  lemma {:induction false} CertainReleased(tensors: map<nat, Tensor>, want: Want, want': Want, pin: nat, floor: nat)
    requires floor <= pin < |want| == |want'| && forall t :: t in tensors ==> t < floor
    requires forall i :: 0 <= i < |want| && i != pin ==> want'[i] == want[i]
    ensures Certain(tensors, want) ==> Certain(tensors, want')
  {}

  // An entry whose request has been failed is no longer promised; what the others are owed stands.
  lemma {:induction false} ForgetEntry(v: View, t: nat, run: Run, j: nat) returns (less: Want)
    requires Balanced(v) && t in v.book.tensors && RunOk(v.book.tensors[t], run) && j < |run.list|
    requires run.list[j].req < |v.live| && !v.live[run.list[j].req]
    ensures Balanced(v.(want := less)) && Forgets(v, less) && Eventual(v.(want := less)) == Eventual(v)
    ensures Off(Parts(run.list), j) <= Off(Parts(run.list), j + 1) <= Size(run.list)
    ensures t < |v.want| && run.base + Size(run.list) <= |v.want[t]| && Weaker(v.want, less)
    ensures Holds(Eventual(v), less, t, run.base + Off(Parts(run.list), j), run.base + Off(Parts(run.list), j + 1))
    ensures var lo, hi := run.base + Off(Parts(run.list), j), run.base + Off(Parts(run.list), j + 1);
      less == v.want[t := Forget(v.want[t], lo, hi)]
  {
    hide Balanced, Eventual, Weaker, Off, TensorOk, Wanted, RunOk;
    BalancedTensor(v, t);
    BalancedCap(v, t);
    var T, parts := v.book.tensors[t], Parts(run.list);
    RunFits(T, run);
    OffStep(parts, j);
    OffMonotone(parts, j + 1, |parts|);
    LiveCount(v, t);
    var lo, hi := run.base + Off(parts, j), run.base + Off(parts, j + 1);
    if lo == hi {
      less := v.want[t := Forget(v.want[t], lo, hi)];
      assert Forget(v.want[t], lo, hi) == v.want[t];
      assert less == v.want;
      WeakerRefl(v.want);
    } else {
      EntryAt(T, run, j, hi - 1);
      forall p | lo <= p < hi ensures p < T.Bytes() && !v.live[T.OwnerOf(p)] { EntryAt(T, run, j, p); }
      less := ForgetRange(v, t, lo, hi);
    }
  }

  lemma {:induction false} LiveCount(v: View, t: nat)
    requires Balanced(v) && t in v.book.tensors
    ensures |v.live| == |v.book.tensors[t].parts|
  {
    BalancedTensor(v, t);
  }

  // A run whose requests have all been failed.
  lemma {:induction false} ForgetRun(v: View, t: nat, run: Run) returns (less: Want)
    requires Balanced(v) && t in v.book.tensors && RunOk(v.book.tensors[t], run) && AllDead(run.list, v.live)
    ensures Balanced(v.(want := less)) && Forgets(v, less) && Eventual(v.(want := less)) == Eventual(v)
    ensures Holds(Eventual(v), less, t, run.base, run.base + Size(run.list))
    ensures t < |less| == |v.want| && forall u :: 0 <= u < |less| && u != t ==> less[u] == v.want[u]
  {
    var T := v.book.tensors[t];
    assert TensorOk(T, v.want[t], v.live);
    RunOwners(T, run, v.live);
    if Size(run.list) == 0 { less := v.want; } else { less := ForgetRange(v, t, run.base, run.base + Size(run.list)); }
  }

  // ---------------------------------------------------------------------------
  // Staging a run in a pinned buffer

  // 'pin' is meant to hold what the run is to write; nobody reads it yet.
  ghost predicate Staging(v: View, t: nat, run: Run, pin: nat) {
    && t in v.book.tensors && RunOk(v.book.tensors[t], run)
    && t < |v.book.before| <= pin < |v.want| && |v.want[pin]| == Size(run.list)
    && run.base + Size(run.list) <= |v.want[t]|
    && v.want[pin] == v.want[t][run.base..run.base + Size(run.list)]
    && Unread(v, pin)
  }

  lemma {:induction false} StagingFacts(v: View, t: nat, run: Run, pin: nat)
    requires Staging(v, t, run, pin)
    ensures pin < |v.want|
  {}

  lemma {:induction false} StagingMoves(v: View, v': View, t: nat, run: Run, pin: nat)
    requires Staging(v, t, run, pin) && v'.want == v.want && v'.book == v.book
    requires forall c :: c in v'.stream ==> c in v.stream || c.src.Bytes?
    ensures Staging(v', t, run, pin)
  {}

  lemma {:induction false} OpenRuns(v: View)
    requires Balanced(v) && v.book.open.Busy?
    ensures var t := v.book.open.tensor;
      && t in v.book.tensors && t < |v.book.before| <= |v.want| == |v.mem| && |v.want[t]| == v.book.tensors[t].Cap()
      && RunOk(v.book.tensors[t], v.book.open.pinned) && RunOk(v.book.tensors[t], v.book.open.kernel)
      && v.book.open.pinned.base + Size(v.book.open.pinned.list) <= |v.want[t]|
      && v.book.open.kernel.base + Size(v.book.open.kernel.list) <= |v.want[t]|
  {
    BalancedTensor(v, v.book.open.tensor);
  }

  lemma {:induction false} StagingCopy(v: View, t: nat, run: Run, pin: nat)
    requires Balanced(v) && Staging(v, t, run, pin)
    ensures var c := Copy(t, run.base, Slice(pin, 0, Size(run.list)));
      Fits(v.mem, c) && Aligned(v.want, c) && Routed(v.book, c)
  {
    hide Balanced, RunOk, Eventual, Unread, Size, TensorOk;
    BalancedFacts(v);
    var size := Size(run.list);
    forall p | run.base <= p < run.base + size ensures v.want[t][p] == v.want[pin][0 + (p - run.base)] {}
  }

  lemma {:induction false} StagingWanted(v: View, t: nat, run: Run, pin: nat, j: nat)
    requires Staging(v, t, run, pin) && j < |run.list|
    requires Off(Parts(run.list), j) + |run.list[j].input.data| <= Size(run.list)
    requires Wanted(v.want, t, run.base + Off(Parts(run.list), j), run.list[j].input.data)
    ensures Wanted(v.want, pin, Off(Parts(run.list), j), run.list[j].input.data)
  {
    var off, data := Off(Parts(run.list), j), run.list[j].input.data;
    forall p | off <= p < off + |data| ensures Okay(v.want[pin][p], data[p - off]) {
      assert Okay(v.want[t][run.base + p], data[run.base + p - (run.base + off)]);
    }
  }

  // Once staged, the second copy may be made as soon as the bytes are there.
  lemma {:induction false} StagedFeeds(v: View, t: nat, run: Run, pin: nat, m: Mem)
    requires Balanced(v) && Staging(v, t, run, pin) && SameShape(m, v.want) && Holds(m, v.want, pin, 0, Size(run.list))
    ensures Fed(m, v.want, Copy(t, run.base, Slice(pin, 0, Size(run.list))))
  {
    hide Balanced, RunOk, Eventual, Unread, Size;
    StagingCopy(v, t, run, pin);
    BalancedFacts(v);
    var c := Copy(t, run.base, Slice(pin, 0, Size(run.list)));
    FitsShape(v.mem, v.want, c);
    FitsShape(v.want, m, c);
    forall p | c.off <= p < c.off + c.src.Len() ensures Okay(v.want[t][p], Fetch(m, c)[p - c.off]) {
      assert Okay(v.want[pin][p - c.off], m[pin][p - c.off]);
    }
  }

  lemma {:induction false} StagedDeferred(v: View, tensorType: MemoryType, t: nat, run: Run, pin: nat)
    requires Balanced(v) && Staging(v, t, run, pin) && Holds(Eventual(v), v.want, pin, 0, Size(run.list))
    ensures DeferredOk(|v.book.before|, v.book.tensors, v.want, Eventual(v), Deferred(false, pin, t, tensorType, run))
  {
    hide Balanced, Aligned, Holds;
    StagingCopy(v, t, run, pin);
    BalancedFacts(v);
  }

  // Staging an entry failed: neither the buffer nor the tensor is promised its bytes.
  lemma {:induction false} ForgetStaged(v: View, t: nat, run: Run, pin: nat, j: nat) returns (less: Want)
    requires Balanced(v) && Staging(v, t, run, pin) && j < |run.list|
    requires run.list[j].req < |v.live| && !v.live[run.list[j].req]
    ensures Balanced(v.(want := less)) && Eventual(v.(want := less)) == Eventual(v)
    ensures Staging(v.(want := less), t, run, pin) && Weaker(v.want, less) && |less| == |v.want|
    ensures Off(Parts(run.list), j) <= Off(Parts(run.list), j + 1)
    ensures Holds(Eventual(v), less, pin, Off(Parts(run.list), j), Off(Parts(run.list), j + 1))
  {
    hide Balanced, RunOk, Eventual, Weaker, Size;
    var lo, hi := Off(Parts(run.list), j), Off(Parts(run.list), j + 1);
    BalancedFacts(v);
    var some := ForgetEntry(v, t, run, j);
    var v' := v.(want := some);
    assert some[pin] == v.want[pin];
    less := some[pin := Forget(some[pin], lo, hi)];
    ForgetBlock(v', pin, lo, hi);
    assert less[pin] == less[t][run.base..run.base + Size(run.list)];
    WeakerTrans(v.want, some, less);
  }

  // With nobody writing to the buffer any more, the second copy may be made now or go on the stream.
  lemma {:induction false} StagedReady(v: View, t: nat, run: Run, pin: nat)
    requires Balanced(v) && Staging(v, t, run, pin) && Holds(Eventual(v), v.want, pin, 0, Size(run.list))
    requires forall c :: c in v.stream ==> c.dst != pin
    ensures var c := Copy(t, run.base, Slice(pin, 0, Size(run.list)));
      Fits(v.mem, c) && Aligned(v.want, c) && Routed(v.book, c) && Fed(v.mem, v.want, c) && Fed(Eventual(v), v.want, c)
  {
    hide Balanced, Aligned, Fed, Routed, RunOk, Unread;
    BalancedFacts(v);
    StagingCopy(v, t, run, pin);
    QuietBlock(v.mem, v.stream, v.want, pin);
    StagedFeeds(v, t, run, pin, v.mem);
    StagedFeeds(v, t, run, pin, Eventual(v));
  }

  // ---------------------------------------------------------------------------
  // Entries of the books

  // The books change: whatever is no longer owed is right.
  lemma {:induction false} BookKeeps(v: View, b: Book)
    requires Balanced(v) && b.before == v.book.before && b.tensors == v.book.tensors
    requires OpenOk(b.tensors, b.open) && JobsOk(b.tensors, b.jobs)
    requires DeferredsOk(|b.before|, b.tensors, b.deferred, v.want, Eventual(v))
    requires forall t, p :: t in b.tensors && t < |v.want| && 0 <= p < |v.want[t]| && Owed(v.book, t, p) ==>
      Okay(v.want[t][p], Eventual(v)[t][p]) || Owed(b, t, p)
    ensures Balanced(v.(book := b)) && Eventual(v.(book := b)) == Eventual(v)
  {
    assert forall c :: c in v.stream ==> Routed(v.book, c);
  }

  lemma {:induction false} OpenKeeps(v: View, open: Open)
    requires Balanced(v) && OpenOk(v.book.tensors, open)
    requires forall t, p ::
      t in v.book.tensors && t < |v.want| && 0 <= p < |v.want[t]| && InOpen(v.book.tensors, v.book.open, t, p) ==>
      Okay(v.want[t][p], Eventual(v)[t][p]) || Owed(v.book.(open := open), t, p)
    ensures Balanced(v.(book := v.book.(open := open))) && Eventual(v.(book := v.book.(open := open))) == Eventual(v)
  {
    BookKeeps(v, v.book.(open := open));
  }

  ghost predicate RightAt(v: View, t: nat, p: nat) {
    && t < |v.want| && t < |Eventual(v)| && p < |v.want[t]| && p < |Eventual(v)[t]|
    && Okay(v.want[t][p], Eventual(v)[t][p])
  }

  // Bytes of the open tensor that are right once the stream drains, or in an open run, or not of the tensor.
  ghost predicate Placed(v: View, t: nat, lo: nat, hi: nat) {
    && v.book.open.Busy? && v.book.open.tensor == t && t in v.book.tensors
    && forall p: nat :: lo <= p < hi && p < v.book.tensors[t].Bytes() ==>
         RightAt(v, t, p) || v.book.open.pinned.Covers(p) || v.book.open.kernel.Covers(p)
  }

  lemma {:induction false} PlacedHolds(v: View, t: nat, lo: nat, hi: nat)
    requires Balanced(v) && v.book.open.Busy? && v.book.open.tensor == t && t in v.book.tensors
    requires Holds(Eventual(v), v.want, t, lo, hi)
    ensures Placed(v, t, lo, hi)
  {
    hide Balanced, TensorOk, Wanted;
    BalancedTensor(v, t);
    BalancedCap(v, t);
  }

  lemma {:induction false} BalancedCap(v: View, t: nat)
    requires Balanced(v) && t in v.book.tensors
    ensures t < |v.want| && |v.want[t]| == v.book.tensors[t].Cap()
  {
    BalancedTensor(v, t);
  }

  // The next request is done with.
  lemma {:induction false} AdvanceKeeps(v: View, t: nat, k: nat, hi: nat)
    requires Balanced(v) && t in v.book.tensors && k < |v.book.tensors[t].parts|
    requires v.book.open.Busy? && v.book.open.next == Off(v.book.tensors[t].parts, k)
    requires hi == Off(v.book.tensors[t].parts, k + 1) && Placed(v, t, v.book.open.next, hi)
    ensures var b := v.book.(open := v.book.open.(next := hi));
      Balanced(v.(book := b)) && Eventual(v.(book := b)) == Eventual(v)
  {
    OffMonotone(v.book.tensors[t].parts, k, k + 1);
    OpenKeeps(v, v.book.open.(next := hi));
  }

  // An input that does not fit has no byte in the tensor.
  lemma {:induction false} OverflowBytes(t: Tensor, k: nat)
    requires k < |t.parts| && Off(t.parts, k + 1) > t.Cap()
    ensures t.Bytes() <= Off(t.parts, k)
  {
    OffMonotone(t.parts, k, k + 1);
    AcceptedIsPrefix(t.parts, t.Cap(), |t.parts|, k);
    OffMonotone(t.parts, Accepted(t.parts, t.Cap(), |t.parts|), k);
  }

  // An input on its own is a run.
  lemma {:induction false} SingleRun(t: Tensor, e: Pending, off: nat)
    requires Belongs(t, e, off) && off + |e.input.data| <= t.Cap()
    ensures RunOk(t, Run(off, [e])) && Off(Parts([e]), 0) == 0 && Off(Parts([e]), 1) == |e.input.data|
  {
    var run := Run(off, [e]);
    assert Parts(run.list) == [e.input.data];
    assert Off(Parts(run.list), 1) == Off(Parts(run.list), 0) + |e.input.data|;
    forall j | 0 <= j < |run.list| ensures EntryOk(t, run, j) {}
  }

  // Of two runs that are apart and end at the same byte, one is empty; so either may go on from there.
  lemma {:induction false} ApartMore(was: Run, other: Run, run: Run, off: nat)
    requires Apart(was, other) && run.base == (if Size(was.list) == 0 then off else was.base)
    requires Size(was.list) > 0 ==> was.base + Size(was.list) == off
    requires Size(other.list) > 0 ==> other.base + Size(other.list) == off
    ensures Apart(run, other) && Apart(other, run)
  {
    hide Size;
  }

  // An input joins one of the open runs.
  lemma {:induction false} QueueKeeps(v: View, e: Pending, off: nat, toKernel: bool) returns (run: Run, open: Open)
    requires Balanced(v) && v.book.open.Busy? && v.book.open.tensor in v.book.tensors
    requires var t := v.book.tensors[v.book.open.tensor]; Belongs(t, e, off) && off + |e.input.data| <= t.Cap()
    requires var was := if toKernel then v.book.open.kernel else v.book.open.pinned;
      Size(was.list) > 0 ==> was.base + Size(was.list) == off
    requires var other := if toKernel then v.book.open.pinned else v.book.open.kernel;
      Size(other.list) > 0 ==> other.base + Size(other.list) == off
    ensures var was := if toKernel then v.book.open.kernel else v.book.open.pinned;
      && run == Run(if Size(was.list) == 0 then off else was.base, was.list + [e])
      && Size(run.list) == Size(was.list) + |e.input.data|
      && (Size(run.list) > 0 ==> run.base + Size(run.list) == off + |e.input.data|)
      && (forall p :: run.Covers(p) <==> was.Covers(p) || off <= p < off + |e.input.data|)
    ensures open == if toKernel then v.book.open.(kernel := run) else v.book.open.(pinned := run)
    ensures Balanced(v.(book := v.book.(open := open))) && Eventual(v.(book := v.book.(open := open))) == Eventual(v)
  {
    var was := if toKernel then v.book.open.kernel else v.book.open.pinned;
    run := RunAppend(v.book.tensors[v.book.open.tensor], was, e, off);
    open := if toKernel then v.book.open.(kernel := run) else v.book.open.(pinned := run);
    BalancedFacts(v);
    ApartMore(was, if toKernel then v.book.open.pinned else v.book.open.kernel, run, off);
    OpenKeeps(v, open);
  }

  // A run has been seen to: its bytes are right once the stream drains, or put off until Finalize, or with a worker.
  ghost predicate SeenTo(v: View, t: nat, run: Run) {
    forall p :: run.Covers(p) && t < |v.want| == |Eventual(v)| && 0 <= p < |v.want[t]| && p < |Eventual(v)[t]| ==>
      Okay(v.want[t][p], Eventual(v)[t][p]) || InDeferred(v.book.deferred, t, p) || InJobs(v.book.jobs, t, p)
  }

  lemma {:induction false} SeenToHolds(v: View, t: nat, run: Run)
    requires Holds(Eventual(v), v.want, t, run.base, run.base + Size(run.list))
    ensures SeenTo(v, t, run)
  {}

  lemma {:induction false} SeenToDeferred(v: View, d: Deferred)
    requires |v.book.deferred| > 0 && v.book.deferred[|v.book.deferred| - 1] == d && !d.finalized
    ensures SeenTo(v, d.tensor, d.run)
  {}

  lemma {:induction false} SeenToJob(v: View, g: Job)
    requires |v.book.jobs| > 0 && v.book.jobs[|v.book.jobs| - 1] == g && g.proto.posts == 0
    ensures SeenTo(v, g.tensor, g.run)
  {}

  lemma {:induction false} ClosePinnedKeeps(v: View)
    requires Balanced(v) && v.book.open.Busy? && v.book.open.tensor in v.book.tensors
    requires SeenTo(v, v.book.open.tensor, v.book.open.pinned)
    ensures var b := v.book.(open := v.book.open.(pinned := Run(0, [])));
      Balanced(v.(book := b)) && Eventual(v.(book := b)) == Eventual(v)
  {
    BalancedFacts(v);
    SizeNone();
    OpenKeeps(v, v.book.open.(pinned := Run(0, [])));
  }

  lemma {:induction false} CloseKernelKeeps(v: View)
    requires Balanced(v) && v.book.open.Busy? && v.book.open.tensor in v.book.tensors
    requires SeenTo(v, v.book.open.tensor, v.book.open.kernel)
    ensures var b := v.book.(open := v.book.open.(kernel := Run(0, [])));
      Balanced(v.(book := b)) && Eventual(v.(book := b)) == Eventual(v)
  {
    BalancedFacts(v);
    SizeNone();
    OpenKeeps(v, v.book.open.(kernel := Run(0, [])));
  }

  // The call is over: nothing is pending, and every byte up to the end has been seen to.
  lemma {:induction false} EndKeeps(v: View, t: nat)
    requires Balanced(v) && v.book.open.Busy? && v.book.open.tensor == t && t in v.book.tensors
    requires v.book.open.next == Total(v.book.tensors[t].parts)
    requires Size(v.book.open.pinned.list) == 0 && Size(v.book.open.kernel.list) == 0
    ensures Balanced(v.(book := v.book.(open := Idle))) && Eventual(v.(book := v.book.(open := Idle))) == Eventual(v)
  {
    var T := v.book.tensors[t];
    OffMonotone(T.parts, Accepted(T.parts, T.Cap(), |T.parts|), |T.parts|);
    OpenKeeps(v, Idle);
  }

  // A call begins on tensor 't', which nothing has touched yet.
  function Begun(v: View, t: nat, parts: seq<seq<byte>>): View
    requires t < |v.mem| && t < |v.want|
  {
    var tensor := Tensor(parts, v.mem[t], Laid(parts, v.mem[t]));
    v.(want := v.want[t := seq(|tensor.goal|, p requires 0 <= p < |tensor.goal| => Some(tensor.goal[p]))],
       book := v.book.(tensors := v.book.tensors[t := tensor], open := Busy(t, 0, Run(0, []), Run(0, []))))
  }

  lemma {:induction false} BeginKeeps(v: View, t: nat, parts: seq<seq<byte>>)
    requires Balanced(v) && v.book.open.Idle? && t < |v.book.before| && t !in v.book.tensors && |parts| == |v.live|
    ensures t < |v.mem| && t < |v.want| && Balanced(Begun(v, t, parts))
  {
    assert SameShape(v.mem, v.want);
    var v' := Begun(v, t, parts);
    var b, b' := v.book, v'.book;
    forall c | c in v.stream ensures c.dst != t && (c.src.Slice? ==> c.src.blk != t) && Routed(b', c) {
      assert Routed(b, c);
    }
    SoundFits(v.mem, v.stream, v.want);
    SoundPromise(v.mem, v.stream, v.want, t, v'.want[t]);
    assert Eventual(v') == Eventual(v);
    BeginTensors(v, t, parts);
    BeginDeferreds(v, t, parts);
    UntouchedKeeps(v.mem, v.stream, t);
    BeginPromise(v, t, parts);
  }

  lemma {:induction false} BeginTensors(v: View, t: nat, parts: seq<seq<byte>>)
    requires TensorsOk(v.book, v.want, v.live) && JobsOk(v.book.tensors, v.book.jobs)
    requires t < |v.book.before| <= |v.want| == |v.mem| && t !in v.book.tensors && |parts| == |v.live|
    ensures var v' := Begun(v, t, parts); TensorsOk(v'.book, v'.want, v.live) && JobsOk(v'.book.tensors, v.book.jobs)
  {
    var v' := Begun(v, t, parts);
    forall u | u in v'.book.tensors ensures TensorOk(v'.book.tensors[u], v'.want[u], v.live) {
      if u != t { assert TensorOk(v.book.tensors[u], v.want[u], v.live); }
    }
    forall j | 0 <= j < |v.book.jobs| ensures JobOk(v'.book.tensors, v.book.jobs[j]) {
      assert JobOk(v.book.tensors, v.book.jobs[j]);
    }
  }

  lemma {:induction false} BeginPromise(v: View, t: nat, parts: seq<seq<byte>>)
    requires Balanced(v) && v.book.open.Idle? && t < |v.mem| == |v.want| && t !in v.book.tensors
    requires Eventual(v)[t] == v.mem[t]
    ensures Promise(Begun(v, t, parts).book, Begun(v, t, parts).want, Eventual(v))
  {
    var v' := Begun(v, t, parts);
    var b, b', e := v.book, v'.book, Eventual(v);
    forall u, p | u in b'.tensors && u < |v'.want| == |e| && 0 <= p < |v'.want[u]| && p < |e[u]|
      ensures Okay(v'.want[u][p], e[u][p]) || Owed(b', u, p)
    {
      if u != t {
        assert Okay(v.want[u][p], e[u][p]) || Owed(b, u, p);
      } else if p < b'.tensors[t].Bytes() {
        assert InOpen(b'.tensors, b'.open, u, p);
      }
    }
  }

  lemma {:induction false} BeginDeferreds(v: View, t: nat, parts: seq<seq<byte>>)
    requires Balanced(v) && t < |v.book.before| && t !in v.book.tensors
    ensures t < |v.mem| && t < |v.want|
    ensures var v' := Begun(v, t, parts);
      DeferredsOk(|v'.book.before|, v'.book.tensors, v'.book.deferred, v'.want, Eventual(v))
  {
    assert SameShape(v.mem, v.want);
    var v' := Begun(v, t, parts);
    forall j | 0 <= j < |v.book.deferred| && !v.book.deferred[j].finalized
      ensures DeferredOk(|v'.book.before|, v'.book.tensors, v'.want, Eventual(v), v.book.deferred[j])
    {
      var d := v.book.deferred[j];
      assert DeferredOk(|v.book.before|, v.book.tensors, v.want, Eventual(v), d);
      assert v'.want[d.tensor] == v.want[d.tensor] && v'.want[d.pin] == v.want[d.pin];
    }
  }

  lemma {:induction false} CertainBegun(v: View, t: nat, parts: seq<seq<byte>>)
    requires t < |v.mem| && t < |v.want|
    ensures Certain(v.book.tensors, v.want) ==> Certain(Begun(v, t, parts).book.tensors, Begun(v, t, parts).want)
  {
    var v' := Begun(v, t, parts);
    assert forall u :: u in v'.book.tensors && u < |v.want| && u != t ==> v'.want[u] == v.want[u];
  }

  // A pinned buffer is allocated; 'promise' says what is to be staged into it.
  lemma {:induction false} AllocateKeeps(v: View, block: seq<byte>, promise: seq<Option<byte>>)
    requires Balanced(v) && |block| == |promise|
    ensures var v' := v.(mem := v.mem + [block], want := v.want + [promise]);
      Balanced(v') && Eventual(v') == Eventual(v) + [block] && Unread(v', |v.mem|)
      && SameShape(v'.mem, v'.want) && (forall c :: c in v.stream ==> c.dst != |v.mem| && Fits(v'.mem, c))
  {
    var v' := v.(mem := v.mem + [block], want := v.want + [promise]);
    SoundFits(v.mem, v.stream, v.want);
    SoundAllocate(v.mem, v.stream, v.want, block, promise);
    assert Eventual(v') == Eventual(v) + [block];
    AllocateDeferreds(v.book, v.want, Eventual(v), block, promise);
    AllocateTensors(v, block, promise);
  }

  lemma {:induction false} AllocateTensors(v: View, block: seq<byte>, promise: seq<Option<byte>>)
    requires TensorsOk(v.book, v.want, v.live) && Promise(v.book, v.want, Eventual(v)) && |v.want| == |v.mem|
    ensures TensorsOk(v.book, v.want + [promise], v.live)
    ensures Promise(v.book, v.want + [promise], Eventual(v) + [block])
  {
    hide TensorOk, Owed, Eventual;
    var want, e := v.want + [promise], Eventual(v) + [block];
    forall u | u in v.book.tensors ensures TensorOk(v.book.tensors[u], want[u], v.live) && want[u] == v.want[u] {}
    forall u, p | u in v.book.tensors && u < |want| == |e| && 0 <= p < |want[u]| && p < |e[u]|
      ensures Okay(want[u][p], e[u][p]) || Owed(v.book, u, p)
    {
      assert Okay(v.want[u][p], Eventual(v)[u][p]) || Owed(v.book, u, p);
    }
  }

  lemma {:induction false} AllocateDeferreds(b: Book, want: Want, e: Mem, block: seq<byte>, promise: seq<Option<byte>>)
    requires DeferredsOk(|b.before|, b.tensors, b.deferred, want, e)
    ensures DeferredsOk(|b.before|, b.tensors, b.deferred, want + [promise], e + [block])
    ensures forall j :: 0 <= j < |b.deferred| && !b.deferred[j].finalized ==> b.deferred[j].pin != |e|
  {
    forall j | 0 <= j < |b.deferred| && !b.deferred[j].finalized
      ensures DeferredOk(|b.before|, b.tensors, want + [promise], e + [block], b.deferred[j])
      ensures b.deferred[j].pin != |e|
    {
      var d := b.deferred[j];
      assert DeferredOk(|b.before|, b.tensors, want, e, d);
      assert (want + [promise])[d.tensor] == want[d.tensor] && (want + [promise])[d.pin] == want[d.pin];
      assert (e + [block])[d.pin] == e[d.pin];
    }
  }

  lemma {:induction false} InDeferredStays(ds: seq<Deferred>, ds': seq<Deferred>, t: nat, p: int)
    requires InDeferred(ds, t, p) && |ds| <= |ds'|
    requires forall j :: 0 <= j < |ds| && ds[j].tensor == t && ds[j].run.Covers(p) ==> ds'[j] == ds[j]
    ensures InDeferred(ds', t, p)
  {
    var j :| 0 <= j < |ds| && !ds[j].finalized && ds[j].tensor == t && ds[j].run.Covers(p);
    assert ds'[j] == ds[j];
  }

  lemma {:induction false} InJobsStays(gs: seq<Job>, gs': seq<Job>, t: nat, p: int)
    requires InJobs(gs, t, p) && |gs| <= |gs'|
    requires forall j :: 0 <= j < |gs| && gs[j].tensor == t && gs[j].run.Covers(p) ==>
      gs'[j].tensor == t && gs'[j].run == gs[j].run && (gs[j].proto.posts == 0 ==> gs'[j].proto.posts == 0)
    ensures InJobs(gs', t, p)
  {
    var j :| 0 <= j < |gs| && gs[j].proto.posts == 0 && gs[j].tensor == t && gs[j].run.Covers(p);
    assert gs'[j].run.Covers(p);
  }

  // The second copy of a staged run is put off until Finalize.
  lemma {:induction false} DeferKeeps(v: View, d: Deferred)
    requires Balanced(v) && (d.finalized || DeferredOk(|v.book.before|, v.book.tensors, v.want, Eventual(v), d))
    ensures var v' := v.(book := v.book.(deferred := v.book.deferred + [d]));
      Balanced(v') && Eventual(v') == Eventual(v)
  {
    var b := v.book.(deferred := v.book.deferred + [d]);
    forall t, p | Owed(v.book, t, p) ensures Owed(b, t, p) {
      if InDeferred(v.book.deferred, t, p) { InDeferredStays(v.book.deferred, b.deferred, t, p); }
    }
    BookKeeps(v, b);
  }

  lemma {:induction false} DeferredsLess(b: Book, want: Want, e: Mem, i: nat, d: Deferred)
    requires DeferredsOk(|b.before|, b.tensors, b.deferred, want, e) && i < |b.deferred| && d.finalized
    ensures DeferredsOk(|b.before|, b.tensors, b.deferred[i := d], want, e)
  {
    var ds := b.deferred[i := d];
    forall j | 0 <= j < |ds| && !ds[j].finalized ensures DeferredOk(|b.before|, b.tensors, want, e, ds[j]) {
      assert ds[j] == b.deferred[j];
    }
  }

  // A deferred copy has been made.
  lemma {:induction false} SettleKeeps(v: View, i: nat)
    requires Balanced(v) && i < |v.book.deferred|
    requires var d := v.book.deferred[i];
      Holds(Eventual(v), v.want, d.tensor, d.run.base, d.run.base + Size(d.run.list))
    ensures var b := v.book.(deferred := v.book.deferred[i := v.book.deferred[i].(finalized := true)]);
      Balanced(v.(book := b)) && Eventual(v.(book := b)) == Eventual(v)
  {
    hide DeferredOk, RunOk, Size;
    var d := v.book.deferred[i];
    var b := v.book.(deferred := v.book.deferred[i := d.(finalized := true)]);
    DeferredsLess(v.book, v.want, Eventual(v), i, d.(finalized := true));
    forall t, p | t in b.tensors && t < |v.want| && 0 <= p < |v.want[t]| && Owed(v.book, t, p)
      ensures Okay(v.want[t][p], Eventual(v)[t][p]) || Owed(b, t, p)
    {
      if InDeferred(v.book.deferred, t, p) && !(d.tensor == t && d.run.Covers(p)) {
        InDeferredStays(v.book.deferred, b.deferred, t, p);
      }
    }
    BookKeeps(v, b);
  }

  // A flush hands its run to the workers.
  lemma {:induction false} HireKeeps(v: View, g: Job)
    requires Balanced(v) && JobOk(v.book.tensors, g)
    ensures var v' := v.(book := v.book.(jobs := v.book.jobs + [g]));
      Balanced(v') && Eventual(v') == Eventual(v)
  {
    var b := v.book.(jobs := v.book.jobs + [g]);
    forall t, p | Owed(v.book, t, p) ensures Owed(b, t, p) {
      if InJobs(v.book.jobs, t, p) { InJobsStays(v.book.jobs, b.jobs, t, p); }
    }
    BookKeeps(v, b);
  }

  // A worker takes a step; if the step is the block copy, the tensor has got its bytes.
  lemma {:induction false} WorkKeeps(v: View, i: nat, proto: AsyncCopy.State)
    requires Balanced(v) && i < |v.book.jobs|
    requires proto.posts != 0 ==>
      var g := v.book.jobs[i];
      Holds(Eventual(v), v.want, g.tensor, g.run.base, g.run.base + Size(g.run.list))
    ensures var b := v.book.(jobs := v.book.jobs[i := v.book.jobs[i].(proto := proto)]);
      Balanced(v.(book := b)) && Eventual(v.(book := b)) == Eventual(v)
  {
    var g := v.book.jobs[i];
    var b := v.book.(jobs := v.book.jobs[i := g.(proto := proto)]);
    assert JobOk(b.tensors, g);
    assert JobOk(b.tensors, b.jobs[i]);
    forall t, p | t in b.tensors && t < |v.want| && 0 <= p < |v.want[t]| && Owed(v.book, t, p)
      ensures Okay(v.want[t][p], Eventual(v)[t][p]) || Owed(b, t, p)
    {
      if InJobs(v.book.jobs, t, p) && (proto.posts == 0 || !(g.tensor == t && g.run.Covers(p))) {
        InJobsStays(v.book.jobs, b.jobs, t, p);
      }
    }
    BookKeeps(v, b);
  }

  // ---------------------------------------------------------------------------
  // Jobs

  // The flush behind a job is one whose tasks bring the counter to zero.
  ghost predicate WillComplete(g: Job) {
    AsyncCopy.Full(g.config) && !AsyncCopy.AnyDropped(g.proto)
  }

  // A copy of a whole run from outside the memory is one that is wanted.
  lemma {:induction false} RunCopy(v: View, t: nat, run: Run, data: seq<byte>)
    requires Balanced(v) && t in v.book.tensors && RunOk(v.book.tensors[t], run) && data == Concat(Parts(run.list))
    ensures var c := Copy(t, run.base, Bytes(data));
      && Fits(v.mem, c) && Aligned(v.want, c) && Routed(v.book, c) && Fed(v.mem, v.want, c)
      && Fed(Eventual(v), v.want, c)
      && |data| == Size(run.list)
  {
    hide Balanced, RunOk, Fed, Fits, TensorOk, Sound, Concat, Parts, OpenOk;
    BalancedTensor(v, t);
    RunWanted(v.want, t, v.book.tensors[t], run);
    BalancedFacts(v);
    WantedAligned(v.want, t, run.base, data);
    var c := Copy(t, run.base, Bytes(data));
    BytesFed(v.mem, v.want, c);
    BytesFed(Eventual(v), v.want, c);
  }

  lemma {:induction false} WantedAligned(want: Want, b: nat, off: nat, data: seq<byte>)
    requires Wanted(want, b, off, data)
    ensures Aligned(want, Copy(b, off, Bytes(data)))
  {}

  // What does not change about a job while its tasks run.
  ghost predicate JobGoesOn(g: Job, g': Job) {
    && g'.tensor == g.tensor && g'.run == g.run && g'.config == g.config
    && (WillComplete(g') <==> WillComplete(g))
    && forall k :: AsyncCopy.AddedTo(g.proto, k) ==> AsyncCopy.AddedTo(g'.proto, k)
  }

  ghost predicate JobsOn(gs: seq<Job>, gs': seq<Job>, n: nat) {
    n <= |gs| && n <= |gs'| && forall j :: 0 <= j < n ==> JobGoesOn(gs[j], gs'[j])
  }

  lemma {:induction false} JobsOnRefl(gs: seq<Job>)
    ensures JobsOn(gs, gs, |gs|)
  {}

  lemma {:induction false} JobsOnAppend(gs: seq<Job>, g: Job)
    ensures JobsOn(gs, gs + [g], |gs|)
  {}

  lemma {:induction false} JobsOnTrans(a: seq<Job>, b: seq<Job>, c: seq<Job>, n: nat)
    requires JobsOn(a, b, n) && JobsOn(b, c, n)
    ensures JobsOn(a, c, n)
  {
    forall j | 0 <= j < n ensures JobGoesOn(a[j], c[j]) {
      assert JobGoesOn(a[j], b[j]) && JobGoesOn(b[j], c[j]);
    }
  }

  lemma {:induction false} JobsOnShorter(gs: seq<Job>, gs': seq<Job>, n: nat, m: nat)
    requires JobsOn(gs, gs', n) && m <= n
    ensures JobsOn(gs, gs', m)
  {}

  lemma {:induction false} JobsOnLast(gs: seq<Job>, gs': seq<Job>, n: nat, j: nat, k: nat)
    requires JobsOn(gs, gs', n) && j < n && AsyncCopy.AddedTo(gs[j].proto, k)
    ensures gs'[j].tensor == gs[j].tensor && gs'[j].run == gs[j].run && gs'[j].config == gs[j].config
    ensures (WillComplete(gs'[j]) <==> WillComplete(gs[j])) && AsyncCopy.AddedTo(gs'[j].proto, k)
  {
    assert JobGoesOn(gs[j], gs'[j]);
  }

  // Every flush has handed out its tasks; its completion will come exactly if its size says so and no AddTask failed.
  ghost predicate QueueOk(gs: seq<Job>, workers: nat, risky: set<nat>) {
    forall j :: 0 <= j < |gs| ==> JobHanded(gs[j], workers, risky)
  }

  ghost predicate JobHanded(g: Job, workers: nat, risky: set<nat>) {
    && workers > 1 && AsyncCopy.AddedTo(g.proto, |g.config.segs|)
    && (WillComplete(g) ==> Completes(|g.run.list|, workers))
    && (Reqs(g.run.list) * risky == {} && Completes(|g.run.list|, workers) ==> WillComplete(g))
  }

  lemma {:induction false} QueueGoesOn(gs: seq<Job>, gs': seq<Job>, n: nat, workers: nat, risky: set<nat>)
    requires QueueOk(gs, workers, risky) && n == |gs| && JobsOn(gs, gs', n) && |gs'| <= n + 1
    requires |gs'| == n + 1 ==> JobHanded(gs'[n], workers, risky)
    ensures QueueOk(gs', workers, risky)
  {
    forall j | 0 <= j < |gs'| ensures JobHanded(gs'[j], workers, risky) {
      if j < n { assert JobHanded(gs[j], workers, risky) && JobGoesOn(gs[j], gs'[j]); }
    }
  }

  // The second copy of job 'g' is the one that is wanted.
  lemma {:induction false} BlockWanted(v: View, g: Job, i: nat)
    requires Balanced(v) && JobOk(v.book.tensors, g) && JobRuns(g) && i < |g.proto.tasks|
    requires g.proto.tasks[i].phase.Last?
    ensures var c := Copy(g.tensor, g.run.base, Bytes(g.proto.pinned));
      && Fits(v.mem, c) && Aligned(v.want, c) && Routed(v.book, c) && Fed(v.mem, v.want, c)
      && Fed(Eventual(v), v.want, c)
      && |g.proto.pinned| == Size(g.run.list)
  {
    hide Balanced, RunOk, AsyncCopy.Inv, Fed, Fits, Aligned, Routed, Concat, Parts;
    AsyncCopy.LastIsConcat(g.config, g.proto, i);
    RunCopy(v, g.tensor, g.run, g.proto.pinned);
  }

  ghost predicate JobShapes(gs: seq<Job>) {
    forall j :: 0 <= j < |gs| ==> |gs[j].proto.tasks| == |gs[j].config.segs|
  }

  lemma {:induction false} JobsShape(gs: seq<Job>)
    requires JobsRun(gs)
    ensures JobShapes(gs) && forall j :: 0 <= j < |gs| ==> gs[j].proto.posts <= 1
  {
    forall j | 0 <= j < |gs| ensures |gs[j].proto.tasks| == |gs[j].config.segs| && gs[j].proto.posts <= 1 {
      assert JobRuns(gs[j]);
    }
  }

  lemma {:induction false} JobFacts(v: View, j: nat)
    requires Balanced(v) && JobsRun(v.book.jobs) && j < |v.book.jobs|
    ensures JobRuns(v.book.jobs[j]) && JobOk(v.book.tensors, v.book.jobs[j])
  {}

  lemma {:induction false} JobsRunUpdate(gs: seq<Job>, j: nat, g: Job)
    requires JobsRun(gs) && j < |gs| && JobRuns(g)
    ensures JobsRun(gs[j := g])
  {
    hide JobRuns;
  }

  lemma {:induction false} JobsRunAppend(gs: seq<Job>, g: Job)
    requires JobsRun(gs) && JobRuns(g)
    ensures JobsRun(gs + [g])
  {
    hide JobRuns;
  }

  function Posts(gs: seq<Job>): nat {
    if gs == [] then 0 else Posts(gs[..|gs| - 1]) + gs[|gs| - 1].proto.posts
  }

  lemma {:induction false} PostsUpdate(gs: seq<Job>, i: nat, g: Job)
    requires i < |gs|
    ensures Posts(gs[i := g]) == Posts(gs) - gs[i].proto.posts + g.proto.posts
    decreases |gs|
  {
    var n := |gs| - 1;
    if i < n {
      assert gs[i := g][..n] == gs[..n][i := g];
      PostsUpdate(gs[..n], i, g);
    } else {
      assert gs[i := g][..n] == gs[..n];
    }
  }

  // At most one completion a job.
  lemma {:induction false} PostsBound(gs: seq<Job>)
    requires forall j :: 0 <= j < |gs| ==> gs[j].proto.posts <= 1
    ensures Posts(gs) <= |gs| && (Posts(gs) == |gs| ==> forall j :: 0 <= j < |gs| ==> gs[j].proto.posts == 1)
    decreases |gs|
  {
    if gs != [] { PostsBound(gs[..|gs| - 1]); }
  }

  function Remaining(gs: seq<Job>): nat
    requires JobShapes(gs)
  {
    if gs == [] then 0
    else Remaining(gs[..|gs| - 1]) + AsyncCopy.Remaining(gs[|gs| - 1].config, gs[|gs| - 1].proto)
  }

  lemma {:induction false} RemainingUpdate(gs: seq<Job>, i: nat, g: Job)
    requires JobShapes(gs) && i < |gs| && |g.proto.tasks| == |g.config.segs|
    requires AsyncCopy.Remaining(g.config, g.proto) < AsyncCopy.Remaining(gs[i].config, gs[i].proto)
    ensures Remaining(gs[i := g]) < Remaining(gs)
    decreases |gs|
  {
    var n := |gs| - 1;
    if i < n {
      assert gs[i := g][..n] == gs[..n][i := g];
      RemainingUpdate(gs[..n], i, g);
    } else {
      assert gs[i := g][..n] == gs[..n];
    }
  }

  // The step of task 'i' of job 'j'.
  lemma {:induction false} StepJob(gs: seq<Job>, j: nat, i: nat) returns (a: AsyncCopy.Action, g: Job)
    requires JobsRun(gs) && j < |gs| && AsyncCopy.Runnable(gs[j].proto, i)
    ensures |gs[j].proto.tasks| == |gs[j].config.segs| && a == AsyncCopy.NextAction(gs[j].config, gs[j].proto, i)
    ensures AsyncCopy.Enabled(gs[j].config, gs[j].proto, a)
    ensures g == gs[j].(proto := AsyncCopy.Perform(gs[j].config, gs[j].proto, a))
    ensures gs[j].proto.posts == 0 && g.proto.posts == if gs[j].proto.tasks[i].phase.Last? then 1 else 0
    ensures JobsRun(gs[j := g]) && (WillComplete(g) <==> WillComplete(gs[j]))
    ensures Posts(gs[j := g]) == Posts(gs) + g.proto.posts
    ensures JobShapes(gs) && JobShapes(gs[j := g]) && Remaining(gs[j := g]) < Remaining(gs)
    ensures forall k :: AsyncCopy.AddedTo(gs[j].proto, k) ==> AsyncCopy.AddedTo(g.proto, k)
  {
    var c, s := gs[j].config, gs[j].proto;
    assert JobRuns(gs[j]);
    JobsShape(gs);
    hide AsyncCopy.Inv, JobRuns, Posts, Remaining, AsyncCopy.Remaining, JobsRun, AsyncCopy.AddedTo;
    StepRuns(gs[j], i);
    a := AsyncCopy.NextAction(c, s, i);
    g := gs[j].(proto := AsyncCopy.Perform(c, s, a));
    JobsRunUpdate(gs, j, g);
    JobsShape(gs[j := g]);
    PostsUpdate(gs, j, g);
    RemainingUpdate(gs, j, g);
    forall k | AsyncCopy.AddedTo(s, k) ensures AsyncCopy.AddedTo(g.proto, k) { AsyncCopy.WorkAdds(c, s, a, k); }
  }

  lemma {:induction false} StepRuns(g: Job, i: nat)
    requires JobRuns(g) && AsyncCopy.Runnable(g.proto, i)
    ensures |g.proto.tasks| == |g.config.segs|
    ensures var a := AsyncCopy.NextAction(g.config, g.proto, i);
      && AsyncCopy.Enabled(g.config, g.proto, a)
      && var s := AsyncCopy.Perform(g.config, g.proto, a);
      && JobRuns(g.(proto := s)) && (AsyncCopy.AnyDropped(s) <==> AsyncCopy.AnyDropped(g.proto))
      && g.proto.posts == 0 && s.posts == (if g.proto.tasks[i].phase.Last? then 1 else 0)
      && |s.tasks| == |g.config.segs| && AsyncCopy.Remaining(g.config, s) < AsyncCopy.Remaining(g.config, g.proto)
  {
    hide AsyncCopy.AnyDropped, AsyncCopy.Remaining;
    var c, s := g.config, g.proto;
    assert |s.tasks| == |c.segs|;
    hide AsyncCopy.Inv;
    var a := AsyncCopy.NextAction(c, s, i);
    AsyncCopy.NextEnabled(c, s, i);
    AsyncCopy.StepInv(c, s, a);
    AsyncCopy.StepShrinks(c, s, a);
    AsyncCopy.WorkDrops(c, s, a);
    AsyncCopy.RunnablePosts(c, s, i);
  }

  // What a run was seen to by stays, when the memory gets better, promises fewer, and jobs go on.
  lemma {:induction false} SeenToStays(v: View, v': View, t: nat, run: Run)
    requires SeenTo(v, t, run) && |v'.want| == |v.want| == |Eventual(v)| == |Eventual(v')|
    requires v'.book.deferred == v.book.deferred && Weaker(v.want, v'.want)
    requires Better(Eventual(v), Eventual(v'), v'.want)
    requires |v'.book.jobs| == |v.book.jobs|
    requires forall j :: 0 <= j < |v.book.jobs| ==>
      var g, g' := v.book.jobs[j], v'.book.jobs[j];
      && g'.tensor == g.tensor && g'.run == g.run
      && (g'.proto.posts == 0 || g.proto.posts != 0
          || Holds(Eventual(v'), v'.want, g.tensor, g.run.base, g.run.base + Size(g.run.list)))
    ensures SeenTo(v', t, run)
  {
    var e, e' := Eventual(v), Eventual(v');
    forall p | run.Covers(p) && t < |v'.want| && 0 <= p < |v'.want[t]| && p < |e'[t]|
      ensures Okay(v'.want[t][p], e'[t][p]) || InDeferred(v'.book.deferred, t, p) || InJobs(v'.book.jobs, t, p)
    {
      assert v'.want[t][p] == v.want[t][p] || v'.want[t][p] == None;
      assert e'[t][p] == e[t][p] || Okay(v'.want[t][p], e'[t][p]);
      if InJobs(v.book.jobs, t, p) {
        var j :| 0 <= j < |v.book.jobs| && v.book.jobs[j].proto.posts == 0 && v.book.jobs[j].tensor == t
                 && v.book.jobs[j].run.Covers(p);
        assert v'.book.jobs[j].run.Covers(p);
      }
    }
  }

  // The protocol of a flush, before any AddTask.
  function Hired(t: nat, tensorType: MemoryType, run: Run, workers: nat, segs: seq<Segment>, pinned: seq<byte>,
                 onStream: bool): Job {
    Job(t, tensorType, run, AsyncCopy.Config(Parts(run.list), workers, segs, ThroughStream(run.list, onStream), false),
        AsyncCopy.State(pinned,
                        seq(|segs|, i requires 0 <= i < |segs| =>
                          AsyncCopy.Task(AsyncCopy.NotAdded, segs[i].lo, segs[i].off)),
                        Min(|run.list|, workers), [], 0, []))
  }

  lemma {:induction false} HiredRuns(t: nat, tensorType: MemoryType, run: Run, workers: nat, segs: seq<Segment>,
      pinned: seq<byte>, onStream: bool)
    requires FromHost(run.list, onStream)
    requires 0 < workers && |run.list| < AsyncCopy.COUNTER_MODULUS && |pinned| == Size(run.list)
    requires segs == SegmentsOf(Parts(run.list), workers)
    ensures var g := Hired(t, tensorType, run, workers, segs, pinned, onStream);
      && JobRuns(g) && AsyncCopy.AddedTo(g.proto, 0) && !AsyncCopy.AnyDropped(g.proto) && g.proto.posts == 0
      && (AsyncCopy.Full(g.config) <==> Completes(|run.list|, workers))
  {
    var g := Hired(t, tensorType, run, workers, segs, pinned, onStream);
    AsyncCopy.ValidDivided(g.config);
    AsyncCopy.StartInv(g.config, g.proto);
  }

  // AddTask is called for segment 'i', with or without success.
  function Handed(g: Job, i: nat, added: bool): Job
    requires |g.proto.tasks| == |g.config.segs| && AsyncCopy.NextToAdd(g.proto, i)
  {
    g.(proto := AsyncCopy.Perform(g.config, g.proto, if added then AsyncCopy.Add(i) else AsyncCopy.Drop(i)))
  }

  lemma {:induction false} HandedRuns(g: Job, i: nat, added: bool)
    requires JobRuns(g) && AsyncCopy.AddedTo(g.proto, i) && i < |g.config.segs|
    ensures |g.proto.tasks| == |g.config.segs| && AsyncCopy.NextToAdd(g.proto, i)
    ensures var g' := Handed(g, i, added);
      && JobRuns(g') && AsyncCopy.AddedTo(g'.proto, i + 1) && g'.proto.posts == g.proto.posts == 0
      && (WillComplete(g') <==> added && WillComplete(g))
  {
    HandedNext(g, i);
    hide AsyncCopy.AddedTo, AsyncCopy.Inv;
    var a := if added then AsyncCopy.Add(i) else AsyncCopy.Drop(i);
    AsyncCopy.NotAddedPosts(g.config, g.proto, i);
    AsyncCopy.StepInv(g.config, g.proto, a);
    HandedAdded(g, i, added);
    if added { AsyncCopy.WorkDrops(g.config, g.proto, a); }
    else { assert Handed(g, i, added).proto.tasks[i].phase.Dropped?; }
  }

  lemma {:induction false} HandedNext(g: Job, i: nat)
    requires JobRuns(g) && AsyncCopy.AddedTo(g.proto, i) && i < |g.config.segs|
    ensures |g.proto.tasks| == |g.config.segs| && AsyncCopy.NextToAdd(g.proto, i)
  {}

  lemma {:induction false} HandedAdded(g: Job, i: nat, added: bool)
    requires |g.proto.tasks| == |g.config.segs| && AsyncCopy.AddedTo(g.proto, i) && AsyncCopy.NextToAdd(g.proto, i)
    ensures AsyncCopy.AddedTo(Handed(g, i, added).proto, i + 1)
  {}

  lemma {:induction false} KillSeen(v: View, v': View, t: nat, run: Run)
    requires SeenTo(v, t, run) && v' == v.(live := v'.live)
    ensures SeenTo(v', t, run)
  {
    assert Eventual(v') == Eventual(v);
  }

  // A job that gets its step with the completion still to come changes nothing for its run.
  lemma {:induction false} HandedSeen(v: View, v': View, j: nat, t: nat, run: Run)
    requires SeenTo(v, t, run) && v'.mem == v.mem && v'.stream == v.stream && v'.want == v.want
    requires j < |v.book.jobs| && j < |v'.book.jobs|
    requires v'.book == v.book.(jobs := v.book.jobs[j := v'.book.jobs[j]])
    requires v'.book.jobs[j].tensor == v.book.jobs[j].tensor && v'.book.jobs[j].run == v.book.jobs[j].run
    requires v'.book.jobs[j].proto.posts == 0
    ensures SeenTo(v', t, run)
  {
    assert Eventual(v') == Eventual(v);
    forall p | InJobs(v.book.jobs, t, p) ensures InJobs(v'.book.jobs, t, p) {
      InJobsStays(v.book.jobs, v'.book.jobs, t, p);
    }
  }

  lemma {:induction false} PostsAppend(gs: seq<Job>, g: Job)
    ensures Posts(gs + [g]) == Posts(gs) + g.proto.posts
  {
    assert (gs + [g])[..|gs|] == gs;
  }

  // ---------------------------------------------------------------------------
  // Pinned buffers given back

  // Block 'pin' is given back, and its bytes are anything from now on. Nothing is promised of it.
  ghost function Released(v: View, pin: nat, content: seq<byte>): View
    requires pin < |v.mem| && pin < |v.want|
  {
    v.(mem := v.mem[pin := content], want := v.want[pin := Forget(v.want[pin], 0, |v.want[pin]|)])
  }

  // A pinned buffer may be given back once no copy in flight reads or writes it, and none is put off that reads it.
  lemma {:induction false} ReleaseKeeps(v: View, pin: nat, content: seq<byte>)
    requires Balanced(v) && |v.book.before| <= pin < |v.mem| && |content| == |v.mem[pin]| && Unread(v, pin)
    requires forall c :: c in v.stream ==> c.dst != pin
    ensures pin < |v.want| && Balanced(Released(v, pin, content))
    ensures SameShape(Released(v, pin, content).mem, Released(v, pin, content).want)
    ensures Elsewhere(Eventual(v), Eventual(Released(v, pin, content)), pin, {})
  {
    hide TensorOk, Owed, RunOk, DeferredsOk, Promise, TensorsOk;
    BalancedFacts(v);
    var v' := Released(v, pin, content);
    forall c | c in v.stream ensures Detached(c, pin, {}, v'.want) {}
    ReplaceSound(v.mem, v'.mem, v.stream, v.want, v'.want, pin, {});
    ReleaseDeferreds(v.book, v.want, v'.want, Eventual(v), Eventual(v'), pin);
    ReleaseTensors(v, v'.want, Eventual(v'), pin);
  }

  lemma {:induction false} ReleaseTensors(v: View, want: Want, e: Mem, pin: nat)
    requires TensorsOk(v.book, v.want, v.live) && Promise(v.book, v.want, Eventual(v)) && |v.book.before| <= pin
    requires Elsewhere(v.want, want, pin, {}) && Elsewhere(Eventual(v), e, pin, {})
    ensures TensorsOk(v.book, want, v.live) && Promise(v.book, want, e)
  {
    hide TensorOk, Owed, Eventual;
    forall t, p | t in v.book.tensors && t < |want| == |e| && 0 <= p < |want[t]| && p < |e[t]|
      ensures Okay(want[t][p], e[t][p]) || Owed(v.book, t, p)
    {
      assert Okay(v.want[t][p], Eventual(v)[t][p]) || Owed(v.book, t, p);
    }
  }

  lemma {:induction false} ReleaseDeferreds(b: Book, want: Want, want': Want, e: Mem, e': Mem, pin: nat)
    requires DeferredsOk(|b.before|, b.tensors, b.deferred, want, e) && |b.before| <= pin
    requires Elsewhere(want, want', pin, {}) && Elsewhere(e, e', pin, {})
    requires forall t :: t in b.tensors ==> t < |b.before|
    requires forall j :: 0 <= j < |b.deferred| && !b.deferred[j].finalized ==> b.deferred[j].pin != pin
    ensures DeferredsOk(|b.before|, b.tensors, b.deferred, want', e')
  {
    hide RunOk;
    forall j | 0 <= j < |b.deferred| && !b.deferred[j].finalized
      ensures DeferredOk(|b.before|, b.tensors, want', e', b.deferred[j])
    {
      assert DeferredOk(|b.before|, b.tensors, want, e, b.deferred[j]);
    }
  }

  // ---------------------------------------------------------------------------
  // Finalize

  // The pinned buffer of a deferred copy has arrived: the second copy may be made now or go on the stream.
  lemma {:induction false} DeferredReady(v: View, i: nat)
    requires Balanced(v) && i < |v.book.deferred| && !v.book.deferred[i].finalized
    requires Holds(v.mem, v.want, v.book.deferred[i].pin, 0, Size(v.book.deferred[i].run.list))
    ensures var d := v.book.deferred[i];
      var c := Copy(d.tensor, d.run.base, Slice(d.pin, 0, Size(d.run.list)));
      && Fits(v.mem, c) && Aligned(v.want, c) && Routed(v.book, c) && Fed(v.mem, v.want, c)
      && Fed(Eventual(v), v.want, c)
      && d.tensor in v.book.tensors && RunOk(v.book.tensors[d.tensor], d.run)
  {
    var d := v.book.deferred[i];
    assert DeferredOk(|v.book.before|, v.book.tensors, v.want, Eventual(v), d);
    var c := Copy(d.tensor, d.run.base, Slice(d.pin, 0, Size(d.run.list)));
    BalancedFacts(v);
    hide Balanced, RunOk, Eventual, Size;
    SliceFed(v.mem, v.want, c);
    SliceFed(Eventual(v), v.want, c);
  }

  // The pinned buffers of the second copies still to be made, from entry 'i' on, have got their bytes.
  ghost predicate Arrived(ds: seq<Deferred>, m: Mem, want: Want, i: nat) {
    forall j :: i <= j < |ds| && !ds[j].finalized ==> Holds(m, want, ds[j].pin, 0, Size(ds[j].run.list))
  }

  lemma {:induction false} ArrivedStays(ds: seq<Deferred>, m: Mem, m': Mem, want: Want, less: Want, i: nat)
    requires Arrived(ds, m, want, i) && Better(m, m', want) && Weaker(want, less)
    ensures Arrived(ds, m', less, i)
  {
    forall j | i <= j < |ds| && !ds[j].finalized ensures Holds(m', less, ds[j].pin, 0, Size(ds[j].run.list)) {
      BetterHolds(m, m', want, ds[j].pin, 0, Size(ds[j].run.list));
      HoldsWeaker(m', want, less, ds[j].pin, 0, Size(ds[j].run.list));
    }
  }

  lemma {:induction false} ArrivedNext(ds: seq<Deferred>, m: Mem, want: Want, i: nat, d: Deferred)
    requires Arrived(ds, m, want, i) && i < |ds|
    ensures !ds[i].finalized ==> Holds(m, want, ds[i].pin, 0, Size(ds[i].run.list))
    ensures Arrived(ds, m, want, i + 1) && Arrived(ds[i := d], m, want, i + 1)
  {}

  // Once the stream has drained, every pinned buffer has its bytes.
  lemma {:induction false} DrainedArrived(v: View)
    requires Balanced(v) && (v.stream == [] || forall j :: 0 <= j < |v.book.deferred| ==> v.book.deferred[j].finalized)
    ensures Arrived(v.book.deferred, v.mem, v.want, 0)
  {
    forall j | 0 <= j < |v.book.deferred| && !v.book.deferred[j].finalized
      ensures Holds(v.mem, v.want, v.book.deferred[j].pin, 0, Size(v.book.deferred[j].run.list))
    {
      assert DeferredOk(|v.book.before|, v.book.tensors, v.want, Eventual(v), v.book.deferred[j]);
    }
  }

  // Nobody owes anything any more.
  ghost predicate Settled(b: Book) {
    && b.open.Idle?
    && (forall j :: 0 <= j < |b.deferred| ==> b.deferred[j].finalized)
    && (forall j :: 0 <= j < |b.jobs| ==> b.jobs[j].proto.posts != 0)
  }

  // What a tensor is to hold once everything has landed: the slice of every live request is its input,
  // and no byte past the accepted inputs was written.
  ghost predicate Delivered(parts: seq<seq<byte>>, initial: seq<byte>, block: seq<byte>, live: seq<bool>) {
    && |block| == |initial| && |live| == |parts|
    && (forall k {:trigger parts[k]} :: 0 <= k < |parts| && live[k] && Off(parts, k + 1) <= |initial| ==>
         Off(parts, k) <= Off(parts, k + 1) && block[Off(parts, k)..Off(parts, k + 1)] == parts[k])
    && (forall p :: AcceptedBytes(parts, |initial|) <= p < |initial| ==> block[p] == initial[p])
  }

  lemma {:induction false} SettledHolds(v: View, t: nat)
    requires Balanced(v) && Settled(v.book) && t in v.book.tensors
    ensures t < |v.want| && Holds(Eventual(v), v.want, t, 0, |v.want[t]|)
  {
    BalancedTensor(v, t);
    forall p | 0 <= p < |v.want[t]| && p < |Eventual(v)[t]| ensures Okay(v.want[t][p], Eventual(v)[t][p]) {
      assert !Owed(v.book, t, p);
    }
  }

  // With everything settled, the drained memory holds the inputs side by side.
  lemma {:induction false} SettledDelivers(v: View, t: nat)
    requires Balanced(v) && Settled(v.book) && t in v.book.tensors
    ensures t < |Eventual(v)|
    ensures Delivered(v.book.tensors[t].parts, v.book.tensors[t].initial, Eventual(v)[t], v.live)
    ensures Certain(v.book.tensors, v.want) ==> Eventual(v)[t] == v.book.tensors[t].goal
  {
    hide Balanced, Settled, Eventual, Wanted, Certain, TensorOk, Off;
    SettledHolds(v, t);
    BalancedTensor(v, t);
    TensorTail(v.book.tensors[t], v.want[t], v.live);
    var T, block := v.book.tensors[t], Eventual(v)[t];
    forall k | 0 <= k < |T.parts| && v.live[k] && Off(T.parts, k + 1) <= T.Cap()
      ensures Off(T.parts, k) <= Off(T.parts, k + 1) && block[Off(T.parts, k)..Off(T.parts, k + 1)] == T.parts[k]
    {
      OffStep(T.parts, k);
      PartDelivered(T, v.want[t], block, v.live, k);
    }
    if Certain(v.book.tensors, v.want) {
      forall p | 0 <= p < |block| ensures block[p] == T.goal[p] {
        CertainAt(v.book.tensors, v.want, t, p);
      }
    }
  }

  lemma {:induction false} TensorTail(T: Tensor, w: seq<Option<byte>>, live: seq<bool>)
    requires TensorOk(T, w, live)
    ensures |w| == |T.initial| == |T.goal| == T.Cap() && |live| == |T.parts|
    ensures forall p :: 0 <= p < |w| ==> w[p] == None || w[p] == Some(T.goal[p])
    ensures forall p :: AcceptedBytes(T.parts, |T.initial|) <= p < |w| ==> w[p] == Some(T.initial[p])
  {}

  lemma {:induction false} CertainAt(tensors: map<nat, Tensor>, want: Want, t: nat, p: nat)
    requires Certain(tensors, want) && t in tensors && t < |want| && p < |want[t]|
    ensures want[t][p].Some?
  {}

  lemma {:induction false} PartDelivered(T: Tensor, w: seq<Option<byte>>, block: seq<byte>, live: seq<bool>, k: nat)
    requires TensorOk(T, w, live) && |block| == |w| && k < |T.parts| && live[k] && Off(T.parts, k + 1) <= T.Cap()
    requires forall p :: 0 <= p < |w| ==> Okay(w[p], block[p])
    ensures block[Off(T.parts, k)..Off(T.parts, k) + |T.parts[k]|] == T.parts[k]
  {
    hide Off, Laid;
    var lo := Off(T.parts, k);
    OffStep(T.parts, k);
    forall p | lo <= p < Off(T.parts, k + 1) ensures block[p] == T.parts[k][p - lo] {
      GoalAt(T, k, p);
      assert w[p] == Some(T.goal[p]);
    }
  }

  // Work left in the queue for some worker.
  ghost predicate AllIdle(gs: seq<Job>) {
    forall j, i :: 0 <= j < |gs| && 0 <= i < |gs[j].proto.tasks| ==> !AsyncCopy.Runnable(gs[j].proto, i)
  }

  // With nothing left to run, the completions that have come are those that ever will.
  lemma {:induction false} IdlePosts(gs: seq<Job>, workers: nat, risky: set<nat>)
    requires JobsRun(gs) && QueueOk(gs, workers, risky) && AllIdle(gs)
    ensures Posts(gs) == |gs| <==> forall j :: 0 <= j < |gs| ==> WillComplete(gs[j])
  {
    JobsShape(gs);
    PostsBound(gs);
    forall j | 0 <= j < |gs| ensures gs[j].proto.posts == 1 <==> WillComplete(gs[j]) {
      assert JobRuns(gs[j]) && JobHanded(gs[j], workers, risky);
      AsyncCopy.StuckCount(gs[j].config, gs[j].proto);
    }
    if forall j :: 0 <= j < |gs| ==> WillComplete(gs[j]) { PostsAll(gs); }
  }

  lemma {:induction false} PostsAll(gs: seq<Job>)
    requires forall j :: 0 <= j < |gs| ==> gs[j].proto.posts == 1
    ensures Posts(gs) == |gs|
    decreases |gs|
  {
    if gs != [] { PostsAll(gs[..|gs| - 1]); }
  }

  lemma {:induction false} AllPosted(gs: seq<Job>)
    requires JobsRun(gs) && Posts(gs) == |gs|
    ensures forall j :: 0 <= j < |gs| ==> gs[j].proto.posts == 1 && WillComplete(gs[j])
  {
    JobsShape(gs);
    PostsBound(gs);
    forall j | 0 <= j < |gs| ensures WillComplete(gs[j]) {
      assert JobRuns(gs[j]);
      AsyncCopy.PostedFull(gs[j].config, gs[j].proto);
    }
  }

  lemma {:induction false} JobsOnComplete(gs: seq<Job>, gs': seq<Job>)
    requires |gs'| == |gs| && JobsOn(gs, gs', |gs|)
    ensures (forall j :: 0 <= j < |gs| ==> WillComplete(gs[j])) <==>
            (forall j :: 0 <= j < |gs'| ==> WillComplete(gs'[j]))
  {
    assert forall j :: 0 <= j < |gs| ==> JobGoesOn(gs[j], gs'[j]);
  }

  // ---------------------------------------------------------------------------
  // The pinned flushes there have been

  // Runs still in somebody's hands are among them.
  ghost predicate Held(ds: seq<Deferred>, gs: seq<Job>, flushed: seq<seq<Pending>>) {
    && (forall j :: 0 <= j < |ds| ==> ds[j].run.list in flushed)
    && (forall j :: 0 <= j < |gs| ==> gs[j].run.list in flushed)
  }

  lemma {:induction false} HeldMore(ds: seq<Deferred>, gs: seq<Job>, flushed: seq<seq<Pending>>, f: seq<Pending>)
    requires Held(ds, gs, flushed)
    ensures Held(ds, gs, flushed + [f])
  {}

  lemma {:induction false} HeldDeferred(ds: seq<Deferred>, gs: seq<Job>, flushed: seq<seq<Pending>>, d: Deferred)
    requires Held(ds, gs, flushed) && d.run.list in flushed
    ensures Held(ds + [d], gs, flushed)
  {}

  lemma {:induction false} HeldJob(ds: seq<Deferred>, gs: seq<Job>, flushed: seq<seq<Pending>>, g: Job)
    requires Held(ds, gs, flushed) && g.run.list in flushed
    ensures Held(ds, gs + [g], flushed)
  {}

  lemma {:induction false} HeldStep(ds: seq<Deferred>, gs: seq<Job>, flushed: seq<seq<Pending>>, j: nat, g: Job)
    requires Held(ds, gs, flushed) && j < |gs| && g.run == gs[j].run
    ensures gs[j].run.list in flushed && Held(ds, gs[j := g], flushed)
  {}

  lemma {:induction false} HeldSettled(ds: seq<Deferred>, gs: seq<Job>, flushed: seq<seq<Pending>>, i: nat)
    requires Held(ds, gs, flushed) && i < |ds|
    ensures ds[i].run.list in flushed && Held(ds[i := ds[i].(finalized := true)], gs, flushed)
  {}

  ghost predicate Employed(gs: seq<Job>, f: seq<Pending>) {
    exists j :: 0 <= j < |gs| && gs[j].run.list == f
  }

  // Every flush has its job, unless the pinned pool may have had no room for it.
  ghost predicate Tallied(gs: seq<Job>, flushed: seq<seq<Pending>>, roomy: bool) {
    forall f :: f in flushed && (roomy || Size(f) == 0) ==> Employed(gs, f)
  }

  lemma {:induction false} EmployedOn(gs: seq<Job>, gs': seq<Job>, f: seq<Pending>)
    requires Employed(gs, f) && JobsOn(gs, gs', |gs|)
    ensures Employed(gs', f)
  {
    var j :| 0 <= j < |gs| && gs[j].run.list == f;
    assert JobGoesOn(gs[j], gs'[j]);
  }

  lemma {:induction false} TalliedOn(gs: seq<Job>, gs': seq<Job>, flushed: seq<seq<Pending>>, roomy: bool)
    requires Tallied(gs, flushed, roomy) && JobsOn(gs, gs', |gs|)
    ensures Tallied(gs', flushed, roomy)
  {
    hide Employed, Size, JobsOn;
    forall f | f in flushed && (roomy || Size(f) == 0) ensures Employed(gs', f) { EmployedOn(gs, gs', f); }
  }

  lemma {:induction false} TalliedMore(gs: seq<Job>, flushed: seq<seq<Pending>>, roomy: bool, f: seq<Pending>)
    requires Tallied(gs, flushed, roomy) && (roomy || Size(f) == 0 ==> Employed(gs, f))
    ensures Tallied(gs, flushed + [f], roomy)
  {
    hide Employed, Size;
  }

  // Every flush brings its counter to zero, and no AddTask for it may be refused.
  ghost predicate Smooth(flushed: seq<seq<Pending>>, workers: nat, risky: set<nat>) {
    workers > 1 ==> forall f :: f in flushed ==> Completes(|f|, workers) && Reqs(f) * risky == {}
  }

  // Some flush that was handed to the workers for certain never brings its counter to zero.
  ghost predicate Stuck(flushed: seq<seq<Pending>>, workers: nat, roomy: bool) {
    workers > 1 && exists f :: f in flushed && (roomy || Size(f) == 0) && !Completes(|f|, workers)
  }

  lemma {:induction false} SmoothCompletes(ds: seq<Deferred>, gs: seq<Job>, flushed: seq<seq<Pending>>, workers: nat,
      risky: set<nat>)
    requires QueueOk(gs, workers, risky) && Held(ds, gs, flushed) && Smooth(flushed, workers, risky)
    ensures forall j :: 0 <= j < |gs| ==> WillComplete(gs[j])
  {
    forall j | 0 <= j < |gs| ensures WillComplete(gs[j]) { assert JobHanded(gs[j], workers, risky); }
  }

  lemma {:induction false} StuckBlocks(gs: seq<Job>, flushed: seq<seq<Pending>>, workers: nat, risky: set<nat>,
      roomy: bool)
    requires QueueOk(gs, workers, risky) && (workers > 1 ==> Tallied(gs, flushed, roomy))
    requires Stuck(flushed, workers, roomy)
    ensures exists j :: 0 <= j < |gs| && !WillComplete(gs[j])
  {
    hide Size, Completes;
    var f :| f in flushed && (roomy || Size(f) == 0) && !Completes(|f|, workers);
    assert Employed(gs, f);
    var j :| 0 <= j < |gs| && gs[j].run.list == f;
    assert JobHanded(gs[j], workers, risky);
  }

  // Where every flush has a job and nothing is refused, the two are opposites.
  lemma {:induction false} SmoothOrStuck(flushed: seq<seq<Pending>>, workers: nat)
    ensures Smooth(flushed, workers, {}) <==> !Stuck(flushed, workers, true)
  {}
}
