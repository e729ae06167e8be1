// What the responder owes: which response buffers have their slice of an output tensor, or get it in the end.

module ScatterBooks {
  import opened Memory

  // An output of a response, and the slice of the tensor 'tensor', in memory 'from', that belongs in its buffer
  // 'block'.
  datatype Slot = Slot(req: nat, name: string, tensor: nat, from: MemoryType, off: nat, size: nat, block: nat,
      memType: MemoryType)

  function Span(list: seq<Slot>, k: nat): nat
    requires k <= |list|
  {
    if k == 0 then 0 else Span(list, k - 1) + list[k - 1].size
  }

  function Size(list: seq<Slot>): nat {
    Span(list, |list|)
  }

  lemma {:induction false} SizeNone()
    ensures Size([]) == 0
  {}

  lemma {:induction false} SizeIs(list: seq<Slot>)
    ensures Size(list) == Span(list, |list|)
  {}

  // Slots whose slices lie side by side in the tensor, from 'base' on.
  datatype Run = Run(tensor: nat, base: nat, list: seq<Slot>)

  // A pinned buffer with the bytes of a run, to be handed out in Finalize.
  datatype Deferred = Deferred(pin: nat, run: Run)

  // Blocks of 'before' exist before the responder; response buffers and pinned buffers are allocated above. The
  // buffers in 'spoilt' get these bytes instead of their slices, as the pinned buffers they are copied from have been
  // released.
  datatype Book = Book(before: Mem, pins: set<nat>, slots: seq<Slot>, hand: seq<Slot>, pending: Run,
      deferred: seq<Deferred>, spoilt: map<nat, seq<byte>>)

  datatype View = View(mem: Mem, stream: seq<Copy>, want: Want, live: seq<bool>, book: Book)

  ghost function Eventual(v: View): (r: Mem)
    ensures SameShape(v.mem, r)
  {
    Drained(v.mem, v.stream)
  }

  // ---------------------------------------------------------------------------

  lemma {:induction false} SpanMonotone(list: seq<Slot>, i: nat, j: nat)
    requires i <= j <= |list|
    ensures Span(list, i) <= Span(list, j)
    decreases j
  {
    if i < j { SpanMonotone(list, i, j - 1); }
  }

  lemma {:induction false} SpanZero(list: seq<Slot>)
    ensures Span(list, 0) == 0
  {}

  lemma {:induction false} SpanAppend(list: seq<Slot>, s: Slot, k: nat)
    requires k <= |list|
    ensures Span(list + [s], k) == Span(list, k)
  {
    if k > 0 { SpanAppend(list, s, k - 1); }
  }

  lemma {:induction false} SizeAppend(list: seq<Slot>, s: Slot)
    ensures Size(list + [s]) == Size(list) + s.size
    ensures forall k :: 0 <= k <= |list| ==> Span(list + [s], k) == Span(list, k)
  {
    forall k | 0 <= k <= |list| ensures Span(list + [s], k) == Span(list, k) { SpanAppend(list, s, k); }
  }

  function Sure(data: seq<byte>): (r: seq<Option<byte>>)
    ensures |r| == |data| && forall p :: 0 <= p < |r| ==> r[p] == Some(data[p])
  {
    seq(|data|, p requires 0 <= p < |data| => Some(data[p]))
  }

  function Nothing(n: nat): (r: seq<Option<byte>>)
    ensures |r| == n && forall p :: 0 <= p < |r| ==> r[p] == None
  {
    seq(n, p => None)
  }

  // Nothing but its slice is promised to a response; the promise is given up only when the response has been sent.
  ghost predicate SlotOk(b: Book, want: Want, live: seq<bool>, s: Slot) {
    && s.tensor < |b.before| <= s.block < |want| && s.block !in b.pins && s.req < |live|
    && s.off + s.size <= |b.before[s.tensor]|
    && if s.block in b.spoilt then |b.spoilt[s.block]| == s.size && want[s.block] == Sure(b.spoilt[s.block])
       else want[s.block] == Sure(b.before[s.tensor][s.off..s.off + s.size])
            || (want[s.block] == Nothing(s.size) && !live[s.req])
  }

  ghost predicate SlotsOk(b: Book, want: Want, live: seq<bool>) {
    && (forall i :: 0 <= i < |b.slots| ==> SlotOk(b, want, live, b.slots[i]))
    && (forall i, j :: 0 <= i < j < |b.slots| ==> b.slots[i].block < b.slots[j].block)
  }

  ghost predicate RunOk(b: Book, run: Run) {
    && run.tensor < |b.before| && run.base + Size(run.list) <= |b.before[run.tensor]|
    && forall j :: 0 <= j < |run.list| ==> EntryOk(b, run, j)
  }

  ghost predicate PendingOk(b: Book) {
    b.pending.list == [] || RunOk(b, b.pending)
  }

  ghost predicate EntryOk(b: Book, run: Run, j: nat)
    requires j < |run.list|
  {
    && run.list[j] in b.slots && run.list[j].tensor == run.tensor
    && (run.list[j].size > 0 ==> run.list[j].off == run.base + Span(run.list, j))
  }

  // 'pin' is meant to hold the bytes of the run.
  ghost predicate Staging(b: Book, want: Want, pin: nat, run: Run) {
    && pin in b.pins && |b.before| <= pin < |want| && RunOk(b, run)
    && want[pin] == Sure(b.before[run.tensor][run.base..run.base + Size(run.list)])
  }

  ghost predicate DeferredOk(b: Book, want: Want, e: Mem, d: Deferred) {
    Staging(b, want, d.pin, d.run) && Holds(e, want, d.pin, 0, Size(d.run.list))
  }

  ghost predicate Owed(b: Book, s: Slot) {
    s in b.hand || s in b.pending.list || exists j :: 0 <= j < |b.deferred| && s in b.deferred[j].run.list
  }

  ghost predicate Has(e: Mem, want: Want, s: Slot) {
    Holds(e, want, s.block, 0, s.size)
  }

  ghost predicate Promise(b: Book, want: Want, e: Mem) {
    forall i :: 0 <= i < |b.slots| ==> Has(e, want, b.slots[i]) || Owed(b, b.slots[i])
  }

  // The tensors are read only.
  ghost predicate Frozen(before: Mem, m: Mem, want: Want) {
    && |before| <= |m| && |before| <= |want|
    && forall t :: 0 <= t < |before| ==> m[t] == before[t] && want[t] == Sure(before[t])
  }

  ghost predicate Routed(b: Book, c: Copy) {
    |b.before| <= c.dst && c.src.Slice? && (c.src.blk < |b.before| || c.src.blk in b.pins)
  }

  ghost predicate StreamOk(b: Book, stream: seq<Copy>) {
    forall c :: c in stream ==> Routed(b, c)
  }

  // Every response buffer holds its slice once the stream drains, or somebody still owes it.
  ghost predicate Balanced(v: View) {
    && Sound(v.mem, v.stream, v.want)
    && Frozen(v.book.before, v.mem, v.want)
    && StreamOk(v.book, v.stream)
    && SlotsOk(v.book, v.want, v.live)
    && (forall p :: p in v.book.pins ==> |v.book.before| <= p < |v.want|)
    && PendingOk(v.book)
    && (forall j :: 0 <= j < |v.book.deferred| ==> DeferredOk(v.book, v.want, Eventual(v), v.book.deferred[j]))
    && Promise(v.book, v.want, Eventual(v))
  }

  lemma {:induction false} BalancedFacts(v: View)
    requires Balanced(v)
    ensures Sound(v.mem, v.stream, v.want) && SameShape(v.mem, v.want) && SameShape(Eventual(v), v.want)
    ensures forall c :: c in v.stream ==> Fits(v.mem, c)
    ensures |v.book.before| <= |v.mem| && PendingOk(v.book)
  {
    SoundFits(v.mem, v.stream, v.want);
  }

  lemma {:induction false} SlotFacts(v: View, s: Slot)
    requires Balanced(v) && s in v.book.slots
    ensures SlotOk(v.book, v.want, v.live, s)
  {}

  // ---------------------------------------------------------------------------
  // Memory steps

  lemma {:induction false} HasStays(e: Mem, e': Mem, want: Want, s: Slot)
    requires Has(e, want, s) && Better(e, e', want)
    ensures Has(e', want, s)
  {
    BetterHolds(e, e', want, s.block, 0, s.size);
  }

  lemma {:induction false} MoveKeeps(v: View, v': View)
    requires Balanced(v) && v' == v.(mem := v'.mem, stream := v'.stream)
    requires Sound(v'.mem, v'.stream, v'.want) && StreamOk(v'.book, v'.stream) && Frozen(v.book.before, v'.mem, v.want)
    requires Better(Eventual(v), Eventual(v'), v.want)
    ensures Balanced(v')
  {
    hide RunOk, Frozen, StreamOk, SlotOk, Sound, Better, Eventual, Owed, Has;
    forall j | 0 <= j < |v.book.deferred| ensures DeferredOk(v.book, v.want, Eventual(v'), v.book.deferred[j]) {
      var d := v.book.deferred[j];
      assert DeferredOk(v.book, v.want, Eventual(v), d);
      BetterHolds(Eventual(v), Eventual(v'), v.want, d.pin, 0, Size(d.run.list));
    }
    forall i | 0 <= i < |v.book.slots|
      ensures Has(Eventual(v'), v.want, v.book.slots[i]) || Owed(v.book, v.book.slots[i])
    {
      if Has(Eventual(v), v.want, v.book.slots[i]) { HasStays(Eventual(v), Eventual(v'), v.want, v.book.slots[i]); }
    }
  }

  lemma {:induction false} FrozenApply(before: Mem, m: Mem, ops: seq<Copy>, want: Want)
    requires Frozen(before, m, want) && (forall c :: c in ops ==> Fits(m, c) && |before| <= c.dst)
    ensures Frozen(before, Apply(m, ops), want)
  {
    forall t | 0 <= t < |before| ensures Apply(m, ops)[t] == before[t] { UntouchedKeeps(m, ops, t); }
  }

  lemma {:induction false} LandKeeps(v: View, k: nat)
    requires Balanced(v) && k <= |v.stream|
    ensures (forall c :: c in v.stream[..k] ==> Fits(v.mem, c))
    ensures var v' := v.(mem := Apply(v.mem, v.stream[..k]), stream := v.stream[k..]);
      Balanced(v') && Eventual(v') == Eventual(v) && Better(v.mem, v'.mem, v.want)
  {
    hide RunOk, SlotOk, Sound, Better, Owed, Has, DeferredOk, Promise, SlotsOk, Frozen;
    BalancedFacts(v);
    LandSound(v.mem, v.stream, v.want, k);
    var v' := v.(mem := Apply(v.mem, v.stream[..k]), stream := v.stream[k..]);
    assert forall c :: c in v'.stream ==> c in v.stream && Routed(v.book, c);
    assert forall c :: c in v.stream[..k] ==> c in v.stream && Routed(v.book, c);
    FrozenApply(v.book.before, v.mem, v.stream[..k], v.want);
    BetterRefl(Eventual(v), v.want);
    MoveKeeps(v, v');
  }

  lemma {:induction false} FrozenDo(before: Mem, m: Mem, c: Copy, want: Want)
    requires Frozen(before, m, want) && Fits(m, c) && |before| <= c.dst
    ensures Frozen(before, Do(m, c), want)
  {}

  lemma {:induction false} CopyKeeps(v: View, c: Copy, async: bool)
    requires Balanced(v) && Aligned(v.want, c) && Fits(v.mem, c) && Routed(v.book, c)
    requires Fed(if async then Eventual(v) else v.mem, v.want, c)
    ensures var v' := if async then v.(stream := v.stream + [c]) else v.(mem := Do(v.mem, c));
      && Balanced(v') && Better(Eventual(v), Eventual(v'), v.want) && Better(v.mem, v'.mem, v.want)
      && Holds(Eventual(v'), v.want, c.dst, c.off, c.off + c.src.Len())
  {
    hide RunOk, SlotOk, Sound, Better, Owed, Has, DeferredOk, Promise, SlotsOk, Frozen, Aligned, Fed, Fits, Holds;
    IssueSound(v.mem, v.stream, v.want, c, async);
    if !async { FrozenDo(v.book.before, v.mem, c, v.want); }
    MoveKeeps(v, if async then v.(stream := v.stream + [c]) else v.(mem := Do(v.mem, c)));
  }

  lemma {:induction false} KillKeeps(v: View, live: seq<bool>)
    requires Balanced(v) && |live| == |v.live| && forall k :: 0 <= k < |live| && live[k] ==> v.live[k]
    ensures Balanced(v.(live := live)) && Eventual(v.(live := live)) == Eventual(v)
  {
    hide RunOk, DeferredOk, Promise, Sound, Frozen;
    forall i | 0 <= i < |v.book.slots| ensures SlotOk(v.book, v.want, live, v.book.slots[i]) {
      assert SlotOk(v.book, v.want, v.live, v.book.slots[i]);
    }
  }

  // ---------------------------------------------------------------------------
  // Copies that may be made

  // What an output tensor holds, now and later.
  lemma {:induction false} FrozenHolds(v: View, t: nat, lo: nat, hi: nat)
    requires Balanced(v) && t < |v.book.before|
    ensures Holds(v.mem, v.want, t, lo, hi) && Holds(Eventual(v), v.want, t, lo, hi)
    ensures v.want[t] == Sure(v.book.before[t])
  {
    BalancedFacts(v);
    assert forall c :: c in v.stream ==> Routed(v.book, c);
    QuietBlock(v.mem, v.stream, v.want, t);
  }

  // Out of the tensor into the buffer of a response. An empty slice may come from anywhere.
  lemma {:induction false} SlotCopy(v: View, s: Slot, from: nat)
    requires Balanced(v) && s in v.book.slots && v.book.spoilt == map[]
    requires if s.size > 0 then from == s.off else from <= |v.book.before[s.tensor]|
    ensures var c := Copy(s.block, 0, Slice(s.tensor, from, s.size));
      Fits(v.mem, c) && Aligned(v.want, c) && Routed(v.book, c) && Fed(v.mem, v.want, c) && Fed(Eventual(v), v.want, c)
  {
    hide Balanced, Sound, Frozen, Eventual, Fed, Holds, Aligned, SlotOk;
    SlotFacts(v, s);
    BalancedFacts(v);
    SlotOkTensor(v.book, v.want, v.live, s);
    FrozenHolds(v, s.tensor, from, from + s.size);
    var c := Copy(s.block, 0, Slice(s.tensor, from, s.size));
    SlotAligned(v.book, v.want, v.live, s, from);
    SliceFed(v.mem, v.want, c);
    SliceFed(Eventual(v), v.want, c);
  }

  lemma {:induction false} SlotOkTensor(b: Book, want: Want, live: seq<bool>, s: Slot)
    requires SlotOk(b, want, live, s)
    ensures s.tensor < |b.before| <= s.block
  {}

  lemma {:induction false} SlotAligned(b: Book, want: Want, live: seq<bool>, s: Slot, from: nat)
    requires SlotOk(b, want, live, s) && s.block !in b.spoilt && want[s.tensor] == Sure(b.before[s.tensor])
    requires if s.size > 0 then from == s.off else from <= |b.before[s.tensor]|
    ensures Aligned(want, Copy(s.block, 0, Slice(s.tensor, from, s.size)))
  {
    forall p | 0 <= p < s.size ensures want[s.block][p] == None || want[s.block][p] == want[s.tensor][from + p] {}
  }

  // Out of the tensor into a pinned buffer.
  lemma {:induction false} PinCopy(v: View, pin: nat, run: Run)
    requires Balanced(v) && Staging(v.book, v.want, pin, run)
    ensures var c := Copy(pin, 0, Slice(run.tensor, run.base, Size(run.list)));
      Fits(v.mem, c) && Aligned(v.want, c) && Routed(v.book, c) && Fed(v.mem, v.want, c) && Fed(Eventual(v), v.want, c)
  {
    hide Balanced, Sound, Frozen, Eventual, RunOk, Size, Fed, Holds;
    BalancedFacts(v);
    StagingFacts(v.book, v.want, pin, run);
    FrozenHolds(v, run.tensor, run.base, run.base + Size(run.list));
    var c := Copy(pin, 0, Slice(run.tensor, run.base, Size(run.list)));
    SliceFed(v.mem, v.want, c);
    SliceFed(Eventual(v), v.want, c);
  }

  lemma {:induction false} StagingFacts(b: Book, want: Want, pin: nat, run: Run)
    requires Staging(b, want, pin, run)
    ensures run.tensor < |b.before| <= pin < |want| && run.base + Size(run.list) <= |b.before[run.tensor]|
    ensures pin in b.pins && |want[pin]| == Size(run.list)
    ensures forall p :: 0 <= p < Size(run.list) ==> want[pin][p] == Some(b.before[run.tensor][run.base + p])
  {}

  // Out of a pinned buffer into the buffer of a response.
  lemma {:induction false} HandOut(v: View, pin: nat, run: Run, j: nat, m: Mem)
    requires Balanced(v) && Staging(v.book, v.want, pin, run) && j < |run.list| && SameShape(m, v.want)
    requires Holds(m, v.want, pin, 0, Size(run.list)) && v.book.spoilt == map[]
    ensures Span(run.list, j + 1) == Span(run.list, j) + run.list[j].size <= Size(run.list)
    ensures var s := run.list[j]; var c := Copy(s.block, 0, Slice(pin, Span(run.list, j), s.size));
      Fits(v.mem, c) && Aligned(v.want, c) && Routed(v.book, c) && Fits(m, c) && Fed(m, v.want, c)
  {
    hide Balanced, Sound, Frozen, Eventual, Fed, Holds, Span, Size, RunOk;
    var s := run.list[j];
    EntryFacts(v.book, run, j);
    StagingFacts(v.book, v.want, pin, run);
    SizeIs(run.list);
    SlotFacts(v, s);
    BalancedFacts(v);
    SpanMonotone(run.list, j + 1, |run.list|);
    var c := Copy(s.block, 0, Slice(pin, Span(run.list, j), s.size));
    assert Aligned(v.want, c);
    FitsShape(v.want, v.mem, c);
    HoldsWithin(m, v.want, pin, 0, Size(run.list), Span(run.list, j), Span(run.list, j) + s.size);
    hide Aligned, SlotOk;
    SliceFed(m, v.want, c);
  }

  // ---------------------------------------------------------------------------
  // Entries of the books

  lemma {:induction false} BookKeeps(v: View, b: Book)
    requires Balanced(v) && b.before == v.book.before && b.pins == v.book.pins && b.slots == v.book.slots
    requires PendingOk(b) && b.spoilt == v.book.spoilt
    requires forall j :: 0 <= j < |b.deferred| ==> DeferredOk(b, v.want, Eventual(v), b.deferred[j])
    requires forall i :: 0 <= i < |b.slots| && Owed(v.book, b.slots[i]) ==>
      Has(Eventual(v), v.want, b.slots[i]) || Owed(b, b.slots[i])
    ensures Balanced(v.(book := b)) && Eventual(v.(book := b)) == Eventual(v)
  {
    hide RunOk, DeferredOk, Sound, Frozen, Has, Owed;
    forall c | c in v.stream ensures Routed(b, c) { assert Routed(v.book, c); }
    forall i | 0 <= i < |b.slots| ensures SlotOk(b, v.want, v.live, b.slots[i]) {
      assert SlotOk(v.book, v.want, v.live, b.slots[i]);
    }
  }

  lemma {:induction false} SameRun(b: Book, b': Book, run: Run)
    requires RunOk(b, run) && b'.before == b.before && forall s :: s in b.slots ==> s in b'.slots
    ensures RunOk(b', run)
  {
    forall j | 0 <= j < |run.list| ensures EntryOk(b', run, j) { assert EntryOk(b, run, j); }
  }

  lemma {:induction false} SamePending(b: Book, b': Book)
    requires PendingOk(b) && b'.pending == b.pending && b'.before == b.before
    requires forall s :: s in b.slots ==> s in b'.slots
    ensures PendingOk(b')
  {
    if b.pending.list != [] { SameRun(b, b', b.pending); }
  }

  lemma {:induction false} SameDeferred(b: Book, b': Book, want: Want, e: Mem, d: Deferred)
    requires DeferredOk(b, want, e, d) && b'.before == b.before && b.pins <= b'.pins
    requires forall s :: s in b.slots ==> s in b'.slots
    ensures DeferredOk(b', want, e, d)
  {
    SameRun(b, b', d.run);
  }

  // The responder takes a response buffer in hand.
  lemma {:induction false} TakeKeeps(v: View, content: seq<byte>, s: Slot)
    requires Balanced(v) && s.block == |v.mem| && s.size == |content| && s.req < |v.live| && v.book.spoilt == map[]
    requires s.tensor < |v.book.before| && s.off + s.size <= |v.book.before[s.tensor]|
    ensures var promise := Sure(v.book.before[s.tensor][s.off..s.off + s.size]);
      var v' := v.(mem := v.mem + [content], want := v.want + [promise],
                   book := v.book.(slots := v.book.slots + [s], hand := v.book.hand + [s]));
      Balanced(v') && SameShape(v'.mem, v'.want) && Eventual(v') == Eventual(v) + [content]
  {
    hide DeferredOk, Owed, RunOk, Has;
    var promise := Sure(v.book.before[s.tensor][s.off..s.off + s.size]);
    BalancedFacts(v);
    SoundAllocate(v.mem, v.stream, v.want, content, promise);
    var b := v.book.(slots := v.book.slots + [s], hand := v.book.hand + [s]);
    GrowKeeps(v, content, promise, b);
    GrowSlots(v, content, promise, b);
    OwedHand(b, s);
    forall i, j | 0 <= i < j < |b.slots| ensures b.slots[i].block < b.slots[j].block {
      assert SlotOk(v.book, v.want, v.live, b.slots[i]);
    }
  }

  lemma {:induction false} OwedHand(b: Book, s: Slot)
    requires s in b.hand
    ensures Owed(b, s)
  {}

  lemma {:induction false} OwedMore(b: Book, b': Book, s: Slot)
    requires Owed(b, s) && b'.pending == b.pending && b'.deferred == b.deferred
    requires forall h :: h in b.hand ==> h in b'.hand
    ensures Owed(b', s)
  {}

  // A block is allocated: what is said of the others stays.
  lemma {:induction false} GrowKeeps(v: View, content: seq<byte>, promise: seq<Option<byte>>, b: Book)
    requires Balanced(v) && |content| == |promise|
    requires b.before == v.book.before && v.book.pins <= b.pins && v.book.slots <= b.slots
    requires b.pending == v.book.pending && b.deferred == v.book.deferred
    ensures Sound(v.mem + [content], v.stream, v.want + [promise])
    ensures Frozen(b.before, v.mem + [content], v.want + [promise]) && StreamOk(b, v.stream) && PendingOk(b)
    ensures forall j :: 0 <= j < |b.deferred| ==>
      DeferredOk(b, v.want + [promise], Eventual(v) + [content], b.deferred[j])
  {
    hide Has, Owed, SlotOk;
    var want, e := v.want + [promise], Eventual(v) + [content];
    BalancedFacts(v);
    SoundAllocate(v.mem, v.stream, v.want, content, promise);
    forall c | c in v.stream ensures Routed(b, c) { assert Routed(v.book, c); }
    SamePending(v.book, b);
    forall j | 0 <= j < |b.deferred| ensures DeferredOk(b, want, e, b.deferred[j]) {
      var d := b.deferred[j];
      assert DeferredOk(v.book, v.want, Eventual(v), d);
      SameDeferred(v.book, b, v.want, Eventual(v), d);
      assert want[d.pin] == v.want[d.pin] && e[d.pin] == Eventual(v)[d.pin];
    }
    assert forall t :: 0 <= t < |b.before| ==> want[t] == v.want[t] && (v.mem + [content])[t] == v.mem[t];
  }

  // A pinned buffer for a run is allocated.
  lemma {:induction false} PinKeeps(v: View, content: seq<byte>)
    requires Balanced(v) && |content| == Size(v.book.pending.list)
    requires v.book.pending.tensor < |v.book.before| && v.book.pending.base <= |v.book.before[v.book.pending.tensor]|
    ensures var run := v.book.pending;
      && run.tensor < |v.book.before| && run.base + Size(run.list) <= |v.book.before[run.tensor]|
      && var promise := Sure(v.book.before[run.tensor][run.base..run.base + Size(run.list)]);
      var v' := v.(mem := v.mem + [content], want := v.want + [promise],
          book := v.book.(pins := v.book.pins + {|v.mem|}));
      && Balanced(v') && SameShape(v'.mem, v'.want) && Staging(v'.book, v'.want, |v.mem|, run)
      && (forall c :: c in v.stream ==> c.dst != |v.mem|)
  {
    hide DeferredOk, Owed, RunOk, Size, Has, SlotOk;
    var run := v.book.pending;
    PendingFacts(v);
    var promise := Sure(v.book.before[run.tensor][run.base..run.base + Size(run.list)]);
    BalancedFacts(v);
    SoundAllocate(v.mem, v.stream, v.want, content, promise);
    var b := v.book.(pins := v.book.pins + {|v.mem|});
    SameRun(v.book, b, run);
    GrowKeeps(v, content, promise, b);
    GrowSlots(v, content, promise, b);
    forall c | c in v.stream ensures c.dst != |v.mem| { assert Fits(v.mem, c); }
  }

  lemma {:induction false} PendingFacts(v: View)
    requires Balanced(v) && v.book.pending.tensor < |v.book.before|
    requires v.book.pending.base <= |v.book.before[v.book.pending.tensor]|
    ensures var run := v.book.pending;
      RunOk(v.book, run) && run.tensor < |v.book.before| && run.base + Size(run.list) <= |v.book.before[run.tensor]|
  {}

  // Outputs already there stay what they are when a block is allocated.
  lemma {:induction false} GrowSlots(v: View, content: seq<byte>, promise: seq<Option<byte>>, b: Book)
    requires Balanced(v) && |content| == |promise|
    requires b.before == v.book.before && v.book.slots <= b.slots && b.pins <= v.book.pins + {|v.mem|}
    requires b.pending == v.book.pending && b.deferred == v.book.deferred && b.spoilt == v.book.spoilt
    requires forall h :: h in v.book.hand ==> h in b.hand
    ensures forall i :: 0 <= i < |v.book.slots| ==> SlotOk(b, v.want + [promise], v.live, b.slots[i])
    ensures forall i :: 0 <= i < |v.book.slots| ==>
      Has(Eventual(v) + [content], v.want + [promise], b.slots[i]) || Owed(b, b.slots[i])
  {
    hide RunOk, DeferredOk, Owed;
    BalancedFacts(v);
    forall i | 0 <= i < |v.book.slots| ensures SlotOk(b, v.want + [promise], v.live, b.slots[i])
        && (Has(Eventual(v) + [content], v.want + [promise], b.slots[i]) || Owed(b, b.slots[i])) {
      assert SlotOk(v.book, v.want, v.live, v.book.slots[i]);
      assert Has(Eventual(v), v.want, v.book.slots[i]) || Owed(v.book, v.book.slots[i]);
      if Owed(v.book, b.slots[i]) { OwedMore(v.book, b, b.slots[i]); }
    }
  }

  // The response has been sent: its buffer is no longer promised anything.
  lemma {:induction false} ForgetSlot(v: View, s: Slot)
    requires Balanced(v) && s in v.book.slots && s.req < |v.live| && !v.live[s.req] && v.book.spoilt == map[]
    ensures s.block < |v.want| && |v.want[s.block]| == s.size
    ensures var v' := v.(want := v.want[s.block := Nothing(s.size)]);
      && Balanced(v') && Eventual(v') == Eventual(v) && Has(Eventual(v), v'.want, s) && Weaker(v.want, v'.want)
  {
    hide Balanced, RunOk, Owed, Frozen, Sound, DeferredOk, Has, Eventual, Weaker;
    SlotFacts(v, s);
    BalancedFacts(v);
    WeakerSlot(v.want, s.block, s.size);
    ForgetSound(v, s);
    ForgetOthers(v, s);
    ForgetPromise(v, s);
    hide SlotOk;
    Rebalanced(v, v.want[s.block := Nothing(s.size)]);
  }

  lemma {:induction false} Rebalanced(v: View, less: Want)
    requires Balanced(v) && |less| == |v.want| && Sound(v.mem, v.stream, less) && Frozen(v.book.before, v.mem, less)
    requires SlotsOk(v.book, less, v.live) && Promise(v.book, less, Eventual(v))
    requires forall j :: 0 <= j < |v.book.deferred| ==> DeferredOk(v.book, less, Eventual(v), v.book.deferred[j])
    ensures Balanced(v.(want := less)) && Eventual(v.(want := less)) == Eventual(v)
  {
    hide RunOk, DeferredOk, Sound, Frozen, SlotsOk, Promise;
  }

  lemma {:induction false} WeakerSlot(want: Want, b: nat, n: nat)
    requires b < |want| && |want[b]| == n
    ensures Weaker(want, want[b := Nothing(n)])
  {}

  lemma {:induction false} ForgetSound(v: View, s: Slot)
    requires Balanced(v) && s in v.book.slots && s.block < |v.want| && |v.want[s.block]| == s.size
    ensures Sound(v.mem, v.stream, v.want[s.block := Nothing(s.size)])
    ensures Frozen(v.book.before, v.mem, v.want[s.block := Nothing(s.size)])
  {
    hide DeferredOk, RunOk, Promise;
    SlotFacts(v, s);
    var less := v.want[s.block := Nothing(s.size)];
    WeakerSlot(v.want, s.block, s.size);
    forall c | c in v.stream && c.src.Slice? && c.src.blk < |v.want| ensures less[c.src.blk] == v.want[c.src.blk] {
      assert Routed(v.book, c);
    }
    SoundWeaken(v.mem, v.stream, v.want, less);
  }

  lemma {:induction false} ForgetOthers(v: View, s: Slot)
    requires Balanced(v) && s in v.book.slots && s.req < |v.live| && !v.live[s.req] && v.book.spoilt == map[]
    requires s.block < |v.want| && |v.want[s.block]| == s.size
    ensures SlotsOk(v.book, v.want[s.block := Nothing(s.size)], v.live)
    ensures forall j :: 0 <= j < |v.book.deferred| ==>
      DeferredOk(v.book, v.want[s.block := Nothing(s.size)], Eventual(v), v.book.deferred[j])
  {
    hide RunOk, Promise, Sound, Frozen, Eventual;
    SlotFacts(v, s);
    var less := v.want[s.block := Nothing(s.size)];
    forall i | 0 <= i < |v.book.slots| ensures SlotOk(v.book, less, v.live, v.book.slots[i]) {
      assert SlotOk(v.book, v.want, v.live, v.book.slots[i]);
      if v.book.slots[i].block == s.block { SameBlock(v.book, s, i); }
    }
    forall j | 0 <= j < |v.book.deferred| ensures DeferredOk(v.book, less, Eventual(v), v.book.deferred[j]) {
      assert DeferredOk(v.book, v.want, Eventual(v), v.book.deferred[j]);
      assert less[v.book.deferred[j].pin] == v.want[v.book.deferred[j].pin];
    }
  }

  lemma {:induction false} ForgetPromise(v: View, s: Slot)
    requires Balanced(v) && s in v.book.slots && s.block < |v.want| && |v.want[s.block]| == s.size
    ensures var less := v.want[s.block := Nothing(s.size)];
      Promise(v.book, less, Eventual(v)) && Has(Eventual(v), less, s)
  {
    hide RunOk, DeferredOk, Frozen, Owed;
    BalancedFacts(v);
    var less := v.want[s.block := Nothing(s.size)];
    WeakerSlot(v.want, s.block, s.size);
    forall i | 0 <= i < |v.book.slots|
      ensures Has(Eventual(v), less, v.book.slots[i]) || Owed(v.book, v.book.slots[i])
    {
      assert Has(Eventual(v), v.want, v.book.slots[i]) || Owed(v.book, v.book.slots[i]);
      if Has(Eventual(v), v.want, v.book.slots[i]) {
        HoldsWeaker(Eventual(v), v.want, less, v.book.slots[i].block, 0, v.book.slots[i].size);
      }
    }
  }

  // No two outputs share a buffer.
  lemma {:induction false} SameBlock(b: Book, s: Slot, i: nat)
    requires (forall i, j :: 0 <= i < j < |b.slots| ==> b.slots[i].block < b.slots[j].block)
    requires s in b.slots && i < |b.slots| && b.slots[i].block == s.block
    ensures b.slots[i] == s
  {
    var j :| 0 <= j < |b.slots| && b.slots[j] == s;
  }

  // The slot in hand has got its bytes, or joins the pending run.
  lemma {:induction false} GiveKeeps(v: View, s: Slot)
    requires Balanced(v) && v.book.hand == [s] && Has(Eventual(v), v.want, s)
    ensures var b := v.book.(hand := []); Balanced(v.(book := b)) && Eventual(v.(book := b)) == Eventual(v)
  {
    hide Has;
    var b := v.book.(hand := []);
    SamePending(v.book, b);
    forall j | 0 <= j < |b.deferred| ensures DeferredOk(b, v.want, Eventual(v), b.deferred[j]) {
      SameDeferred(v.book, b, v.want, Eventual(v), b.deferred[j]);
    }
    BookKeeps(v, b);
  }

  lemma {:induction false} QueueKeeps(v: View, s: Slot) returns (run: Run)
    requires Balanced(v) && v.book.hand == [s] && s in v.book.slots && s.tensor < |v.book.before|
    requires s.off + s.size <= |v.book.before[s.tensor]|
    requires Size(v.book.pending.list) > 0 ==> v.book.pending.base + Size(v.book.pending.list) == s.off
    requires v.book.pending.list != [] ==> v.book.pending.tensor == s.tensor
    ensures var was := v.book.pending;
      run == Run(s.tensor, if Size(was.list) == 0 then s.off else was.base, was.list + [s])
    ensures Size(run.list) == Size(v.book.pending.list) + s.size
    ensures Size(run.list) > 0 ==> run.base + Size(run.list) == s.off + s.size
    ensures var b := v.book.(hand := [], pending := run);
      Balanced(v.(book := b)) && Eventual(v.(book := b)) == Eventual(v)
  {
    hide Has;
    var was := v.book.pending;
    run := Run(s.tensor, if Size(was.list) == 0 then s.off else was.base, was.list + [s]);
    var b := v.book.(hand := [], pending := run);
    RunAppend(v.book, b, s, run);
    forall j | 0 <= j < |b.deferred| ensures DeferredOk(b, v.want, Eventual(v), b.deferred[j]) {
      SameDeferred(v.book, b, v.want, Eventual(v), b.deferred[j]);
    }
    forall i | 0 <= i < |b.slots| && Owed(v.book, b.slots[i]) ensures Owed(b, b.slots[i]) {
      assert s in run.list;
    }
    BookKeeps(v, b);
  }

  lemma {:induction false} RunAppend(b: Book, b': Book, s: Slot, run: Run)
    requires PendingOk(b) && b'.before == b.before && b'.slots == b.slots && s in b.slots
    requires s.tensor < |b.before| && s.off + s.size <= |b.before[s.tensor]|
    requires Size(b.pending.list) > 0 ==> b.pending.base + Size(b.pending.list) == s.off
    requires b.pending.list != [] ==> b.pending.tensor == s.tensor
    requires run == Run(s.tensor, if Size(b.pending.list) == 0 then s.off else b.pending.base, b.pending.list + [s])
    ensures Size(run.list) == Size(b.pending.list) + s.size && RunOk(b', run)
    ensures Size(run.list) > 0 ==> run.base + Size(run.list) == s.off + s.size
  {
    var was := b.pending;
    SizeAppend(was.list, s);
    forall j | 0 <= j < |run.list| ensures EntryOk(b', run, j) {
      if j < |was.list| {
        assert EntryOk(b, was, j);
        SpanMonotone(was.list, j + 1, |was.list|);
      }
    }
  }

  // A response's part of the pending run.
  lemma {:induction false} EntryFacts(b: Book, run: Run, j: nat)
    requires RunOk(b, run) && j < |run.list|
    ensures run.list[j] in b.slots && run.list[j].tensor == run.tensor && run.tensor < |b.before|
    ensures Span(run.list, j + 1) == Span(run.list, j) + run.list[j].size
    ensures run.base + Span(run.list, j + 1) <= |b.before[run.tensor]|
    ensures run.list[j].size > 0 ==> run.list[j].off == run.base + Span(run.list, j)
  {
    assert EntryOk(b, run, j);
    SpanMonotone(run.list, j + 1, |run.list|);
  }

  ghost predicate AllHave(e: Mem, want: Want, list: seq<Slot>, n: nat)
    requires n <= |list|
  {
    forall j :: 0 <= j < n ==> Has(e, want, list[j])
  }

  lemma {:induction false} AllHaveStays(e: Mem, e': Mem, want: Want, less: Want, list: seq<Slot>, n: nat)
    requires n <= |list| && AllHave(e, want, list, n) && Better(e, e', less) && Weaker(want, less)
    ensures AllHave(e', less, list, n)
  {
    hide Better, Weaker, Holds;
    forall j | 0 <= j < n ensures Has(e', less, list[j]) {
      HoldsWeaker(e, want, less, list[j].block, 0, list[j].size);
      HasStays(e, e', less, list[j]);
    }
  }

  // Every slot of the pending run has its bytes.
  lemma {:induction false} CloseKeeps(v: View)
    requires Balanced(v) && AllHave(Eventual(v), v.want, v.book.pending.list, |v.book.pending.list|)
    ensures var b := v.book.(pending := Run(v.book.pending.tensor, 0, []));
      Balanced(v.(book := b)) && Eventual(v.(book := b)) == Eventual(v)
  {
    hide Has;
    var b := v.book.(pending := Run(v.book.pending.tensor, 0, []));
    forall j | 0 <= j < |b.deferred| ensures DeferredOk(b, v.want, Eventual(v), b.deferred[j]) {
      SameDeferred(v.book, b, v.want, Eventual(v), b.deferred[j]);
    }
    BookKeeps(v, b);
  }

  // The pending run waits in its pinned buffer.
  lemma {:induction false} DeferKeeps(v: View, pin: nat)
    requires Balanced(v) && Staging(v.book, v.want, pin, v.book.pending)
    requires Holds(Eventual(v), v.want, pin, 0, Size(v.book.pending.list))
    ensures var b := v.book.(pending := Run(v.book.pending.tensor, 0, []),
                             deferred := v.book.deferred + [Deferred(pin, v.book.pending)]);
      Balanced(v.(book := b)) && Eventual(v.(book := b)) == Eventual(v)
  {
    hide Has, Holds;
    var d := Deferred(pin, v.book.pending);
    var b := v.book.(pending := Run(v.book.pending.tensor, 0, []), deferred := v.book.deferred + [d]);
    forall j | 0 <= j < |b.deferred| ensures DeferredOk(b, v.want, Eventual(v), b.deferred[j]) {
      if j < |v.book.deferred| { SameDeferred(v.book, b, v.want, Eventual(v), b.deferred[j]); }
      else { SameRun(v.book, b, d.run); }
    }
    forall i | 0 <= i < |b.slots| && Owed(v.book, b.slots[i]) ensures Owed(b, b.slots[i]) {
      if b.slots[i] in v.book.pending.list {
        assert b.slots[i] in b.deferred[|v.book.deferred|].run.list;
      } else if !(b.slots[i] in v.book.hand) {
        var j :| 0 <= j < |v.book.deferred| && b.slots[i] in v.book.deferred[j].run.list;
        assert b.slots[i] in b.deferred[j].run.list;
      }
    }
    BookKeeps(v, b);
  }

  // Every slot of a deferred run has its bytes.
  lemma {:induction false} ClearKeeps(v: View)
    requires Balanced(v)
    requires forall j :: 0 <= j < |v.book.deferred| ==>
      AllHave(Eventual(v), v.want, v.book.deferred[j].run.list, |v.book.deferred[j].run.list|)
    ensures var b := v.book.(deferred := []); Balanced(v.(book := b)) && Eventual(v.(book := b)) == Eventual(v)
  {
    hide Has;
    var b := v.book.(deferred := []);
    SamePending(v.book, b);
    forall i | 0 <= i < |b.slots| && Owed(v.book, b.slots[i])
      ensures Has(Eventual(v), v.want, b.slots[i]) || Owed(b, b.slots[i])
    {
      if !(b.slots[i] in b.hand) && !(b.slots[i] in b.pending.list) {
        var j :| 0 <= j < |v.book.deferred| && b.slots[i] in v.book.deferred[j].run.list;
      }
    }
    BookKeeps(v, b);
  }

  // The pinned buffers of the deferred runs from 'i' on have got their bytes.
  ghost predicate Arrived(b: Book, m: Mem, want: Want, i: nat) {
    forall j :: i <= j < |b.deferred| ==> ArrivedAt(m, want, b.deferred[j])
  }

  ghost predicate ArrivedAt(m: Mem, want: Want, d: Deferred) {
    Holds(m, want, d.pin, 0, Size(d.run.list))
  }

  lemma {:induction false} DrainedArrived(v: View)
    requires Balanced(v) && v.stream == []
    ensures Arrived(v.book, v.mem, v.want, 0)
  {
    forall j | 0 <= j < |v.book.deferred| ensures ArrivedAt(v.mem, v.want, v.book.deferred[j]) {
      assert DeferredOk(v.book, v.want, Eventual(v), v.book.deferred[j]);
    }
  }

  lemma {:induction false} ArrivedStays(b: Book, m: Mem, m': Mem, want: Want, want': Want, i: nat)
    requires Arrived(b, m, want, i) && Better(m, m', want') && |want'| == |want|
    requires forall p :: p in b.pins && p < |want| ==> want'[p] == want[p]
    requires forall j :: 0 <= j < |b.deferred| ==> b.deferred[j].pin in b.pins
    ensures Arrived(b, m', want', i)
  {
    forall j | i <= j < |b.deferred| ensures ArrivedAt(m', want', b.deferred[j]) {
      var d := b.deferred[j];
      assert ArrivedAt(m, want, d);
      forall p | 0 <= p < Size(d.run.list) && p < |m'[d.pin]| && p < |want'[d.pin]|
        ensures Okay(want'[d.pin][p], m'[d.pin][p])
      {
        assert Okay(want[d.pin][p], m[d.pin][p]);
      }
    }
  }

  // The deferred runs before 'i' have been handed out.
  ghost predicate Handed(b: Book, e: Mem, want: Want, i: nat) {
    forall j :: 0 <= j < i && j < |b.deferred| ==> AllHave(e, want, b.deferred[j].run.list, |b.deferred[j].run.list|)
  }

  lemma {:induction false} HandedNone(b: Book, e: Mem, want: Want)
    ensures Handed(b, e, want, 0)
  {}

  lemma {:induction false} HandedStays(b: Book, e: Mem, e': Mem, want: Want, less: Want, i: nat)
    requires Handed(b, e, want, i) && Better(e, e', less) && Weaker(want, less)
    ensures Handed(b, e', less, i)
  {
    hide AllHave;
    forall j | 0 <= j < i && j < |b.deferred|
      ensures AllHave(e', less, b.deferred[j].run.list, |b.deferred[j].run.list|)
    {
      AllHaveStays(e, e', want, less, b.deferred[j].run.list, |b.deferred[j].run.list|);
    }
  }

  lemma {:induction false} HandedAll(b: Book, e: Mem, want: Want)
    requires Handed(b, e, want, |b.deferred|)
    ensures forall j :: 0 <= j < |b.deferred| ==> AllHave(e, want, b.deferred[j].run.list, |b.deferred[j].run.list|)
  {}

  // With nothing pending, the next run may be of another tensor.
  lemma {:induction false} AimKeeps(v: View, t: nat)
    requires Balanced(v) && v.book.pending.list == []
    ensures var b := v.book.(pending := Run(t, 0, []));
      Balanced(v.(book := b)) && Eventual(v.(book := b)) == Eventual(v)
  {
    hide Has;
    var b := v.book.(pending := Run(t, 0, []));
    forall j | 0 <= j < |b.deferred| ensures DeferredOk(b, v.want, Eventual(v), b.deferred[j]) {
      SameDeferred(v.book, b, v.want, Eventual(v), b.deferred[j]);
    }
    BookKeeps(v, b);
  }

  lemma {:induction false} DeferredFacts(v: View, i: nat)
    requires Balanced(v) && i < |v.book.deferred|
    ensures DeferredOk(v.book, v.want, Eventual(v), v.book.deferred[i])
    ensures forall j :: 0 <= j < |v.book.deferred| ==> v.book.deferred[j].pin in v.book.pins
  {
    forall j | 0 <= j < |v.book.deferred| ensures v.book.deferred[j].pin in v.book.pins {
      assert DeferredOk(v.book, v.want, Eventual(v), v.book.deferred[j]);
    }
  }

  // ---------------------------------------------------------------------------
  // The end

  ghost predicate Settled(b: Book) {
    b.hand == [] && b.pending.list == [] && b.deferred == []
  }

  // The buffer of a live response holds its slice.
  ghost predicate Supplied(before: Mem, s: Slot, m: Mem) {
    && s.tensor < |before| && s.off + s.size <= |before[s.tensor]| && s.block < |m|
    && m[s.block] == before[s.tensor][s.off..s.off + s.size]
  }

  // The output tensors are what they were.
  lemma {:induction false} SettledTensors(v: View)
    requires Balanced(v)
    ensures |v.book.before| <= |Eventual(v)| && Eventual(v)[..|v.book.before|] == v.book.before
  {
    forall t | 0 <= t < |v.book.before| ensures Eventual(v)[t] == v.book.before[t] {
      BalancedFacts(v);
      assert forall c :: c in v.stream ==> Routed(v.book, c);
      QuietBlock(v.mem, v.stream, v.want, t);
    }
  }

  lemma {:induction false} SettledSupplies(v: View, i: nat)
    requires Balanced(v) && Settled(v.book) && i < |v.book.slots|
    ensures v.book.slots[i].req < |v.live| && v.book.slots[i].block < |Eventual(v)|
    ensures var s := v.book.slots[i];
      if s.block in v.book.spoilt then Eventual(v)[s.block] == v.book.spoilt[s.block]
      else v.live[s.req] ==> Supplied(v.book.before, s, Eventual(v))
  {
    var s := v.book.slots[i];
    BalancedFacts(v);
    assert SlotOk(v.book, v.want, v.live, s);
    assert Has(Eventual(v), v.want, s);
    hide Balanced, Eventual;
    var block := Eventual(v)[s.block];
    if s.block in v.book.spoilt {
      forall p | 0 <= p < s.size ensures block[p] == v.book.spoilt[s.block][p] {
        assert Okay(v.want[s.block][p], block[p]);
      }
      assert block == v.book.spoilt[s.block];
    } else if v.live[s.req] {
      forall p | 0 <= p < s.size ensures block[p] == v.book.before[s.tensor][s.off + p] {
        assert Okay(v.want[s.block][p], block[p]);
      }
    }
  }

  // ---------------------------------------------------------------------------
  // The order of the outputs

  ghost predicate Sorted(list: seq<Slot>) {
    forall i, j :: 0 <= i < j < |list| ==> list[i].block < list[j].block
  }

  ghost predicate Below(a: seq<Slot>, b: seq<Slot>) {
    forall x, y :: x in a && y in b ==> x.block < y.block
  }

  // Outputs wait in the order in which they were given their buffers: first those in deferred runs, one run after the
  // other, then the pending ones, then the one in hand.
  ghost predicate Lines(b: Book) {
    && Sorted(b.pending.list) && Sorted(b.hand) && Below(b.pending.list, b.hand)
    && (forall i :: 0 <= i < |b.deferred| ==> LineOk(b, b.deferred[i]))
    && (forall i, j :: 0 <= i < j < |b.deferred| ==> Follows(b.deferred[i], b.deferred[j]))
  }

  ghost predicate LineOk(b: Book, d: Deferred) {
    && Sorted(d.run.list) && Below(d.run.list, b.pending.list) && Below(d.run.list, b.hand) && d.pin in b.pins
    && forall x :: x in d.run.list ==> x in b.slots
  }

  ghost predicate Follows(d: Deferred, e: Deferred) {
    Below(d.run.list, e.run.list) && d.pin < e.pin
  }

  // The copy of entry 'a' out of the pinned buffer.
  function HandCopy(d: Deferred, a: nat): Copy
    requires a < |d.run.list|
  {
    Copy(d.run.list[a].block, 0, Slice(d.pin, Span(d.run.list, a), d.run.list[a].size))
  }

  // ---------------------------------------------------------------------------
  // Pinned buffers that are released

  // Where copies in flight bring bytes out of block 'pin', and which ones if it is overwritten.
  function Reached(stream: seq<Copy>, pin: nat): set<nat> {
    set c | c in stream && Brings(c, pin) :: c.dst
  }

  ghost function StaleBytes(stream: seq<Copy>, pin: nat, content: seq<byte>, b: nat): seq<byte>
    requires b in Reached(stream, pin)
  {
    var c :| c in stream && Brings(c, pin) && c.dst == b;
    if c.src.from + c.src.count <= |content| then content[c.src.from..c.src.from + c.src.count] else []
  }

  ghost function StaleAt(want: Want, stream: seq<Copy>, pin: nat, content: seq<byte>, b: nat): seq<Option<byte>>
    requires b < |want|
  {
    if b == pin then Sure(content)
    else if b in Reached(stream, pin) then Sure(StaleBytes(stream, pin, content, b)) else want[b]
  }

  ghost function StaleWant(want: Want, stream: seq<Copy>, pin: nat, content: seq<byte>): (r: Want)
    ensures |r| == |want|
    ensures forall b :: 0 <= b < |want| ==> r[b] == StaleAt(want, stream, pin, content, b)
  {
    seq(|want|, b requires 0 <= b < |want| => StaleAt(want, stream, pin, content, b))
  }

  ghost function Spoil(spoilt: map<nat, seq<byte>>, stream: seq<Copy>, pin: nat, content: seq<byte>)
    : map<nat, seq<byte>>
  {
    spoilt + map b | b in Reached(stream, pin) :: StaleBytes(stream, pin, content, b)
  }

  ghost function Released(v: View, pin: nat, content: seq<byte>): View
    requires pin < |v.mem|
  {
    v.(mem := v.mem[pin := content], want := StaleWant(v.want, v.stream, pin, content),
       book := v.book.(spoilt := Spoil(v.book.spoilt, v.stream, pin, content)))
  }

  lemma {:induction false} ReleasedIs(v: View, pin: nat, content: seq<byte>)
    requires pin < |v.mem|
    ensures var v' := Released(v, pin, content);
      v' == v.(mem := v.mem[pin := content], want := v'.want, book := v.book.(spoilt := v'.book.spoilt))
  {}

  // A buffer that nobody reads or writes is released.
  lemma {:induction false} UnusedKeeps(v: View, pin: nat, content: seq<byte>)
    requires Balanced(v) && pin in v.book.pins && pin < |v.mem| && |content| == |v.mem[pin]|
    requires forall c :: c in v.stream ==> c.dst != pin && (c.src.Slice? ==> c.src.blk != pin)
    requires forall d :: d in v.book.deferred ==> d.pin != pin
    ensures pin < |v.want| && Balanced(v.(mem := v.mem[pin := content], want := v.want[pin := Sure(content)]))
  {
    BalancedFacts(v);
    var v' := v.(mem := v.mem[pin := content], want := v.want[pin := Sure(content)]);
    forall c | c in v.stream ensures Detached(c, pin, {}, v'.want) {}
    ReplaceSound(v.mem, v'.mem, v.stream, v.want, v'.want, pin, {});
    forall j | 0 <= j < |v.book.deferred| ensures DeferredOk(v.book, v'.want, Eventual(v'), v.book.deferred[j]) {
      assert DeferredOk(v.book, v.want, Eventual(v), v.book.deferred[j]);
      assert v.book.deferred[j] in v.book.deferred;
    }
    forall i | 0 <= i < |v.book.slots|
      ensures SlotOk(v.book, v'.want, v.live, v.book.slots[i])
      ensures Has(Eventual(v'), v'.want, v.book.slots[i]) || Owed(v.book, v.book.slots[i])
    {
      assert SlotOk(v.book, v.want, v.live, v.book.slots[i]);
      assert Has(Eventual(v), v.want, v.book.slots[i]) || Owed(v.book, v.book.slots[i]);
    }
  }

  // Every copy in flight fills the buffer of an output, each another one.
  ghost predicate Handing(b: Book, stream: seq<Copy>) {
    && (forall c :: c in stream ==> Fills(b, c))
    && (forall c, c' :: c in stream && c' in stream && c.dst == c'.dst ==> c == c')
  }

  ghost predicate Fills(b: Book, c: Copy) {
    c.off == 0 && c.src.Slice? && c.src.blk in b.pins
    && exists s :: s in b.slots && s.block == c.dst && s.size == c.src.count
  }

  lemma {:induction false} ReachedBy(b: Book, stream: seq<Copy>, pin: nat, content: seq<byte>, c: Copy)
    requires Handing(b, stream) && c in stream && c.dst in Reached(stream, pin)
    ensures Brings(c, pin)
    ensures c.src.from + c.src.count <= |content| ==>
      StaleBytes(stream, pin, content, c.dst) == content[c.src.from..c.src.from + c.src.count]
  {
    var c' :| c' in stream && Brings(c', pin) && c'.dst == c.dst;
  }

  // The buffer that a copy in flight fills.
  lemma {:induction false} FilledSlot(v: View, c: Copy) returns (s: Slot)
    requires Balanced(v) && Handing(v.book, v.stream) && c in v.stream
    ensures s in v.book.slots && s.block == c.dst && s.size == c.src.count && c.off == 0 && c.src.Slice?
    ensures c.src.blk in v.book.pins && c.dst !in v.book.pins && |v.book.before| <= c.dst < |v.want|
    ensures |v.want[c.dst]| == s.size
    ensures c.src.blk < |v.mem| && c.src.from + c.src.count <= |v.mem[c.src.blk]|
  {
    hide Balanced;
    assert Fills(v.book, c);
    s :| s in v.book.slots && s.block == c.dst && s.size == c.src.count;
    SlotFacts(v, s);
    BalancedFacts(v);
  }

  lemma {:induction false} ReleaseShape(v: View, pin: nat, content: seq<byte>)
    requires Balanced(v) && pin in v.book.pins && pin < |v.mem| && |content| == |v.mem[pin]|
    requires Handing(v.book, v.stream)
    ensures var v' := Released(v, pin, content); var stale := Reached(v.stream, pin);
      && Elsewhere(v.mem, v'.mem, pin, stale) && Elsewhere(v.want, v'.want, pin, stale) && SameShape(v'.mem, v'.want)
      && Holds(v'.mem, v'.want, pin, 0, |content|)
  {
    hide Balanced, Handing, Reached, StaleAt;
    BalancedFacts(v);
    forall b | 0 <= b < |v.want|
      ensures |StaleAt(v.want, v.stream, pin, content, b)| == |v.want[b]|
      ensures b != pin && b !in Reached(v.stream, pin) ==> StaleAt(v.want, v.stream, pin, content, b) == v.want[b]
      ensures b == pin ==> StaleAt(v.want, v.stream, pin, content, b) == Sure(content)
    {
      StaleIs(v, pin, content, b);
    }
  }

  lemma {:induction false} StaleIs(v: View, pin: nat, content: seq<byte>, b: nat)
    requires Balanced(v) && pin < |v.mem| && |content| == |v.mem[pin]| && Handing(v.book, v.stream) && b < |v.want|
    ensures |StaleAt(v.want, v.stream, pin, content, b)| == |v.want[b]|
    ensures b != pin && b !in Reached(v.stream, pin) ==> StaleAt(v.want, v.stream, pin, content, b) == v.want[b]
    ensures b == pin ==> StaleAt(v.want, v.stream, pin, content, b) == Sure(content)
    ensures b != pin && b in Reached(v.stream, pin) ==>
      StaleAt(v.want, v.stream, pin, content, b) == Sure(StaleBytes(v.stream, pin, content, b))
  {
    hide Balanced, Fills, Handing;
    BalancedFacts(v);
    if b != pin && b in Reached(v.stream, pin) {
      var c :| c in v.stream && Brings(c, pin) && c.dst == b;
      var s := FilledSlot(v, c);
      ReachedBy(v.book, v.stream, pin, content, c);
    }
  }

  lemma {:induction false} ReleaseDetached(v: View, pin: nat, content: seq<byte>, c: Copy)
    requires Balanced(v) && pin in v.book.pins && pin < |v.mem| && |content| == |v.mem[pin]|
    requires Handing(v.book, v.stream)
    requires c in v.stream
    ensures Detached(c, pin, Reached(v.stream, pin), Released(v, pin, content).want)
  {
    hide Balanced, Fills, Handing, StaleAt, StaleBytes;
    var s := FilledSlot(v, c);
    ReleaseShape(v, pin, content);
    StaleIs(v, pin, content, c.dst);
    StaleIs(v, pin, content, pin);
    if c.dst in Reached(v.stream, pin) { ReachedBy(v.book, v.stream, pin, content, c); }
    if c.src.blk in Reached(v.stream, pin) {
      var c' :| c' in v.stream && Brings(c', pin) && c'.dst == c.src.blk;
      var _ := FilledSlot(v, c');
    }
  }

  lemma {:induction false} ReleaseSlots(v: View, pin: nat, content: seq<byte>, s: Slot)
    requires Balanced(v) && pin in v.book.pins && pin < |v.mem| && |content| == |v.mem[pin]|
    requires Handing(v.book, v.stream)
    requires s in v.book.slots
    ensures var v' := Released(v, pin, content); SlotOk(v'.book, v'.want, v'.live, s)
  {
    hide Balanced, Fills, Handing;
    SlotFacts(v, s);
    ReleaseShape(v, pin, content);
    if s.block in Reached(v.stream, pin) {
      assert s.block in Spoil(v.book.spoilt, v.stream, pin, content);
      var c :| c in v.stream && Brings(c, pin) && c.dst == s.block;
      var s' := FilledSlot(v, c);
    }
  }

  // Once it has landed, a copy has brought what the released buffer held by then; all other buffers are as they were.
  lemma {:induction false} ReleaseHas(v: View, pin: nat, content: seq<byte>, s: Slot)
    requires Balanced(v) && pin in v.book.pins && pin < |v.mem| && |content| == |v.mem[pin]|
    requires Handing(v.book, v.stream)
    requires s in v.book.slots && Has(Eventual(v), v.want, s)
    requires var v' := Released(v, pin, content);
      && Sound(v'.mem, v'.stream, v'.want)
      && Elsewhere(Eventual(v), Eventual(v'), pin, Reached(v.stream, pin))
    ensures var v' := Released(v, pin, content); Has(Eventual(v'), v'.want, s)
  {
    hide Balanced, Fills, Handing, Sound, Eventual;
    var v' := Released(v, pin, content);
    SlotFacts(v, s);
    BalancedFacts(v);
    ReleaseShape(v, pin, content);
    if s.block in Reached(v.stream, pin) {
      var c :| c in v.stream && Brings(c, pin) && c.dst == s.block;
      var s' := FilledSlot(v, c);
      LandsAs(v', c);
    }
  }

  lemma {:induction false} LandsAs(v: View, c: Copy)
    requires Sound(v.mem, v.stream, v.want) && c in v.stream
    ensures Holds(Eventual(v), v.want, c.dst, c.off, c.off + c.src.Len())
  {
    Lands(v.mem, v.stream, v.want, c);
  }

  // A pinned buffer is released, whatever is written to it then.
  lemma {:induction false} ReleaseKeeps(v: View, pin: nat, content: seq<byte>)
    requires Balanced(v) && Settled(v.book) && pin in v.book.pins && pin < |v.mem| && |content| == |v.mem[pin]|
    requires Handing(v.book, v.stream)
    ensures Balanced(Released(v, pin, content))
    ensures SameShape(Released(v, pin, content).mem, Released(v, pin, content).want)
  {
    var v' := Released(v, pin, content);
    var stale := Reached(v.stream, pin);
    BalancedFacts(v);
    ReleaseShape(v, pin, content);
    forall c | c in v.stream ensures Detached(c, pin, stale, v'.want) { ReleaseDetached(v, pin, content, c); }
    ReplaceSound(v.mem, v'.mem, v.stream, v.want, v'.want, pin, stale);
    ReleaseFrozen(v, pin, content);
    forall i | 0 <= i < |v.book.slots|
      ensures SlotOk(v'.book, v'.want, v'.live, v.book.slots[i]) && Has(Eventual(v'), v'.want, v.book.slots[i])
    {
      ReleaseSlots(v, pin, content, v.book.slots[i]);
      ReleaseHas(v, pin, content, v.book.slots[i]);
    }
    forall c | c in v'.stream ensures Routed(v'.book, c) { assert Routed(v.book, c); }
  }

  lemma {:induction false} ReleaseFrozen(v: View, pin: nat, content: seq<byte>)
    requires Balanced(v) && pin in v.book.pins && pin < |v.mem| && |content| == |v.mem[pin]|
    requires Handing(v.book, v.stream)
    ensures var v' := Released(v, pin, content); Frozen(v.book.before, v'.mem, v'.want)
  {
    hide Balanced, Reached, Handing, Fills, StaleWant, Frozen;
    var v' := Released(v, pin, content);
    var before := v.book.before;
    FrozenHere(v, pin);
    ReleaseShape(v, pin, content);
    forall b | b in Reached(v.stream, pin) ensures |before| <= b {
      var c := ReachedWhich(v.stream, pin, b);
      var s := FilledSlot(v, c);
    }
    FrozenElsewhere(before, v.mem, v'.mem, v.want, v'.want, pin, Reached(v.stream, pin));
  }

  lemma {:induction false} FrozenElsewhere(before: Mem, m: Mem, m': Mem, want: Want, want': Want, pin: nat,
      stale: set<nat>)
    requires Frozen(before, m, want) && Elsewhere(m, m', pin, stale) && Elsewhere(want, want', pin, stale)
    requires |before| <= pin && forall b :: b in stale ==> |before| <= b
    ensures Frozen(before, m', want')
  {}

  lemma {:induction false} FrozenHere(v: View, pin: nat)
    requires Balanced(v) && pin in v.book.pins
    ensures Frozen(v.book.before, v.mem, v.want) && |v.book.before| <= pin
  {}

  lemma {:induction false} ReachedWhich(stream: seq<Copy>, pin: nat, b: nat) returns (c: Copy)
    requires b in Reached(stream, pin)
    ensures c in stream && Brings(c, pin) && c.dst == b
  {
    c :| c in stream && Brings(c, pin) && c.dst == b;
  }
}
