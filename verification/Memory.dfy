// Byte memory, the copies made on it, and the CUDA stream as a first-in
// first-out list of copies that have been issued but have not landed yet.

module Memory {

  newtype byte = x: int | 0 <= x < 0x100

  datatype Option<+T> = None | Some(value: T)

  datatype MemoryType = Cpu | CpuPinned | Gpu

  // The memory type whose transfers to or from 'ref' go through a pinned buffer; CpuPinned if there is none.
  function GetUsePinnedMemoryType(ref: MemoryType): MemoryType {
    match ref
    case CpuPinned => CpuPinned
    case Cpu => Gpu
    case Gpu => Cpu
  }

  // A memory is a list of separately allocated blocks; a pointer is a block and an offset in it.
  type Mem = seq<seq<byte>>

  // What every byte is meant to hold in the end. None: nothing is promised for the byte.
  type Want = seq<seq<Option<byte>>>

  datatype Source = Bytes(data: seq<byte>) | Slice(blk: nat, from: nat, count: nat) {
    function Len(): nat {
      if Bytes? then |data| else count
    }
  }

  datatype Copy = Copy(dst: nat, off: nat, src: Source)

  // ---------------------------------------------------------------------------
  // One copy

  predicate Fits<T>(m: seq<seq<T>>, c: Copy) {
    && c.dst < |m|
    && c.off + c.src.Len() <= |m[c.dst]|
    && (c.src.Slice? ==> c.src.blk < |m| && c.src.from + c.src.count <= |m[c.src.blk]|)
  }

  predicate SameShape<S, T>(m: seq<seq<S>>, n: seq<seq<T>>) {
    |m| == |n| && forall b :: 0 <= b < |m| ==> |m[b]| == |n[b]|
  }

  function Fetch(m: Mem, c: Copy): (r: seq<byte>)
    requires Fits(m, c)
    ensures |r| == c.src.Len()
  {
    match c.src
    case Bytes(data) => data
    case Slice(blk, from, count) => m[blk][from..from + count]
  }

  function Splice<T>(block: seq<T>, off: nat, data: seq<T>): (r: seq<T>)
    requires off + |data| <= |block|
    ensures |r| == |block|
    ensures forall p :: 0 <= p < |block| ==> r[p] == if off <= p < off + |data| then data[p - off] else block[p]
  {
    block[..off] + data + block[off + |data|..]
  }

  function Do(m: Mem, c: Copy): (r: Mem)
    requires Fits(m, c)
    ensures SameShape(m, r)
  {
    m[c.dst := Splice(m[c.dst], c.off, Fetch(m, c))]
  }

  lemma {:induction false} FitsShape<S, T>(m: seq<seq<S>>, n: seq<seq<T>>, c: Copy)
    requires SameShape(m, n) && Fits(m, c)
    ensures Fits(n, c)
  {
    assert |m[c.dst]| == |n[c.dst]|;
    if c.src.Slice? { assert |m[c.src.blk]| == |n[c.src.blk]|; }
  }

  // The stream lands its copies in the order they were issued.
  function Apply(m: Mem, ops: seq<Copy>): (r: Mem)
    requires forall c :: c in ops ==> Fits(m, c)
    ensures SameShape(m, r)
    decreases |ops|
  {
    if ops == [] then m
    else
      assert forall c :: c in ops[1..] ==> Fits(Do(m, ops[0]), c) by {
        forall c | c in ops[1..] ensures Fits(Do(m, ops[0]), c) {
          assert c in ops;
          FitsShape(m, Do(m, ops[0]), c);
        }
      }
      Apply(Do(m, ops[0]), ops[1..])
  }

  // ---------------------------------------------------------------------------
  // Copies that only ever write what is wanted

  predicate Okay(want: Option<byte>, v: byte) {
    want.Some? ==> want.value == v
  }

  ghost predicate Holds(m: Mem, want: Want, b: nat, lo: nat, hi: nat) {
    && b < |m| && b < |want|
    && forall p :: lo <= p < hi && p < |m[b]| && p < |want[b]| ==> Okay(want[b][p], m[b][p])
  }

  // The bytes that 'c' writes are the ones wanted at its destination, provided those of its source are.
  ghost predicate Aligned(want: Want, c: Copy) {
    && Fits(want, c)
    && forall p :: c.off <= p < c.off + c.src.Len() ==>
         match c.src
         case Bytes(data) => Okay(want[c.dst][p], data[p - c.off])
         case Slice(blk, from, count) => want[c.dst][p] == None || want[c.dst][p] == want[blk][from + (p - c.off)]
  }

  ghost predicate Fed(m: Mem, want: Want, c: Copy) {
    && Fits(m, c) && c.dst < |want|
    && forall p :: c.off <= p < c.off + c.src.Len() && p < |want[c.dst]| ==>
      Okay(want[c.dst][p], Fetch(m, c)[p - c.off])
  }

  // Landing 'ops' one after the other from 'm' writes only wanted bytes.
  ghost predicate Sound(m: Mem, ops: seq<Copy>, want: Want)
    decreases |ops|
  {
    && SameShape(m, want)
    && (ops != [] ==> Aligned(want, ops[0]) && Fed(m, want, ops[0]) && Sound(Do(m, ops[0]), ops[1..], want))
  }

  // Every byte of 'n' is the one in 'm' or a wanted one.
  ghost predicate Better(m: Mem, n: Mem, want: Want) {
    && SameShape(m, n) && SameShape(m, want)
    && forall b, p :: 0 <= b < |m| && 0 <= p < |m[b]| ==> n[b][p] == m[b][p] || Okay(want[b][p], n[b][p])
  }

  // 'v' promises no more than 'w'.
  ghost predicate Weaker(w: Want, v: Want) {
    && SameShape(w, v)
    && forall b, p :: 0 <= b < |w| && 0 <= p < |w[b]| ==> v[b][p] == w[b][p] || v[b][p] == None
  }

  lemma {:induction false} BetterRefl(m: Mem, want: Want)
    ensures SameShape(m, want) ==> Better(m, m, want)
  {}

  lemma {:induction false} HoldsNothing(m: Mem, want: Want, b: nat, lo: nat)
    ensures b < |m| && b < |want| ==> Holds(m, want, b, lo, lo)
  {}

  lemma {:induction false} HoldsJoin(m: Mem, want: Want, b: nat, lo: nat, mid: nat, hi: nat)
    requires Holds(m, want, b, lo, mid) && Holds(m, want, b, mid, hi)
    ensures Holds(m, want, b, lo, hi)
  {}

  lemma {:induction false} HoldsWithin(m: Mem, want: Want, b: nat, lo: nat, hi: nat, lo': nat, hi': nat)
    requires Holds(m, want, b, lo, hi) && lo <= lo' && hi' <= hi
    ensures Holds(m, want, b, lo', hi')
  {}

  // A copy from outside the memory carries its bytes with it.
  lemma {:induction false} BytesFed(m: Mem, want: Want, c: Copy)
    requires SameShape(m, want) && Aligned(want, c) && c.src.Bytes?
    ensures Fits(m, c) && Fed(m, want, c)
  {
    FitsShape(want, m, c);
  }

  lemma {:induction false} WeakerRefl(want: Want)
    ensures Weaker(want, want)
  {}

  lemma {:induction false} WeakerTrans(a: Want, b: Want, c: Want)
    requires Weaker(a, b) && Weaker(b, c)
    ensures Weaker(a, c)
  {
    forall i, p | 0 <= i < |a| && 0 <= p < |a[i]| ensures c[i][p] == a[i][p] || c[i][p] == None {
      assert b[i][p] == a[i][p] || b[i][p] == None;
      assert c[i][p] == b[i][p] || c[i][p] == None;
    }
  }

  lemma {:induction false} HoldsWeaker(m: Mem, want: Want, less: Want, b: nat, lo: nat, hi: nat)
    requires Holds(m, want, b, lo, hi) && Weaker(want, less)
    ensures Holds(m, less, b, lo, hi)
  {}

  lemma {:induction false} BetterWeaker(m: Mem, n: Mem, want: Want, less: Want)
    requires Better(m, n, want) && Weaker(want, less)
    ensures Better(m, n, less)
  {}

  lemma {:induction false} BetterTrans(a: Mem, b: Mem, c: Mem, want: Want)
    requires Better(a, b, want) && Better(b, c, want)
    ensures Better(a, c, want)
  {
    forall i, p | 0 <= i < |a| && 0 <= p < |a[i]|
      ensures c[i][p] == a[i][p] || Okay(want[i][p], c[i][p])
    {
      assert b[i][p] == a[i][p] || Okay(want[i][p], b[i][p]);
      assert c[i][p] == b[i][p] || Okay(want[i][p], c[i][p]);
    }
  }

  lemma {:induction false} BetterHolds(m: Mem, n: Mem, want: Want, b: nat, lo: nat, hi: nat)
    requires Better(m, n, want) && Holds(m, want, b, lo, hi)
    ensures Holds(n, want, b, lo, hi)
  {}

  lemma {:induction false} SoundFits(m: Mem, ops: seq<Copy>, want: Want)
    requires Sound(m, ops, want)
    ensures forall c :: c in ops ==> Fits(m, c) && Aligned(want, c)
    decreases |ops|
  {
    if ops != [] {
      SoundFits(Do(m, ops[0]), ops[1..], want);
      forall c | c in ops ensures Fits(m, c) && Aligned(want, c) {
        if c != ops[0] { assert c in ops[1..]; }
      }
    }
  }

  lemma {:induction false} DoFed(m: Mem, c: Copy, want: Want)
    requires SameShape(m, want) && Fits(m, c) && Fed(m, want, c)
    ensures Better(m, Do(m, c), want)
    ensures Holds(Do(m, c), want, c.dst, c.off, c.off + c.src.Len())
  {}

  // Landing a sound list only improves the memory.
  lemma {:induction false} ApplyBetter(m: Mem, ops: seq<Copy>, want: Want)
    requires Sound(m, ops, want)
    ensures (forall c :: c in ops ==> Fits(m, c)) && Better(m, Apply(m, ops), want)
    decreases |ops|
  {
    SoundFits(m, ops, want);
    if ops != [] {
      DoFed(m, ops[0], want);
      SoundFits(Do(m, ops[0]), ops[1..], want);
      ApplyBetter(Do(m, ops[0]), ops[1..], want);
      BetterTrans(m, Do(m, ops[0]), Apply(m, ops), want);
    }
  }

  lemma {:induction false} DoMonotone(m: Mem, n: Mem, c: Copy, want: Want)
    requires Better(m, n, want) && Fits(m, c) && Aligned(want, c) && Fed(m, want, c)
    ensures Fits(n, c) && Fed(n, want, c) && Better(Do(m, c), Do(n, c), want)
  {
    forall p | c.off <= p < c.off + c.src.Len()
      ensures Okay(want[c.dst][p], Fetch(n, c)[p - c.off])
    {
      assert Okay(want[c.dst][p], Fetch(m, c)[p - c.off]);
      if c.src.Slice? {
        var q := c.src.from + (p - c.off);
        assert n[c.src.blk][q] == m[c.src.blk][q] || Okay(want[c.src.blk][q], n[c.src.blk][q]);
      }
    }
    var m', n' := Do(m, c), Do(n, c);
    forall b, p | 0 <= b < |m'| && 0 <= p < |m'[b]|
      ensures n'[b][p] == m'[b][p] || Okay(want[b][p], n'[b][p])
    {
      assert n[b][p] == m[b][p] || Okay(want[b][p], n[b][p]);
    }
  }

  // A host write of wanted bytes commutes with the copies in flight, up to wanted bytes.
  lemma {:induction false} ApplyMonotone(m: Mem, n: Mem, ops: seq<Copy>, want: Want)
    requires Better(m, n, want) && Sound(m, ops, want)
    ensures forall c :: c in ops ==> Fits(m, c) && Fits(n, c)
    ensures Sound(n, ops, want) && Better(Apply(m, ops), Apply(n, ops), want)
    decreases |ops|
  {
    SoundFits(m, ops, want);
    if ops != [] {
      DoMonotone(m, n, ops[0], want);
      ApplyMonotone(Do(m, ops[0]), Do(n, ops[0]), ops[1..], want);
    }
    SoundFits(n, ops, want);
  }

  lemma {:induction false} ApplyAppend(m: Mem, a: seq<Copy>, b: seq<Copy>, want: Want)
    requires Sound(m, a + b, want)
    ensures Sound(m, a, want) && (forall c :: c in a + b ==> Fits(m, c))
    ensures Sound(Apply(m, a), b, want)
    ensures (forall c :: c in b ==> Fits(Apply(m, a), c)) && Apply(m, a + b) == Apply(Apply(m, a), b)
    decreases |a|
  {
    SoundFits(m, a + b, want);
    if a == [] {
      assert a + b == b;
    } else {
      assert (a + b)[1..] == a[1..] + b;
      SoundFits(Do(m, a[0]), a[1..] + b, want);
      ApplyAppend(Do(m, a[0]), a[1..], b, want);
    }
  }

  lemma {:induction false} SoundAppend(m: Mem, ops: seq<Copy>, c: Copy, want: Want)
    requires Sound(m, ops, want) && (forall o :: o in ops ==> Fits(m, o))
    requires Aligned(want, c) && Fits(Apply(m, ops), c) && Fed(Apply(m, ops), want, c)
    ensures Sound(m, ops + [c], want)
    decreases |ops|
  {
    if ops == [] {
      assert ops + [c] == [c];
      assert Sound(Do(m, c), [], want);
    } else {
      assert (ops + [c])[1..] == ops[1..] + [c];
      SoundFits(Do(m, ops[0]), ops[1..], want);
      SoundAppend(Do(m, ops[0]), ops[1..], c, want);
    }
  }

  // Promising less keeps a list sound as long as no copy reads what is given up.
  lemma {:induction false} SoundWeaken(m: Mem, ops: seq<Copy>, want: Want, less: Want)
    requires Sound(m, ops, want) && Weaker(want, less)
    requires forall c :: c in ops && c.src.Slice? && c.src.blk < |want| ==> less[c.src.blk] == want[c.src.blk]
    ensures Sound(m, ops, less)
    decreases |ops|
  {
    if ops != [] {
      var c := ops[0];
      assert Aligned(less, c) by {
        forall p | c.off <= p < c.off + c.src.Len()
          ensures less[c.dst][p] == want[c.dst][p] || less[c.dst][p] == None {}
      }
      SoundWeaken(Do(m, c), ops[1..], want, less);
    }
  }

  // A block that no copy touches may be given any promise at all.
  ghost predicate Untouched(ops: seq<Copy>, b: nat) {
    forall c :: c in ops ==> c.dst != b && (c.src.Slice? ==> c.src.blk != b)
  }

  lemma {:induction false} UntouchedKeeps(m: Mem, ops: seq<Copy>, b: nat)
    requires (forall c :: c in ops ==> Fits(m, c)) && b < |m|
    requires forall c :: c in ops ==> c.dst != b
    ensures Apply(m, ops)[b] == m[b]
    decreases |ops|
  {
    if ops != [] {
      assert forall c :: c in ops[1..] ==> c in ops;
      UntouchedKeeps(Do(m, ops[0]), ops[1..], b);
    }
  }

  lemma {:induction false} SoundPromise(m: Mem, ops: seq<Copy>, want: Want, b: nat, promise: seq<Option<byte>>)
    requires Sound(m, ops, want) && b < |m| && |promise| == |m[b]| && Untouched(ops, b)
    ensures Sound(m, ops, want[b := promise])
    decreases |ops|
  {
    if ops != [] {
      var want' := want[b := promise];
      var c := ops[0];
      assert c in ops;
      assert Aligned(want', c) by {
        assert want'[c.dst] == want[c.dst];
        if c.src.Slice? { assert want'[c.src.blk] == want[c.src.blk]; }
      }
      SoundPromise(Do(m, c), ops[1..], want, b, promise);
    }
  }

  lemma {:induction false} SoundAllocate(m: Mem, ops: seq<Copy>, want: Want, block: seq<byte>,
      promise: seq<Option<byte>>)
    requires Sound(m, ops, want) && |block| == |promise|
    ensures Sound(m + [block], ops, want + [promise])
    ensures forall c :: c in ops ==> Fits(m, c) && Fits(m + [block], c)
    ensures Apply(m + [block], ops) == Apply(m, ops) + [block]
    decreases |ops|
  {
    SoundFits(m, ops, want);
    if ops != [] {
      var c := ops[0];
      var m' := m + [block];
      assert m'[c.dst] == m[c.dst];
      if c.src.Slice? { assert m'[c.src.blk] == m[c.src.blk]; }
      assert Do(m', c) == Do(m, c) + [block];
      assert Aligned(want + [promise], c) by {
        assert (want + [promise])[c.dst] == want[c.dst];
      }
      SoundAllocate(Do(m, c), ops[1..], want, block, promise);
    }
    SoundFits(m + [block], ops, want + [promise]);
  }

  // ---------------------------------------------------------------------------
  // The stream

  // The memory once the stream has drained.
  ghost function Drained(m: Mem, ops: seq<Copy>): (r: Mem)
    ensures SameShape(m, r)
  {
    if forall c :: c in ops ==> Fits(m, c) then Apply(m, ops) else m
  }

  // Landing the first copies changes nothing of what the memory will be.
  lemma {:induction false} LandSound(m: Mem, ops: seq<Copy>, want: Want, k: nat)
    requires Sound(m, ops, want) && k <= |ops|
    ensures forall c :: c in ops[..k] ==> Fits(m, c)
    ensures var m' := Apply(m, ops[..k]);
      Sound(m', ops[k..], want) && Drained(m', ops[k..]) == Drained(m, ops) && Better(m, m', want)
  {
    assert ops == ops[..k] + ops[k..];
    ApplyAppend(m, ops[..k], ops[k..], want);
    assert forall c :: c in ops[..k] ==> c in ops;
    ApplyBetter(m, ops[..k], want);
  }

  // A copy handed to CopyBuffer, whether it is done at once or goes on the stream.
  lemma {:induction false} IssueSound(m: Mem, ops: seq<Copy>, want: Want, c: Copy, async: bool)
    requires Sound(m, ops, want) && Aligned(want, c) && Fits(m, c)
    requires Fed(if async then Drained(m, ops) else m, want, c)
    ensures var m', ops' := if async then m else Do(m, c), if async then ops + [c] else ops;
      && Sound(m', ops', want) && Better(m, m', want) && Better(Drained(m, ops), Drained(m', ops'), want)
      && Holds(Drained(m', ops'), want, c.dst, c.off, c.off + c.src.Len())
  {
    SoundFits(m, ops, want);
    if async {
      SoundAppend(m, ops, c, want);
      ApplyAppend(m, ops, [c], want);
      DoFed(Apply(m, ops), c, want);
      assert Apply(Apply(m, ops), [c]) == Do(Apply(m, ops), c);
      BetterRefl(m, want);
    } else {
      DoFed(m, c, want);
      ApplyMonotone(m, Do(m, c), ops, want);
      ApplyBetter(Do(m, c), ops, want);
      BetterHolds(Do(m, c), Apply(Do(m, c), ops), want, c.dst, c.off, c.off + c.src.Len());
    }
  }

  // A block that no copy in flight writes to stays as it is.
  lemma {:induction false} QuietBlock(m: Mem, ops: seq<Copy>, want: Want, b: nat)
    requires Sound(m, ops, want) && b < |m| && forall c :: c in ops ==> c.dst != b
    ensures Drained(m, ops)[b] == m[b]
  {
    SoundFits(m, ops, want);
    UntouchedKeeps(m, ops, b);
  }

  // A copy out of another block, once that block has what is wanted.
  lemma {:induction false} SliceFed(m: Mem, want: Want, c: Copy)
    requires SameShape(m, want) && Aligned(want, c) && c.src.Slice?
    requires Holds(m, want, c.src.blk, c.src.from, c.src.from + c.src.count)
    ensures Fits(m, c) && Fed(m, want, c)
  {
    FitsShape(want, m, c);
    forall p | c.off <= p < c.off + c.src.Len() ensures Okay(want[c.dst][p], Fetch(m, c)[p - c.off]) {
      var q := c.src.from + (p - c.off);
      assert Okay(want[c.src.blk][q], m[c.src.blk][q]);
    }
  }

  // A copy in flight will have landed.
  lemma {:induction false} Lands(m: Mem, ops: seq<Copy>, want: Want, c: Copy)
    requires Sound(m, ops, want) && c in ops
    ensures Holds(Drained(m, ops), want, c.dst, c.off, c.off + c.src.Len())
    decreases |ops|
  {
    SoundFits(m, ops, want);
    var next := Do(m, ops[0]);
    SoundFits(next, ops[1..], want);
    if c == ops[0] {
      DoFed(m, c, want);
      ApplyBetter(next, ops[1..], want);
      BetterHolds(next, Apply(next, ops[1..]), want, c.dst, c.off, c.off + c.src.Len());
    } else {
      Lands(next, ops[1..], want, c);
    }
  }

  // The copy brings some byte out of block 'b'.
  predicate Brings(c: Copy, b: nat) {
    c.src.Slice? && c.src.blk == b && c.src.count > 0
  }

  // The copy reads block 'b' and writes to one of 'stale' what is wanted there now, or it has to do with neither.
  ghost predicate Detached(c: Copy, b: nat, stale: set<nat>, want: Want) {
    && c.dst != b
    && if Brings(c, b) then c.dst in stale && Aligned(want, c)
       else c.dst !in stale && (c.src.Slice? && c.src.count > 0 ==> c.src.blk !in stale)
  }

  // Two memories, or wants, that differ in these blocks only.
  ghost predicate Elsewhere<T(!new)>(m: seq<seq<T>>, n: seq<seq<T>>, b: nat, stale: set<nat>) {
    SameShape(m, n) && forall i :: 0 <= i < |m| && i != b && i !in stale ==> n[i] == m[i]
  }

  // A block is overwritten while copies in flight read it: the list stays sound if the new bytes are what is wanted
  // of it, and of the blocks the copies go to.
  lemma {:induction false} ReplaceSound(m: Mem, m': Mem, ops: seq<Copy>, want: Want, want': Want, b: nat,
      stale: set<nat>)
    requires Sound(m, ops, want) && Elsewhere(m, m', b, stale) && Elsewhere(want, want', b, stale)
    requires b < |m| && Holds(m', want', b, 0, |m'[b]|) && forall c :: c in ops ==> Detached(c, b, stale, want')
    ensures Sound(m', ops, want') && Elsewhere(Drained(m, ops), Drained(m', ops), b, stale)
    decreases |ops|
  {
    if ops == [] {
      assert Drained(m, ops) == m && Drained(m', ops) == m';
    } else {
      var c := ops[0];
      assert c in ops && forall x :: x in ops[1..] ==> x in ops;
      ReplaceOne(m, m', c, want, want', b, stale);
      ReplaceSound(Do(m, c), Do(m', c), ops[1..], want, want', b, stale);
      DrainedStep(m, ops, want);
      DrainedStep(m', ops, want');
    }
  }

  lemma {:induction false} DrainedStep(m: Mem, ops: seq<Copy>, want: Want)
    requires Sound(m, ops, want) && ops != []
    ensures Drained(m, ops) == Drained(Do(m, ops[0]), ops[1..])
  {
    SoundFits(m, ops, want);
    SoundFits(Do(m, ops[0]), ops[1..], want);
  }

  lemma {:induction false} ReplaceOne(m: Mem, m': Mem, c: Copy, want: Want, want': Want, b: nat, stale: set<nat>)
    requires SameShape(m, want) && Aligned(want, c) && Fed(m, want, c) && Detached(c, b, stale, want')
    requires Elsewhere(m, m', b, stale) && Elsewhere(want, want', b, stale)
    requires b < |m| && Holds(m', want', b, 0, |m'[b]|)
    ensures Aligned(want', c) && Fed(m', want', c) && Elsewhere(Do(m, c), Do(m', c), b, stale)
    ensures Holds(Do(m', c), want', b, 0, |m'[b]|)
  {
    FitsShape(m, m', c);
    FitsShape(m, want', c);
    if Brings(c, b) {
      SliceFed(m', want', c);
    } else if c.src.Slice? && c.src.count > 0 {
      assert m'[c.src.blk] == m[c.src.blk] && want'[c.src.blk] == want[c.src.blk];
    }
  }
}
