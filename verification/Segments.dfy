// How a flush of 'n' pending inputs is divided among the workers of the async work queue.

module Segments {
  import opened Memory
  import opened Layout
  import opened Arithmetic

  datatype Segment = Segment(lo: nat, hi: nat, off: nat)

  function CeilDiv(n: nat, d: nat): nat
    requires d > 0
  {
    (n + d - 1) / d
  }

  function Stride(n: nat, workers: nat): nat
    requires workers > 0
  {
    CeilDiv(n, workers)
  }

  function Count(n: nat, workers: nat): nat
    requires workers > 0
  {
    if n == 0 then 0
    else
      StrideBounds(n, workers);
      CeilDiv(n, Stride(n, workers))
  }

  // Whether the tasks of a flush bring its counter to zero.
  predicate Completes(n: nat, workers: nat)
    requires workers > 0
  {
    n > 0 && (n <= workers || (workers - 1) * Stride(n, workers) < n)
  }

  lemma {:induction false} CeilDivBounds(n: nat, d: nat)
    requires d > 0
    ensures n <= CeilDiv(n, d) * d < n + d
  {
    var c := CeilDiv(n, d);
    assert n + d - 1 == c * d + (n + d - 1) % d;
  }

  lemma {:induction false} StrideBounds(n: nat, workers: nat)
    requires workers > 0 && n > 0
    ensures 1 <= Stride(n, workers) <= n
    ensures n <= Stride(n, workers) * workers < n + workers
  {
    var s := Stride(n, workers);
    CeilDivBounds(n, workers);
    if s > n {
      MulMonotone(n + 1, s, workers);
      assert (n + 1) * workers == n * workers + workers;
      MulMonotone(1, workers, n);
    }
  }

  // The countdown starts at min(n, workers): there are never more segments than that, and as many
  // exactly when 'Completes' says so.
  lemma {:induction false} CountBounds(n: nat, workers: nat)
    requires workers > 0
    ensures Count(n, workers) <= Min(n, workers)
    ensures n > 0 ==> (Count(n, workers) - 1) * Stride(n, workers) < n <= Count(n, workers) * Stride(n, workers)
    ensures Completes(n, workers) <==> n > 0 && Count(n, workers) == Min(n, workers)
  {
    if n > 0 {
      var s, c := Stride(n, workers), Count(n, workers);
      StrideBounds(n, workers);
      CeilDivBounds(n, s);
      assert (c - 1) * s == c * s - s;
      if c > workers { MulMonotone(workers, c - 1, s); }
      if c > n { MulMonotone(n, c - 1, s); MulMonotone(1, s, n); }
      if n <= workers {
        assert s == 1 by { if s >= 2 { MulMonotone(2, s, workers); } }
      } else if c < workers {
        MulMonotone(c, workers - 1, s);
      }
    }
  }

  // Five inputs on four workers make three segments, but the countdown starts at four.
  lemma {:induction false} FiveOnFour()
    ensures Count(5, 4) == 3 && Min(5, 4) == 4 && !Completes(5, 4) && !Completes(0, 4)
  {}

  function SegmentAt(parts: seq<seq<byte>>, workers: nat, i: nat): (r: Segment)
    requires workers > 0 && i < Count(|parts|, workers)
    ensures r.lo < r.hi <= |parts| && r.off == Off(parts, r.lo)
  {
    var s := Stride(|parts|, workers);
    CountBounds(|parts|, workers);
    MulMonotone(i, Count(|parts|, workers) - 1, s);
    StrideBounds(|parts|, workers);
    assert i * s < |parts|;
    Segment(i * s, Min((i + 1) * s, |parts|), Off(parts, i * s))
  }

  function SegmentsOf(parts: seq<seq<byte>>, workers: nat): (r: seq<Segment>)
    requires workers > 0
    ensures |r| == Count(|parts|, workers)
    ensures forall i :: 0 <= i < |r| ==> r[i] == SegmentAt(parts, workers, i)
  {
    seq(Count(|parts|, workers), i requires 0 <= i < Count(|parts|, workers) => SegmentAt(parts, workers, i))
  }

  // The segments are consecutive and together cover the pending list once.
  lemma {:induction false} SegmentsCover(parts: seq<seq<byte>>, workers: nat)
    requires workers > 0
    ensures var segs := SegmentsOf(parts, workers);
      && (segs != [] ==> segs[0].lo == 0 && segs[|segs| - 1].hi == |parts|)
      && (segs == [] <==> parts == [])
      && (forall i :: 0 <= i < |segs| - 1 ==> segs[i].hi == segs[i + 1].lo)
      && (forall i, j :: 0 <= i < j < |segs| ==> segs[i].hi <= segs[j].lo)
  {
    var n := |parts|;
    var s, c := Stride(n, workers), Count(n, workers);
    var segs := SegmentsOf(parts, workers);
    CountBounds(n, workers);
    if n > 0 {
      forall i, j | 0 <= i < j < |segs| ensures segs[i].hi <= segs[j].lo && (j == i + 1 ==> segs[i].hi == segs[j].lo) {
        MulMonotone(i + 1, j, s);
      }
      assert segs[c - 1].hi == n;
    }
  }

  lemma {:induction false} ChunkFor(n: nat, s: nat, c: nat, k: nat) returns (i: nat)
    requires 1 <= s && n <= c * s && k < n
    ensures i < c && i * s <= k < (i + 1) * s
  {
    i := k / s;
    assert (i + 1) * s == i * s + s;
    if i >= c { MulMonotone(c, i, s); }
  }

  lemma {:induction false} SegmentIs(parts: seq<seq<byte>>, workers: nat, i: nat)
    requires workers > 0 && i < Count(|parts|, workers)
    ensures SegmentAt(parts, workers, i).lo == i * Stride(|parts|, workers)
    ensures SegmentAt(parts, workers, i).hi == Min((i + 1) * Stride(|parts|, workers), |parts|)
  {
    hide Stride, Count;
  }

  // The segment that stages input 'k'.
  lemma {:induction false} SegmentFor(parts: seq<seq<byte>>, workers: nat, k: nat) returns (i: nat)
    requires workers > 0 && k < |parts|
    ensures i < Count(|parts|, workers)
    ensures SegmentAt(parts, workers, i).lo <= k < SegmentAt(parts, workers, i).hi
  {
    hide Stride, Count, SegmentAt, Completes;
    CountBounds(|parts|, workers);
    StrideBounds(|parts|, workers);
    i := ChunkFor(|parts|, Stride(|parts|, workers), Count(|parts|, workers), k);
    SegmentIs(parts, workers, i);
  }

  // The stride loop of a flush, as it walks the pending list.
  method SplitPending(parts: seq<seq<byte>>, workers: nat) returns (segs: seq<Segment>)
    requires workers > 0
    ensures segs == SegmentsOf(parts, workers)
  {
    segs := [];
    var stride := (|parts| + workers - 1) / workers;
    var pending, offset := 0, 0;
    CountBounds(|parts|, workers);
    while pending != |parts|
      invariant pending <= |parts| && offset == Off(parts, pending)
      invariant |segs| <= Count(|parts|, workers)
      invariant pending == Min(|segs| * stride, |parts|)
      invariant pending == |parts| <==> |segs| == Count(|parts|, workers)
      invariant forall i :: 0 <= i < |segs| ==> segs[i] == SegmentAt(parts, workers, i)
      decreases |parts| - pending
    {
      StrideBounds(|parts|, workers);
      var end, next := pending, offset;
      var idx := 0;
      while idx < stride
        invariant idx <= stride && end == pending + idx <= |parts| && next == Off(parts, end)
        invariant idx < stride ==> end < |parts|
      {
        next := next + |parts[end]|;
        end := end + 1;
        if end == |parts| { break; }
        idx := idx + 1;
      }
      NextSegment(parts, workers, |segs|, pending, end);
      segs := segs + [Segment(pending, end, offset)];
      offset, pending := next, end;
    }
  }

  lemma {:induction false} NextChunk(n: nat, s: nat, c: nat, i: nat)
    requires (c - 1) * s < n <= c * s && i < c
    ensures (i + 1) * s == i * s + s
    ensures n <= i * s + s <==> i + 1 == c
  {
    if i + 1 < c { MulMonotone(i + 1, c - 1, s); }
  }

  lemma {:induction false} NextSegment(parts: seq<seq<byte>>, workers: nat, i: nat, lo: nat, hi: nat)
    requires workers > 0 && i < Count(|parts|, workers)
    requires lo == i * Stride(|parts|, workers) < |parts|
    requires hi == Min(lo + Stride(|parts|, workers), |parts|)
    ensures SegmentAt(parts, workers, i) == Segment(lo, hi, Off(parts, lo))
    ensures hi == Min((i + 1) * Stride(|parts|, workers), |parts|)
    ensures hi == |parts| <==> i + 1 == Count(|parts|, workers)
  {
    CountBounds(|parts|, workers);
    NextChunk(|parts|, Stride(|parts|, workers), Count(|parts|, workers), i);
  }
}
