// Byte offsets of pieces laid side by side.

module Layout {
  import opened Memory

  function Off(parts: seq<seq<byte>>, k: nat): nat
    requires k <= |parts|
  {
    if k == 0 then 0 else Off(parts, k - 1) + |parts[k - 1]|
  }

  function ConcatTo(parts: seq<seq<byte>>, k: nat): (r: seq<byte>)
    requires k <= |parts|
    ensures |r| == Off(parts, k)
  {
    if k == 0 then [] else ConcatTo(parts, k - 1) + parts[k - 1]
  }

  function Concat(parts: seq<seq<byte>>): (r: seq<byte>)
    ensures |r| == Off(parts, |parts|)
  {
    ConcatTo(parts, |parts|)
  }

  function Total(parts: seq<seq<byte>>): nat {
    Off(parts, |parts|)
  }

  function Offsets(parts: seq<seq<byte>>): (r: seq<nat>)
    ensures |r| == |parts| && forall i :: 0 <= i < |r| ==> r[i] == Off(parts, i)
  {
    seq(|parts|, i requires 0 <= i < |parts| => Off(parts, i))
  }

  function Sizes(parts: seq<seq<byte>>): (r: seq<nat>)
    ensures |r| == |parts| && forall i :: 0 <= i < |r| ==> r[i] == |parts[i]|
  {
    seq(|parts|, i requires 0 <= i < |parts| => |parts[i]|)
  }

  lemma {:induction false} OffZero(parts: seq<seq<byte>>)
    ensures Off(parts, 0) == 0
  {}

  lemma {:induction false} OffStep(parts: seq<seq<byte>>, k: nat)
    requires k < |parts|
    ensures Off(parts, k + 1) == Off(parts, k) + |parts[k]|
  {}

  lemma {:induction false} OffMonotone(parts: seq<seq<byte>>, i: nat, j: nat)
    requires i <= j <= |parts|
    ensures Off(parts, i) <= Off(parts, j)
    decreases j
  {
    if i < j { OffMonotone(parts, i, j - 1); }
  }

  // Offsets of the first pieces do not change when a piece is appended.
  lemma {:induction false} OffPrefix(parts: seq<seq<byte>>, more: seq<seq<byte>>, k: nat)
    requires k <= |parts| <= |more| && more[..|parts|] == parts
    ensures Off(more, k) == Off(parts, k) && ConcatTo(more, k) == ConcatTo(parts, k)
  {
    if k > 0 {
      OffPrefix(parts, more, k - 1);
      assert more[k - 1] == more[..|parts|][k - 1];
    }
  }

  lemma {:induction false} ConcatAt(parts: seq<seq<byte>>, n: nat, k: nat, p: nat)
    requires k < n <= |parts| && Off(parts, k) <= p < Off(parts, k + 1)
    ensures p < Off(parts, n) && ConcatTo(parts, n)[p] == parts[k][p - Off(parts, k)]
  {
    OffMonotone(parts, k + 1, n);
    if k + 1 < n { ConcatAt(parts, n - 1, k, p); }
  }

  // The piece a byte belongs to.
  function Owner(parts: seq<seq<byte>>, n: nat, p: nat): (k: nat)
    requires n <= |parts| && p < Off(parts, n)
    ensures k < n && Off(parts, k) <= p < Off(parts, k + 1)
  {
    if Off(parts, n - 1) <= p then n - 1 else Owner(parts, n - 1, p)
  }

  lemma {:induction false} OwnerUnique(parts: seq<seq<byte>>, i: nat, j: nat, p: nat)
    requires i < |parts| && j < |parts|
    requires Off(parts, i) <= p < Off(parts, i + 1) && Off(parts, j) <= p < Off(parts, j + 1)
    ensures i == j
  {
    if i < j { OffMonotone(parts, i + 1, j); }
    if j < i { OffMonotone(parts, j + 1, i); }
  }

  // How many pieces, counted from the front, fit in 'cap' bytes.
  function Accepted(parts: seq<seq<byte>>, cap: nat, n: nat): (k: nat)
    requires n <= |parts|
    ensures k <= n && Off(parts, k) <= cap
  {
    if Off(parts, n) <= cap then n else Accepted(parts, cap, n - 1)
  }

  // The bounds check accepts a prefix: a piece ends within 'cap' exactly when it is one of the first 'Accepted'.
  lemma {:induction false} AcceptedIsPrefix(parts: seq<seq<byte>>, cap: nat, n: nat, k: nat)
    requires k < n <= |parts|
    ensures Off(parts, k + 1) <= cap <==> k < Accepted(parts, cap, n)
  {
    OffMonotone(parts, k + 1, n);
    if Off(parts, n) > cap && k + 1 < n { AcceptedIsPrefix(parts, cap, n - 1, k); }
  }

  // The tensor once every accepted piece has been laid down over 'block'.
  function Laid(parts: seq<seq<byte>>, block: seq<byte>): (r: seq<byte>)
    ensures |r| == |block|
  {
    var k := Accepted(parts, |block|, |parts|);
    Splice(block, 0, ConcatTo(parts, k))
  }

  function AcceptedBytes(parts: seq<seq<byte>>, cap: nat): (r: nat)
    ensures r <= cap
  {
    Off(parts, Accepted(parts, cap, |parts|))
  }
}
