// Element counts and byte sizes of shapes.

module Shapes {
  import opened Arithmetic

  const WILDCARD_DIM: int := -1

  function Product(dims: seq<int>): int {
    if dims == [] then 1 else Product(dims[..|dims| - 1]) * dims[|dims| - 1]
  }

  // The empty shape counts no element, a shape with a wildcard counts as -1.
  function ElementCount(dims: seq<int>): int {
    if dims == [] then 0 else if WILDCARD_DIM in dims then -1 else Product(dims)
  }

  function ByteSize(elementSize: nat, dims: seq<int>): int {
    if elementSize == 0 || ElementCount(dims) == -1 then -1 else ElementCount(dims) * elementSize
  }

  // Product is multiplication, from [] on.
  lemma {:induction false} ProductJoin(a: seq<int>, b: seq<int>)
    ensures Product(a + b) == Product(a) * Product(b)
    ensures Product([]) == 1
  {
    if b == [] {
      assert a + b == a;
    } else {
      var n := |b| - 1;
      assert (a + b)[..|a + b| - 1] == a + b[..n];
      ProductJoin(a, b[..n]);
      Associative(Product(a), Product(b[..n]), b[n]);
    }
  }

  lemma {:induction false} ProductOne(n: int)
    ensures Product([n]) == n
  {
    assert [n][..0] == [];
    assert Product([n]) == Product([]) * n;
  }

  lemma {:induction false} Associative(a: int, b: int, c: int)
    ensures (a * b) * c == a * (b * c)
  {}

  // Fixed dimensions never multiply to the number that stands for a wildcard.
  lemma {:induction false} NeverWildcard(dims: seq<int>)
    requires -1 !in dims
    ensures Product(dims) != -1
  {
    if dims != [] {
      var n := |dims| - 1;
      NeverWildcard(dims[..n]);
      if Product(dims[..n]) * dims[n] == -1 { UnitFactors(Product(dims[..n]), dims[n]); }
    }
  }

  lemma {:induction false} UnitFactors(a: int, b: int)
    requires a * b == -1
    ensures a == -1 || b == -1
  {
    if b >= 2 {
      if a >= 0 { MulMonotone(0, a, b); } else { MulMonotone(a, -1, b); }
    } else if b <= -2 {
      if a >= 1 { MulMonotone(1, a, -b); } else { MulMonotone(a, 0, -b); }
    }
  }

  method GetElementCount(dims: seq<int>) returns (cnt: int)
    ensures cnt == ElementCount(dims)
    ensures cnt == if dims == [] then 0 else if -1 in dims then -1 else Product(dims)
  {
    var first := true;
    cnt := 0;
    for i := 0 to |dims|
      invariant first <==> i == 0
      invariant WILDCARD_DIM !in dims[..i]
      invariant cnt == if i == 0 then 0 else Product(dims[..i])
    {
      if dims[i] == WILDCARD_DIM {
        return -1;
      }
      assert dims[..i + 1][..i] == dims[..i];
      if first {
        assert dims[..i] == [];
        cnt := dims[i];
        first := false;
      } else {
        cnt := cnt * dims[i];
      }
    }
    assert dims[..|dims|] == dims;
  }

  method GetByteSize(elementSize: nat, dims: seq<int>) returns (size: int)
    ensures size == ByteSize(elementSize, dims)
    ensures size == if elementSize == 0 || -1 in dims then -1 else if dims == [] then 0 else elementSize * Product(dims)
  {
    if elementSize == 0 {
      return -1;
    }
    var cnt := GetElementCount(dims);
    if -1 !in dims { NeverWildcard(dims); }
    if cnt == -1 {
      return -1;
    }
    return cnt * elementSize;
  }

  // Wildcards of 'shape' are taken from 'like'.
  function Resolved(shape: seq<int>, like: seq<int>): (r: seq<int>)
    ensures |r| == |shape|
    ensures forall i :: 0 <= i < |r| ==> r[i] == if shape[i] == WILDCARD_DIM && i < |like| then like[i] else shape[i]
  {
    seq(|shape|, i requires 0 <= i < |shape| => if shape[i] == WILDCARD_DIM && i < |like| then like[i] else shape[i])
  }

  method Resolve(shape: seq<int>, like: seq<int>) returns (r: seq<int>)
    requires forall i :: 0 <= i < |shape| && shape[i] == WILDCARD_DIM ==> i < |like|
    ensures r == Resolved(shape, like)
  {
    r := shape;
    for i := 0 to |r|
      invariant |r| == |shape|
      invariant forall j :: 0 <= j < |r| ==> r[j] == if j < i then Resolved(shape, like)[j] else shape[j]
    {
      if r[i] == WILDCARD_DIM {
        r := r[i := like[i]];
      }
    }
  }

  // A shape that is all wildcards takes the shape of the input.
  lemma {:induction false} ResolvedLike(shape: seq<int>, like: seq<int>)
    requires |shape| == |like| && forall i :: 0 <= i < |shape| ==> shape[i] == WILDCARD_DIM
    ensures Resolved(shape, like) == like
  {}
}
