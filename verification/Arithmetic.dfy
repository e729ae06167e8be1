// Arithmetic that several modules need.

module Arithmetic {
  const SIZE_MODULUS: int := 0x1_0000_0000_0000_0000

  // Conversion to size_t.
  function ToSize(v: int): (r: nat)
    ensures r < SIZE_MODULUS && (0 <= v < SIZE_MODULUS ==> r == v)
  {
    v % SIZE_MODULUS
  }

  function Min(a: nat, b: nat): nat {
    if a < b then a else b
  }

  lemma {:induction false} MulMonotone(a: int, b: int, m: int)
    requires a <= b && m >= 0
    ensures a * m <= b * m
  {}
}
