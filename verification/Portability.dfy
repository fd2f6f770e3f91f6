/** The overflow-checked size_t arithmetic of src/portability.h, for the 64-bit targets
    (x86_64 and aarch64) the repository builds for. */
module Portability {

  const SIZE_MAX: nat := 0xFFFF_FFFF_FFFF_FFFF
  const SIZE_MODULUS: nat := SIZE_MAX + 1
  const POINTER_SIZE: nat := 8

  type SizeT = n: nat | n <= SIZE_MAX

  datatype Option<+T> = None | Some(value: T)

  /** C's unsigned arithmetic: results are reduced modulo 2^64. */
  function Reduce(n: int): SizeT {
    n % SIZE_MODULUS
  }

  /** The largest quotient test decides exactly whether a product leaves size_t. */
  lemma QuotientDecidesProduct(a: nat, b: nat, max: nat)
    requires a != 0
    ensures b > max / a <==> a * b > max
  {
    var q, r := max / a, max % a;
    assert max == a * q + r;
    if b <= q {
      assert a * b <= a * q by { MulMonotone(a, b, q); }
    } else {
      assert a * (q + 1) <= a * b by { MulMonotone(a, q + 1, b); }
      assert a * (q + 1) == a * q + a;
    }
  }

  lemma MulMonotone(a: nat, b: nat, c: nat)
    requires b <= c
    ensures a * b <= a * c
  {
    assert a * c == a * b + a * (c - b);
  }

  /** None is the helper's `true`: the exact product leaves size_t and nothing is stored. */
  function MulOverflow(a: SizeT, b: SizeT): (r: Option<SizeT>)
    ensures r.None? <==> a * b > SIZE_MAX
    ensures r.Some? ==> r.value == a * b
  {
    if a != 0 then
      QuotientDecidesProduct(a, b, SIZE_MAX);
      if b > SIZE_MAX / a then None else Some(Reduce(a * b))
    else
      Some(Reduce(a * b))
  }

  function AddOverflow(a: SizeT, b: SizeT): (r: Option<SizeT>)
    ensures r.None? <==> a + b > SIZE_MAX
    ensures r.Some? ==> r.value == a + b
  {
    if b > SIZE_MAX - a then None else Some(Reduce(a + b))
  }

  function SubOverflow(a: SizeT, b: SizeT): (r: Option<SizeT>)
    ensures r.None? <==> a - b < 0
    ensures r.Some? ==> r.value == a - b
  {
    if b > a then None else Some(Reduce(a - b))
  }
}
