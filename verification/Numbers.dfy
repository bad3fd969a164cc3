/** Machine-integer bounds of the contracts and the saturating operations they use.
    The release profile traps on overflow (`overflow-checks = true`), so every plain `+`
    that could overflow is modelled as a refusal, never as a wrap. */
module Numbers {

  const U32_MAX: nat := 0xFFFF_FFFF
  const U64_MAX: nat := 0xFFFF_FFFF_FFFF_FFFF
  const U128_MAX: nat := 0xFFFF_FFFF_FFFF_FFFF_FFFF_FFFF_FFFF_FFFF
  const I128_MAX: nat := 0x7FFF_FFFF_FFFF_FFFF_FFFF_FFFF_FFFF_FFFF

  type u32 = x: nat | x <= U32_MAX witness 0
  type u64 = x: nat | x <= U64_MAX witness 0
  type u128 = x: nat | x <= U128_MAX witness 0

  function Min(a: int, b: int): int {
    if a <= b then a else b
  }

  function Max(a: int, b: int): int {
    if a >= b then a else b
  }

  /** `u64::saturating_add`. */
  function SatAdd64(a: nat, b: nat): nat {
    Min(a + b, U64_MAX)
  }

  /** `saturating_sub` of any unsigned width. */
  function SatSub(a: nat, b: nat): nat {
    if a <= b then 0 else a - b
  }

  /** Multiplying by a count keeps the order. */
  lemma {:induction false} MulMonotone(a: nat, b: nat, c: nat)
    requires a <= b
    ensures a * c <= b * c
    ensures c * a <= c * b
  {
    if c > 0 {
      MulMonotone(a, b, c - 1);
      assert a * c == a * (c - 1) + a && b * c == b * (c - 1) + b;
    }
  }

  /** Quotient and remainder are the only pair that rebuild the dividend. */
  lemma DivModUnique(n: nat, d: nat, q: nat, r: nat)
    requires r < d && n == q * d + r
    ensures n / d == q && n % d == r
  {
    var q', r' := n / d, n % d;
    assert n == q' * d + r';
    assert (q' + 1) * d == q' * d + d && (q + 1) * d == q * d + d;
    if q' < q {
      MulMonotone(q' + 1, q, d);
    } else if q < q' {
      MulMonotone(q + 1, q', d);
    }
  }

  /** Adding whole multiples moves the quotient and keeps the remainder. */
  lemma DivModShift(n: nat, d: nat, k: nat)
    requires d > 0
    ensures (n + d * k) / d == n / d + k
    ensures (n + d * k) % d == n % d
  {
    var q, r := n / d, n % d;
    assert n == q * d + r;
    assert n + d * k == (q + k) * d + r;
    DivModUnique(n + d * k, d, q + k, r);
  }
}
