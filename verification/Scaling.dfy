/** Rescaling an order's amount between two tokens' decimals
    (`proofbridge_core::decimal_scaling`). */
module Scaling {
  import opened Numbers
  import opened Wrappers

  /** Decimals above this are refused; ten to this power fits a `u128`. */
  const MAX_DECIMALS: nat := 30

  datatype ScalingError = DecimalsOutOfRange | NonExactDownscale | Overflow

  function Pow10(n: nat): (p: nat)
    ensures p > 0
  {
    if n == 0 then 1 else 10 * Pow10(n - 1)
  }

  function Scale(amount: nat, fromDec: nat, toDec: nat): Result<nat, ScalingError> {
    if fromDec > MAX_DECIMALS || toDec > MAX_DECIMALS then Err(DecimalsOutOfRange)
    else if fromDec == toDec then Ok(amount)
    else if toDec > fromDec then
      var scaled := amount * Pow10(toDec - fromDec);
      if scaled > U128_MAX then Err(Overflow) else Ok(scaled)
    else
      var factor := Pow10(fromDec - toDec);
      if amount % factor != 0 then Err(NonExactDownscale) else Ok(amount / factor)
  }

  lemma Associates(a: nat, b: nat, c: nat)
    ensures a * b * c == a * (b * c)
  {
  }

  lemma {:induction false} Pow10Add(a: nat, b: nat)
    ensures Pow10(a + b) == Pow10(a) * Pow10(b)
  {
    if a > 0 {
      Pow10Add(a - 1, b);
      Associates(10, Pow10(a - 1), Pow10(b));
      assert a + b - 1 == a - 1 + b;
    }
  }

  /** The power the source computes with `checked_pow` never overflows in range. */
  lemma Pow10Fits(n: nat)
    requires n <= MAX_DECIMALS
    ensures Pow10(n) <= U128_MAX
  {
    Pow10Monotone(n, MAX_DECIMALS);
    Pow10Add(10, 10);
    Pow10Add(20, 10);
    assert Pow10(10) == 10_000_000_000 by {
      assert Pow10(5) == 100_000;
      Pow10Add(5, 5);
    }
  }

  lemma {:induction false} Pow10Monotone(a: nat, b: nat)
    requires a <= b
    ensures Pow10(a) <= Pow10(b)
  {
    if a < b {
      Pow10Monotone(a, b - 1);
    }
  }

  /** What a successful scaling means: the same quantity in the other token's units, exactly. */
  lemma ScaleIsExact(amount: nat, fromDec: nat, toDec: nat, v: nat)
    requires Scale(amount, fromDec, toDec) == Ok(v)
    ensures v * Pow10(fromDec) == amount * Pow10(toDec)
    ensures amount > 0 ==> v > 0
    ensures amount <= U128_MAX ==> v <= U128_MAX
  {
    if toDec > fromDec {
      ScaledUpIsExact(amount, fromDec, toDec, v);
    } else if toDec < fromDec {
      ScaledDownIsExact(amount, fromDec, toDec, v);
    }
  }

  lemma ScaledUpIsExact(amount: nat, fromDec: nat, toDec: nat, v: nat)
    requires fromDec < toDec && Scale(amount, fromDec, toDec) == Ok(v)
    ensures v * Pow10(fromDec) == amount * Pow10(toDec)
    ensures (amount > 0 ==> v > 0) && v <= U128_MAX
  {
    ScaledUp(amount, toDec - fromDec, fromDec);
    assert toDec - fromDec + fromDec == toDec;
  }

  lemma ScaledDownIsExact(amount: nat, fromDec: nat, toDec: nat, v: nat)
    requires toDec < fromDec && Scale(amount, fromDec, toDec) == Ok(v)
    ensures v * Pow10(fromDec) == amount * Pow10(toDec)
    ensures (amount > 0 ==> v > 0) && v <= amount
  {
    ScaledDown(amount, fromDec - toDec, toDec);
    assert fromDec - toDec + toDec == fromDec;
  }

  lemma ScaledUp(amount: nat, delta: nat, base: nat)
    ensures amount * Pow10(delta) * Pow10(base) == amount * Pow10(delta + base)
    ensures amount > 0 ==> amount * Pow10(delta) > 0
  {
    Pow10Add(delta, base);
    Associates(amount, Pow10(delta), Pow10(base));
    MulMonotone(1, Pow10(delta), amount);
  }

  lemma ScaledDown(amount: nat, delta: nat, base: nat)
    requires amount % Pow10(delta) == 0
    ensures amount / Pow10(delta) * Pow10(delta + base) == amount * Pow10(base)
    ensures amount / Pow10(delta) <= amount
    ensures amount > 0 ==> amount / Pow10(delta) > 0
  {
    Pow10Add(delta, base);
    DivideExactly(amount, Pow10(delta));
    Associates(amount / Pow10(delta), Pow10(delta), Pow10(base));
  }

  lemma DivideExactly(amount: nat, factor: nat)
    requires factor > 0 && amount % factor == 0
    ensures amount / factor * factor == amount
    ensures amount / factor <= amount
    ensures amount > 0 ==> amount / factor > 0
  {
    var q := amount / factor;
    assert amount == q * factor + amount % factor;
    MulMonotone(1, factor, q);
  }

  /** Scaling back returns the signed amount: a lock and its payout cannot drift apart. */
  lemma ScaleRoundTrips(amount: nat, fromDec: nat, toDec: nat, v: nat)
    requires amount <= U128_MAX
    requires Scale(amount, fromDec, toDec) == Ok(v)
    ensures Scale(v, toDec, fromDec) == Ok(amount)
  {
    if toDec > fromDec {
      MultipleDivides(amount, Pow10(toDec - fromDec));
    } else if toDec < fromDec {
      DivideExactly(amount, Pow10(fromDec - toDec));
    }
  }

  lemma MultipleDivides(amount: nat, factor: nat)
    requires factor > 0
    ensures amount * factor % factor == 0
    ensures amount * factor / factor == amount
  {
    DivModUnique(amount * factor, factor, amount, 0);
  }
}
