/** The bridge fee on the ad chain's payouts (`proofbridge_core::fees`). */
module Fees {
  import opened Numbers

  /** The ceiling on each fee: 1%, in basis points. */
  const MAX_FEE_BPS: nat := 100

  /** The source's overflow-free split of the product: quotient and remainder scaled apart. */
  function BpsOf(amount: nat, bps: nat): nat {
    amount / 10_000 * bps + amount % 10_000 * bps / 10_000
  }

  /** `set_fee_bps`'s rule: a protocol fee needs a pool to be paid to. */
  predicate FeesValid(lpBps: nat, protocolBps: nat, poolSet: bool) {
    lpBps <= MAX_FEE_BPS && protocolBps <= MAX_FEE_BPS && (protocolBps == 0 || poolSet)
  }

  /** The split form is the exact floor of `amount * bps / 10_000`. */
  lemma BpsOfIsFloor(amount: nat, bps: nat)
    ensures BpsOf(amount, bps) == amount * bps / 10_000
  {
    var q, r := amount / 10_000, amount % 10_000;
    assert amount == 10_000 * q + r;
    assert amount * bps == 10_000 * (q * bps) + r * bps;
  }

  /** No intermediate product overflows a `u128` while the rate is at most the whole. */
  lemma BpsOfFits(amount: nat, bps: nat)
    requires amount <= U128_MAX && bps <= 10_000
    ensures amount / 10_000 * bps <= amount
    ensures amount % 10_000 * bps <= U128_MAX
    ensures BpsOf(amount, bps) <= amount
  {
    var q, r := amount / 10_000, amount % 10_000;
    assert amount == 10_000 * q + r;
    MulMonotone(bps, 10_000, q);
    MulMonotone(bps, 10_000, r);
  }

  /** The two fees of a valid split never take more than 2% of a payout, so the recipient
      of a positive payout is always paid something. */
  lemma SplitLeavesRecipient(amount: nat, lpBps: nat, protocolBps: nat)
    requires lpBps <= MAX_FEE_BPS && protocolBps <= MAX_FEE_BPS
    ensures BpsOf(amount, lpBps) + BpsOf(amount, protocolBps) <= amount / 50
    ensures amount > 0 ==> BpsOf(amount, lpBps) + BpsOf(amount, protocolBps) < amount
  {
    OnePercent(amount, lpBps);
    OnePercent(amount, protocolBps);
  }

  lemma OnePercent(amount: nat, bps: nat)
    requires bps <= MAX_FEE_BPS
    ensures BpsOf(amount, bps) <= amount / 100
  {
    var q, r := amount / 10_000, amount % 10_000;
    MulMonotone(bps, 100, q);
    MulMonotone(bps, 100, r);
    assert amount == 10_000 * q + r;
  }
}
