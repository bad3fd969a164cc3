/** Refill buckets (`proofbridge_core::rate_limit`): `level` is what is left, and it returns
    continuously at the limit's rate, never above its capacity. */
module RateLimit {
  import opened Numbers
  import opened Wrappers

  datatype Limit = Limit(capacity: u128, refill: u128)

  datatype Bucket = Bucket(level: u128, lastTs: u64)

  function Full(limit: Limit, now: u64): Bucket {
    Bucket(limit.capacity, now)
  }

  /** Checked arithmetic, then the clamp: an overflow of either step is "more than capacity". */
  function Available(limit: Limit, bucket: Bucket, now: u64): u128 {
    var accrued := limit.refill * SatSub(now, bucket.lastTs);
    if accrued > U128_MAX then limit.capacity
    else if bucket.level + accrued > U128_MAX then limit.capacity
    else if bucket.level + accrued <= limit.capacity then bucket.level + accrued
    else limit.capacity
  }

  /** Refill, then spend; the stamp never moves backwards. */
  function TrySpend(limit: Limit, bucket: Bucket, amount: nat, now: u64): Option<Bucket> {
    var level := Available(limit, bucket, now);
    if level < amount then None
    else Some(Bucket(level - amount, Max(now, bucket.lastTs)))
  }

  /** The checked form is the mathematical bucket: no overflow changes an answer. */
  lemma AvailableIsMin(limit: Limit, bucket: Bucket, now: u64)
    ensures Available(limit, bucket, now)
         == Min(limit.capacity, bucket.level + limit.refill * SatSub(now, bucket.lastTs))
  {
  }

  /** A bucket's future depends only on what it holds now: reading it at `mid` and letting it
      refill to `now` is the same as letting it refill all the way. */
  lemma AvailableComposes(limit: Limit, bucket: Bucket, mid: u64, now: u64)
    requires bucket.lastTs <= mid <= now
    ensures Available(limit, bucket, now)
         == Min(limit.capacity, Available(limit, bucket, mid) + limit.refill * (now - mid))
  {
    AvailableIsMin(limit, bucket, mid);
    AvailableIsMin(limit, bucket, now);
    var before, after := mid - bucket.lastTs, now - mid;
    Distributes(limit.refill, before, after);
    assert before + after == now - bucket.lastTs;
    MinAdds(limit.capacity, bucket.level + limit.refill * before, limit.refill * after);
  }

  lemma Distributes(r: nat, a: nat, b: nat)
    ensures r * (a + b) == r * a + r * b && 0 <= r * a && 0 <= r * b
  {
  }

  lemma MinAdds(cap: nat, x: nat, y: nat)
    ensures Min(cap, x + y) == Min(cap, Min(cap, x) + y)
  {
  }

  /** A spend takes exactly its amount out of what was available, and the rest of the bucket's
      future follows from that. */
  lemma SpendIsExact(limit: Limit, bucket: Bucket, amount: nat, now: u64)
    requires TrySpend(limit, bucket, amount, now).Some?
    ensures var b := TrySpend(limit, bucket, amount, now).value;
            Available(limit, b, now) + amount == Available(limit, bucket, now)
  {
    var b := TrySpend(limit, bucket, amount, now).value;
    AvailableIsMin(limit, bucket, now);
    AvailableIsMin(limit, b, now);
    assert limit.refill * SatSub(now, b.lastTs) == 0;
  }

  /** A bucket that holds less, under a limit that is no wider, holds less at every later time. */
  lemma DominationPersists(small: Limit, sb: Bucket, big: Limit, bb: Bucket, mid: u64, now: u64)
    requires small.capacity <= big.capacity && small.refill <= big.refill
    requires sb.lastTs <= mid <= now && bb.lastTs <= mid
    requires Available(small, sb, mid) <= Available(big, bb, mid)
    ensures Available(small, sb, now) <= Available(big, bb, now)
  {
    AvailableComposes(small, sb, mid, now);
    AvailableComposes(big, bb, mid, now);
    MulMonotone(small.refill, big.refill, now - mid);
  }

  /** What a bucket can hold at most after some time: what it held, plus the refill accrued. */
  lemma AccrualBound(limit: Limit, bucket: Bucket, mid: u64, now: u64)
    requires bucket.lastTs <= mid <= now
    ensures Available(limit, bucket, now) <= Available(limit, bucket, mid) + limit.refill * (now - mid)
  {
    AvailableComposes(limit, bucket, mid, now);
  }

  /** Re-configuring a bucket settles it at the old rate and clamps it to the new capacity. */
  function Settled(was: Limit, bucket: Bucket, next: Limit, now: u64): Bucket {
    Bucket(Min(Available(was, bucket, now), next.capacity), now)
  }

  /** A re-configuration never hands anything back: the bucket holds what it held, or the new
      capacity if that is less. */
  lemma SettledHolds(was: Limit, bucket: Bucket, next: Limit, now: u64)
    ensures Available(next, Settled(was, bucket, next, now), now)
         == Min(Available(was, bucket, now), next.capacity)
  {
    var b := Settled(was, bucket, next, now);
    AvailableIsMin(next, b, now);
    assert next.refill * SatSub(now, b.lastTs) == 0;
  }
}
