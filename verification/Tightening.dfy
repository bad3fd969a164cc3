/** An instant policy write is a refinement: whatever the tightened policy still accepts, over any
    timed sequence of batches, the policy it replaced would have accepted too. */
module Tightening {
  import opened Numbers
  import opened Wrappers
  import opened RateLimit
  import opened Account
  import opened Policies

  /** One authorization of the agent: its ledger time, the pinned escrows and the account's shared
      rows as they stand then (whatever else happened in between), and the calls asked for. */
  datatype Batch = Batch(now: u64, targets: seq<Address>, volumes: Volumes, contexts: seq<Context>)

  predicate Timed(from: u64, batches: seq<Batch>)
    decreases batches
  {
    batches == [] || (from <= batches[0].now && Timed(batches[0].now, batches[1..]))
  }

  /** Every batch is accepted in turn; each leaves its debits in the policy. */
  predicate AcceptsAll(self: Address, p: AgentPolicy, batches: seq<Batch>)
    decreases batches
  {
    batches == []
    || (var b := batches[0];
        && Live(p, b.now) && b.contexts != []
        && LockAll(self, b.targets, p, b.volumes, b.contexts, b.now).Some?
        && AcceptsAll(self, LockAll(self, b.targets, p, b.volumes, b.contexts, b.now).value.0, batches[1..]))
  }

  function AgentAvailable(p: AgentPolicy, token: Token, now: u64): nat
    requires LimitFor(p.adTokens, token).Some?
  {
    Available(LimitFor(p.adTokens, token).value.rate, AgentBucket(p, token, now), now)
  }

  /** Stamps never lie ahead of the ledger. */
  predicate StampedBy(buckets: seq<TokenBucket>, now: u64) {
    forall b :: b in buckets ==> b.bucket.lastTs <= now
  }

  lemma {:induction false} StampedBucket(buckets: seq<TokenBucket>, token: Token, now: u64)
    requires StampedBy(buckets, now) && BucketFor(buckets, token).Some?
    ensures BucketFor(buckets, token).value.lastTs <= now
  {
    if buckets[0].token != token {
      StampedBucket(buckets[1..], token, now);
    } else {
      assert buckets[0] in buckets;
    }
  }

  lemma {:induction false} StampedWith(buckets: seq<TokenBucket>, token: Token, b: Bucket, now: u64)
    requires StampedBy(buckets, now) && b.lastTs <= now
    ensures StampedBy(WithBucket(buckets, token, b), now)
  {
    if buckets != [] && buckets[0].token != token {
      StampedWith(buckets[1..], token, b, now);
    }
  }

  predicate Below(cur: AgentPolicy, next: AgentPolicy, token: Token, now: u64) {
    LimitFor(next.adTokens, token).Some? ==>
      LimitFor(cur.adTokens, token).Some? && AgentAvailable(next, token, now) <= AgentAvailable(cur, token, now)
  }

  /** The simulation: no wider on any axis, and holding no more of any token. */
  ghost predicate Refines(cur: AgentPolicy, next: AgentPolicy, now: u64) {
    && !cur.revoked && IsTightening(cur, next)
    && StampedBy(cur.buckets, now) && StampedBy(next.buckets, now)
    && forall token :: Below(cur, next, token, now)
  }

  lemma RowsMatch(cur: AgentPolicy, next: AgentPolicy, token: Token)
    requires IsTightening(cur, next) && LimitFor(next.adTokens, token).Some?
    ensures LimitFor(cur.adTokens, token).Some?
    ensures var l, c := LimitFor(next.adTokens, token).value, LimitFor(cur.adTokens, token).value;
            l.maxPerOrder <= c.maxPerOrder && l.rate.capacity <= c.rate.capacity && l.rate.refill <= c.rate.refill
  {
    assert NoWiderRow(cur, LimitFor(next.adTokens, token).value);
  }

  /** A bucket never spent from stays full, so an agent's bucket can be read at any earlier time. */
  lemma AgentBucketAges(p: AgentPolicy, token: Token, mid: u64, now: u64)
    requires LimitFor(p.adTokens, token).Some? && mid <= now && StampedBy(p.buckets, mid)
    ensures AgentBucket(p, token, mid).lastTs <= mid
    ensures Available(LimitFor(p.adTokens, token).value.rate, AgentBucket(p, token, mid), now)
         == AgentAvailable(p, token, now)
  {
    var rate := LimitFor(p.adTokens, token).value.rate;
    if BucketFor(p.buckets, token).Some? {
      StampedBucket(p.buckets, token, mid);
    } else {
      AvailableIsMin(rate, Full(rate, mid), now);
      AvailableIsMin(rate, Full(rate, now), now);
      assert rate.refill * SatSub(now, mid) >= 0;
      assert rate.refill * SatSub(now, now) == 0;
    }
  }

  /** Time passing keeps it. */
  lemma RefinesLater(cur: AgentPolicy, next: AgentPolicy, mid: u64, now: u64)
    requires Refines(cur, next, mid) && mid <= now
    ensures Refines(cur, next, now)
  {
    forall token ensures Below(cur, next, token, now) {
      if LimitFor(next.adTokens, token).Some? {
        assert Below(cur, next, token, mid);
        RowsMatch(cur, next, token);
        AgentBucketAges(cur, token, mid, now);
        AgentBucketAges(next, token, mid, now);
        DominationPersists(LimitFor(next.adTokens, token).value.rate, AgentBucket(next, token, mid),
                           LimitFor(cur.adTokens, token).value.rate, AgentBucket(cur, token, mid), mid, now);
      }
    }
  }

  /** A spend of one token leaves what is available of every token exactly as expected. */
  lemma SpendMoves(p: AgentPolicy, token: Token, amount: nat, now: u64, other: Token)
    requires LimitFor(p.adTokens, token).Some? && LimitFor(p.adTokens, other).Some?
    requires TrySpend(LimitFor(p.adTokens, token).value.rate, AgentBucket(p, token, now), amount, now).Some?
    ensures AgentAvailable(PolicyAfter(p, token, amount, now), other, now)
         == AgentAvailable(p, other, now) - (if other == token then amount else 0)
  {
    var rate := LimitFor(p.adTokens, token).value.rate;
    var b := TrySpend(rate, AgentBucket(p, token, now), amount, now).value;
    WithBucketReads(p.buckets, token, b, other);
    SpendIsExact(rate, AgentBucket(p, token, now), amount, now);
  }

  lemma SpendStamps(p: AgentPolicy, token: Token, amount: nat, now: u64)
    requires LimitFor(p.adTokens, token).Some? && StampedBy(p.buckets, now)
    requires TrySpend(LimitFor(p.adTokens, token).value.rate, AgentBucket(p, token, now), amount, now).Some?
    ensures StampedBy(PolicyAfter(p, token, amount, now).buckets, now)
  {
    AgentBucketAges(p, token, now, now);
    var b := TrySpend(LimitFor(p.adTokens, token).value.rate, AgentBucket(p, token, now), amount, now).value;
    StampedWith(p.buckets, token, b, now);
  }

  /** A lock the tightened policy accepts, the old one accepts, with the same account debit. */
  lemma LockRefines(
    self: Address, targets: seq<Address>, cur: AgentPolicy, next: AgentPolicy, v: Volumes, c: Context, now: u64)
    requires Refines(cur, next, now) && CanLock(self, targets, next, v, c, now)
    ensures CanLock(self, targets, cur, v, c, now)
    ensures LockOnce(self, targets, cur, v, c, now).value.1 == LockOnce(self, targets, next, v, c, now).value.1
    ensures Refines(LockOnce(self, targets, cur, v, c, now).value.0,
                    LockOnce(self, targets, next, v, c, now).value.0, now)
  {
    var token, amount := c.args.reach.value.adToken, LockAmount(c.args).value;
    RowsMatch(cur, next, token);
    assert Below(cur, next, token, now);
    var cur', next' := PolicyAfter(cur, token, amount, now), PolicyAfter(next, token, amount, now);
    SpendStamps(cur, token, amount, now);
    SpendStamps(next, token, amount, now);
    forall t ensures Below(cur', next', t, now) {
      if LimitFor(next.adTokens, t).Some? {
        assert Below(cur, next, t, now);
        SpendMoves(cur, token, amount, now, t);
        SpendMoves(next, token, amount, now, t);
      }
    }
    assert IsTightening(cur', next') by {
      assert forall l :: l in next'.adTokens ==> NoWiderRow(cur, l) && NoWiderRow(cur', l) == NoWiderRow(cur, l);
    }
  }

  lemma {:induction false} BatchRefines(
    self: Address, targets: seq<Address>, cur: AgentPolicy, next: AgentPolicy, v: Volumes, cs: seq<Context>, now: u64)
    requires Refines(cur, next, now) && LockAll(self, targets, next, v, cs, now).Some?
    ensures LockAll(self, targets, cur, v, cs, now).Some?
    ensures Refines(LockAll(self, targets, cur, v, cs, now).value.0,
                    LockAll(self, targets, next, v, cs, now).value.0, now)
    decreases cs
  {
    if cs != [] {
      LockRefines(self, targets, cur, next, v, cs[0], now);
      var a, b := LockOnce(self, targets, cur, v, cs[0], now).value, LockOnce(self, targets, next, v, cs[0], now).value;
      BatchRefines(self, targets, a.0, b.0, b.1, cs[1..], now);
    }
  }

  lemma {:induction false} RunRefines(
    self: Address, cur: AgentPolicy, next: AgentPolicy, from: u64, batches: seq<Batch>)
    requires Refines(cur, next, from) && Timed(from, batches) && AcceptsAll(self, next, batches)
    ensures AcceptsAll(self, cur, batches)
    decreases batches
  {
    if batches != [] {
      var b := batches[0];
      RefinesLater(cur, next, from, b.now);
      BatchRefines(self, b.targets, cur, next, b.volumes, b.contexts, b.now);
      RunRefines(self,
        LockAll(self, b.targets, cur, b.volumes, b.contexts, b.now).value.0,
        LockAll(self, b.targets, next, b.volumes, b.contexts, b.now).value.0, b.now, batches[1..]);
    }
  }

  // ---- what carrying the buckets establishes ----

  /** A carried bucket holds no more than the old policy's, for every row that follows. */
  predicate HoldsLess(cur: AgentPolicy, buckets: seq<TokenBucket>, token: Token, now: u64) {
    LimitFor(cur.adTokens, token).Some? && BucketFor(cur.buckets, token).Some? && BucketFor(buckets, token).Some? ==>
      && BucketFor(buckets, token).value.lastTs == now
      && BucketFor(buckets, token).value.level
         <= Available(LimitFor(cur.adTokens, token).value.rate, BucketFor(cur.buckets, token).value, now)
  }

  lemma {:induction false} CarriedHoldsLess(
    cur: AgentPolicy, rows: seq<TokenLimit>, buckets: seq<TokenBucket>, now: u64, token: Token)
    requires HoldsLess(cur, buckets, token, now) && StampedBy(buckets, now)
    requires forall l :: l in rows ==> NoWiderRow(cur, l)
    ensures var after := Carried(cur, rows, buckets, now);
            && HoldsLess(cur, after, token, now) && StampedBy(after, now)
            && (BucketFor(buckets, token).Some? ==> BucketFor(after, token).Some?)
            && (LimitFor(rows, token).Some? && BucketFor(cur.buckets, token).Some? ==> BucketFor(after, token).Some?)
    decreases rows
  {
    if rows != [] {
      var l := rows[0];
      assert NoWiderRow(cur, l);
      if BucketFor(cur.buckets, l.token).Some? {
        var b := Settled(LimitFor(cur.adTokens, l.token).value.rate, BucketFor(cur.buckets, l.token).value, l.rate, now);
        WithBucketReads(buckets, l.token, b, token);
        StampedWith(buckets, l.token, b, now);
      }
      CarriedHoldsLess(cur, rows[1..], CarryRow(cur, l, buckets, now), now, token);
    }
  }

  /** The simulation holds at the moment of the write. */
  lemma CarryStarts(cur: AgentPolicy, next: AgentPolicy, now: u64)
    requires IsTightening(cur, next) && !cur.revoked && next.buckets == [] && StampedBy(cur.buckets, now)
    ensures Refines(cur, next.(buckets := Carried(cur, next.adTokens, [], now)), now)
  {
    var n := next.(buckets := Carried(cur, next.adTokens, [], now));
    forall token ensures Below(cur, n, token, now) && StampedBy(n.buckets, now) {
      CarriedHoldsLess(cur, next.adTokens, [], now, token);
      if LimitFor(next.adTokens, token).Some? {
        RowsMatch(cur, next, token);
        StartsBelow(cur, n, token, now);
      }
    }
    assert forall l :: l in n.adTokens ==> NoWiderRow(cur, l);
    assert Below(cur, n, 0, now);
  }

  lemma StartsBelow(cur: AgentPolicy, n: AgentPolicy, token: Token, now: u64)
    requires LimitFor(n.adTokens, token).Some? && LimitFor(cur.adTokens, token).Some?
    requires LimitFor(n.adTokens, token).value.rate.capacity <= LimitFor(cur.adTokens, token).value.rate.capacity
    requires HoldsLess(cur, n.buckets, token, now)
    requires BucketFor(cur.buckets, token).Some? ==> BucketFor(n.buckets, token).Some?
    ensures Below(cur, n, token, now)
  {
    var l, c := LimitFor(n.adTokens, token).value.rate, LimitFor(cur.adTokens, token).value.rate;
    var nb, cb := AgentBucket(n, token, now), AgentBucket(cur, token, now);
    AvailableIsMin(l, nb, now);
    AvailableIsMin(c, cb, now);
    if BucketFor(cur.buckets, token).Some? {
      assert l.refill * SatSub(now, nb.lastTs) == 0;
    } else {
      assert c.refill * SatSub(now, cb.lastTs) == 0;
    }
  }

  /** The theorem: an instant tightening, with the spent buckets carried, accepts no timed sequence
      of batches that the policy it replaced would have refused. */
  lemma TighteningRefines(
    self: Address, cur: AgentPolicy, next: AgentPolicy, now: u64, batches: seq<Batch>)
    requires IsTightening(cur, next) && !cur.revoked && next.buckets == [] && StampedBy(cur.buckets, now)
    requires Timed(now, batches)
    requires AcceptsAll(self, next.(buckets := Carried(cur, next.adTokens, [], now)), batches)
    ensures AcceptsAll(self, cur, batches)
  {
    CarryStarts(cur, next, now);
    RunRefines(self, cur, next.(buckets := Carried(cur, next.adTokens, [], now)), now, batches);
  }

  /** Carrying the buckets is what makes it one: the same policy written again with fresh buckets is
      "no wider on any axis" and still hands the agent back whatever it had spent. */
  lemma FreshBucketsTopUp(cur: AgentPolicy, token: Token, now: u64)
    requires LimitFor(cur.adTokens, token).Some?
    requires AgentAvailable(cur, token, now) < LimitFor(cur.adTokens, token).value.rate.capacity
    ensures var next := cur.(adTokens := [LimitFor(cur.adTokens, token).value], buckets := []);
            && IsTightening(cur, next) && LimitFor(next.adTokens, token).Some?
            && AgentAvailable(cur, token, now) < AgentAvailable(next, token, now)
  {
    var row := LimitFor(cur.adTokens, token).value;
    var next := cur.(adTokens := [row], buckets := []);
    AvailableIsMin(row.rate, Full(row.rate, now), now);
    assert row.rate.refill * SatSub(now, now) == 0;
    assert forall l :: l in next.adTokens ==> l == row && NoWiderRow(cur, l);
  }
}
