/** What an agent's policy lets it lock, and what each lock debits (`policy.rs`, `escrow.rs`,
    the batch loop of `__check_auth`), and when a rewritten policy is a tightening. */
module Policies {
  import opened Numbers
  import opened Wrappers
  import opened RateLimit
  import opened Scaling
  import opened Account

  // ---- rows looked up by token: the first one counts ----

  function LimitFor(rows: seq<TokenLimit>, token: Token): (r: Option<TokenLimit>)
    ensures r.Some? ==> r.value in rows && r.value.token == token
  {
    if rows == [] then None
    else if rows[0].token == token then Some(rows[0])
    else LimitFor(rows[1..], token)
  }

  function BucketFor(buckets: seq<TokenBucket>, token: Token): Option<Bucket> {
    if buckets == [] then None
    else if buckets[0].token == token then Some(buckets[0].bucket)
    else BucketFor(buckets[1..], token)
  }

  /** The list with this token's first row replaced, or the row appended. */
  function WithBucket(buckets: seq<TokenBucket>, token: Token, b: Bucket): seq<TokenBucket> {
    if buckets == [] then [TokenBucket(token, b)]
    else if buckets[0].token == token then [TokenBucket(token, b)] + buckets[1..]
    else [buckets[0]] + WithBucket(buckets[1..], token, b)
  }

  lemma {:induction false} WithBucketReads(buckets: seq<TokenBucket>, token: Token, b: Bucket, other: Token)
    ensures BucketFor(WithBucket(buckets, token, b), other)
         == if other == token then Some(b) else BucketFor(buckets, other)
  {
    if buckets != [] && buckets[0].token != token {
      WithBucketReads(buckets[1..], token, b, other);
      assert WithBucket(buckets, token, b)[1..] == WithBucket(buckets[1..], token, b);
    } else if buckets != [] {
      assert WithBucket(buckets, token, b)[1..] == buckets[1..];
    }
  }

  /** The row written is the first of its token, however far down the list it is. */
  lemma {:induction false} WithBucketAt(buckets: seq<TokenBucket>, token: Token, b: Bucket, i: nat)
    requires i <= |buckets| && forall j :: 0 <= j < i ==> buckets[j].token != token
    requires i < |buckets| ==> buckets[i].token == token
    ensures WithBucket(buckets, token, b)
         == if i < |buckets| then buckets[i := TokenBucket(token, b)] else buckets + [TokenBucket(token, b)]
  {
    if i > 0 {
      WithBucketAt(buckets[1..], token, b, i - 1);
      var row := TokenBucket(token, b);
      if i < |buckets| {
        assert [buckets[0]] + buckets[1..][i - 1 := row] == buckets[i := row];
      } else {
        assert [buckets[0]] + (buckets[1..] + [row]) == buckets + [row];
      }
    }
  }

  /** `put_bucket`: scan for the token's row, else append one. */
  method PutBucket(buckets: seq<TokenBucket>, token: Token, b: Bucket) returns (r: seq<TokenBucket>)
    ensures r == WithBucket(buckets, token, b)
  {
    for i := 0 to |buckets|
      invariant forall j :: 0 <= j < i ==> buckets[j].token != token
    {
      if buckets[i].token == token {
        WithBucketAt(buckets, token, b, i);
        return buckets[i := TokenBucket(token, b)];
      }
    }
    WithBucketAt(buckets, token, b, |buckets|);
    return buckets + [TokenBucket(token, b)];
  }

  // ---- one lock ----

  predicate AdInScope(p: AgentPolicy, ad: AdId) {
    p.adScope.None? || ad in p.adScope.value
  }

  predicate Live(p: AgentPolicy, now: u64) {
    !p.revoked && (p.validUntil == 0 || now < p.validUntil)
  }

  /** A call an authorization asks for; anything but a contract call is refused. */
  datatype Context = ContractCall(target: Address, fn: Fn, args: Args) | OtherContext

  /** Who and what the lock is for. */
  predicate Reaches(self: Address, targets: seq<Address>, p: AgentPolicy, c: Context) {
    && c.ContractCall? && c.target in targets && c.fn == p.allowedAction
    && c.args.LockArgs? && c.args.reach.Some?
    && var reach := c.args.reach.value;
    && reach.adCreator == self && reach.settlementSigner == p.settlementSigner
    && LimitFor(p.adTokens, reach.adToken).Some? && reach.orderToken in p.orderTokens
    && AdInScope(p, c.args.ad)
  }

  function LockAmount(args: Args): Result<nat, ScalingError>
    requires args.LockArgs?
  {
    Scale(args.amount, args.orderDecimals, args.adDecimals)
  }

  /** How much the lock is for. */
  predicate Sized(p: AgentPolicy, args: Args)
    requires args.LockArgs? && args.reach.Some? && LimitFor(p.adTokens, args.reach.value.adToken).Some?
  {
    LockAmount(args).Ok?
    && 0 < LockAmount(args).value <= LimitFor(p.adTokens, args.reach.value.adToken).value.maxPerOrder
  }

  /** The agent's bucket for a token it may spend: a token never spent from is full. */
  function AgentBucket(p: AgentPolicy, token: Token, now: u64): Bucket
    requires LimitFor(p.adTokens, token).Some?
  {
    match BucketFor(p.buckets, token)
    case Some(b) => b
    case None => Full(LimitFor(p.adTokens, token).value.rate, now)
  }

  /** How much the lock draws on lately: both buckets must cover it. */
  predicate Covered(p: AgentPolicy, v: Volumes, token: Token, amount: nat, now: u64)
    requires LimitFor(p.adTokens, token).Some?
  {
    && token in v
    && TrySpend(LimitFor(p.adTokens, token).value.rate, AgentBucket(p, token, now), amount, now).Some?
    && TrySpend(v[token].limit, v[token].bucket, amount, now).Some?
  }

  predicate CanLock(self: Address, targets: seq<Address>, p: AgentPolicy, v: Volumes, c: Context, now: u64) {
    && Reaches(self, targets, p, c) && Sized(p, c.args)
    && Covered(p, v, c.args.reach.value.adToken, LockAmount(c.args).value, now)
  }

  /** A passing lock debits the agent's bucket and the account's, and nothing else. */
  function PolicyAfter(p: AgentPolicy, token: Token, amount: nat, now: u64): AgentPolicy
    requires LimitFor(p.adTokens, token).Some?
    requires TrySpend(LimitFor(p.adTokens, token).value.rate, AgentBucket(p, token, now), amount, now).Some?
  {
    var b := TrySpend(LimitFor(p.adTokens, token).value.rate, AgentBucket(p, token, now), amount, now).value;
    p.(buckets := WithBucket(p.buckets, token, b))
  }

  function VolumesAfter(v: Volumes, token: Token, amount: nat, now: u64): Volumes
    requires token in v && TrySpend(v[token].limit, v[token].bucket, amount, now).Some?
  {
    v[token := v[token].(bucket := TrySpend(v[token].limit, v[token].bucket, amount, now).value)]
  }

  /** `check_contract_call`: one context judged and charged. */
  function LockOnce(
    self: Address, targets: seq<Address>, p: AgentPolicy, v: Volumes, c: Context, now: u64)
    : Option<(AgentPolicy, Volumes)>
  {
    if !CanLock(self, targets, p, v, c, now) then None
    else
      var token, amount := c.args.reach.value.adToken, LockAmount(c.args).value;
      Some((PolicyAfter(p, token, amount, now), VolumesAfter(v, token, amount, now)))
  }

  /** The batch: every context in turn against what the earlier ones left, or nothing at all. */
  function LockAll(
    self: Address, targets: seq<Address>, p: AgentPolicy, v: Volumes, cs: seq<Context>, now: u64)
    : Option<(AgentPolicy, Volumes)>
    decreases cs
  {
    if cs == [] then Some((p, v))
    else
      match LockOnce(self, targets, p, v, cs[0], now)
      case None => None
      case Some(next) => LockAll(self, targets, next.0, next.1, cs[1..], now)
  }

  // ---- tightening ----

  predicate Subset<T(==)>(small: seq<T>, big: seq<T>) {
    forall x :: x in small ==> x in big
  }

  predicate NoLaterExpiry(cur: AgentPolicy, next: AgentPolicy) {
    cur.validUntil == 0 || (next.validUntil != 0 && next.validUntil <= cur.validUntil)
  }

  predicate NoWiderScope(cur: AgentPolicy, next: AgentPolicy) {
    match cur.adScope
    case None => true
    case Some(c) => next.adScope.Some? && Subset(next.adScope.value, c)
  }

  predicate NoWiderRow(cur: AgentPolicy, l: TokenLimit) {
    match LimitFor(cur.adTokens, l.token)
    case None => false
    case Some(c) =>
      l.maxPerOrder <= c.maxPerOrder && l.rate.capacity <= c.rate.capacity && l.rate.refill <= c.rate.refill
  }

  /** `is_policy_tightening`: `next` is no wider than `cur` on every axis. */
  predicate IsTightening(cur: AgentPolicy, next: AgentPolicy) {
    && next.allowedAction == cur.allowedAction
    && Subset(next.orderTokens, cur.orderTokens)
    && next.settlementSigner == cur.settlementSigner
    && NoLaterExpiry(cur, next)
    && NoWiderScope(cur, next)
    && forall l :: l in next.adTokens ==> NoWiderRow(cur, l)
  }

  /** One row of `carry_buckets`: a spent token's bucket, settled at the old rate, clamped to the new. */
  function CarryRow(cur: AgentPolicy, l: TokenLimit, buckets: seq<TokenBucket>, now: u64): seq<TokenBucket> {
    var b, c := BucketFor(cur.buckets, l.token), LimitFor(cur.adTokens, l.token);
    if b.Some? && c.Some? then WithBucket(buckets, l.token, Settled(c.value.rate, b.value, l.rate, now))
    else buckets
  }

  function Carried(cur: AgentPolicy, rows: seq<TokenLimit>, buckets: seq<TokenBucket>, now: u64): seq<TokenBucket> {
    if rows == [] then buckets else Carried(cur, rows[1..], CarryRow(cur, rows[0], buckets, now), now)
  }

  /** `carry_buckets`: the loop over the new rows. */
  method CarryBuckets(cur: AgentPolicy, next: AgentPolicy, now: u64) returns (r: AgentPolicy)
    ensures r == next.(buckets := Carried(cur, next.adTokens, next.buckets, now))
  {
    var buckets := next.buckets;
    for i := 0 to |next.adTokens|
      invariant Carried(cur, next.adTokens[i..], buckets, now) == Carried(cur, next.adTokens, next.buckets, now)
    {
      var l := next.adTokens[i];
      assert next.adTokens[i..][1..] == next.adTokens[i + 1..];
      var b, c := BucketFor(cur.buckets, l.token), LimitFor(cur.adTokens, l.token);
      if b.Some? && c.Some? {
        var settled := Available(c.value.rate, b.value, now);
        var level := Min(settled, l.rate.capacity);
        buckets := PutBucket(buckets, l.token, Bucket(level, now));
      }
    }
    r := next.(buckets := buckets);
  }

  // ---- installing ----

  predicate LimitOk(limit: Limit) {
    limit.capacity != 0 && limit.refill != 0
  }

  predicate NoRepeats<T(==)>(xs: seq<T>) {
    forall i, j :: 0 <= j < i < |xs| ==> xs[j] != xs[i]
  }

  function Tokens(rows: seq<TokenLimit>): seq<Token> {
    seq(|rows|, i requires 0 <= i < |rows| => rows[i].token)
  }

  predicate ScopeOk(scope: Option<seq<AdId>>) {
    scope.Some? ==>
      && 0 < |scope.value| <= MAX_AD_SCOPE && NoRepeats(scope.value)
      && forall a :: a in scope.value ==> 0 < |a| <= MAX_AD_ID_BYTES
  }

  /** `validate`: what a policy must be to be installed at all. */
  predicate Installable(p: AgentPolicy, v: Volumes, now: u64) {
    && p.allowedAction == LockForOrder
    && 0 < |p.adTokens| <= MAX_WHITELIST_TOKENS && NoRepeats(Tokens(p.adTokens))
    && (forall l :: l in p.adTokens ==>
          l.token != 0 && LimitOk(l.rate) && 0 < l.maxPerOrder <= l.rate.capacity && l.token in v)
    && 0 < |p.orderTokens| <= MAX_WHITELIST_TOKENS && NoRepeats(p.orderTokens)
    && (forall t :: t in p.orderTokens ==> t != 0)
    && p.settlementSigner != 0
    && (p.validUntil != 0 ==> now < p.validUntil <= MAX_VALID_UNTIL)
    && ScopeOk(p.adScope)
  }
}
