/** What the refill buckets bound over whole runs: everything all agents lock together, and what
    the owner's key can move out of a guarded ad without announcing it. */
module VolumeBounds {
  import opened Numbers
  import opened Wrappers
  import opened RateLimit
  import opened Account
  import opened Policies
  import opened Tightening
  import opened Timelock
  import opened TimelockInvariants
  import TimelockTheorems

  // ---- stamps ----

  /** No bucket is stamped ahead of the ledger. */
  ghost predicate Stamped(s: State, now: u64) {
    && (forall t :: t in s.volumes ==> s.volumes[t].bucket.lastTs <= now)
    && (forall a :: a in s.rails ==> s.rails[a].bucket.lastTs <= now)
    && (forall a :: a in s.policies ==> StampedBy(s.policies[a].buckets, now))
  }

  lemma {:induction false} LockAllStamps(
    self: Address, targets: seq<Address>, p: AgentPolicy, v: Volumes, cs: seq<Context>, now: u64)
    requires LockAll(self, targets, p, v, cs, now).Some? && StampedBy(p.buckets, now)
    requires forall t :: t in v ==> v[t].bucket.lastTs <= now
    ensures var r := LockAll(self, targets, p, v, cs, now).value;
            StampedBy(r.0.buckets, now) && forall t :: t in r.1 ==> r.1[t].bucket.lastTs <= now
    decreases cs
  {
    if cs != [] {
      SpendStamps(p, cs[0].args.reach.value.adToken, LockAmount(cs[0].args).value, now);
      var r := LockOnce(self, targets, p, v, cs[0], now).value;
      LockAllStamps(self, targets, r.0, r.1, cs[1..], now);
    }
  }

  /** The three calls that write volume rows, policies and rails; every other leaves them alone. */
  lemma RowsAfter(s: State, act: Action, now: u64)
    requires Accepted(s, act, now)
    ensures var n := Step(s, act, now);
            && n.volumes
               == (if act.DoSetAccountLimit? then VolumeSet(s.volumes, act.token, act.limit, now)
                   else if act.DoCheckAuth?
                   then LockAll(s.self, s.targets, s.policies[act.agent], s.volumes, act.contexts, now).value.1
                   else s.volumes)
            && (!act.DoSetPolicy? && !act.DoRevokeAgent? && !act.DoCheckAuth? ==> n.policies == s.policies)
            && (!act.DoSetGuardRail? && !act.DoDisarmClosedAd? && !act.DoCall? ==> n.rails == s.rails)
  {
    SpendingPermits(s, act, now);
    EffectOnVolumes(Without(s, Delayed(s, act)), act, now);
    EffectOnRest(Without(s, Delayed(s, act)), act, now);
  }

  lemma EffectOnVolumes(w: State, act: Action, now: u64)
    requires Permitted(w, act, now)
    ensures Effect(w, act, now).volumes
         == (if act.DoSetAccountLimit? then VolumeSet(w.volumes, act.token, act.limit, now)
             else if act.DoCheckAuth?
             then LockAll(w.self, w.targets, w.policies[act.agent], w.volumes, act.contexts, now).value.1
             else w.volumes)
  {
  }

  lemma EffectOnRest(w: State, act: Action, now: u64)
    requires Permitted(w, act, now)
    ensures !act.DoSetPolicy? && !act.DoRevokeAgent? && !act.DoCheckAuth? ==> Effect(w, act, now).policies == w.policies
    ensures !act.DoSetGuardRail? && !act.DoDisarmClosedAd? && !act.DoCall? ==> Effect(w, act, now).rails == w.rails
  {
  }

  lemma StepStamped(s: State, act: Action, now: u64)
    requires Stamped(s, now)
    ensures Stamped(Step(s, act, now), now)
  {
    if Accepted(s, act, now) {
      RowsAfter(s, act, now);
      if act.DoCheckAuth? {
        LockAllStamps(s.self, s.targets, s.policies[act.agent], s.volumes, act.contexts, now);
      }
      PoliciesStamped(s, act, now);
      RailsStamped(s, act, now);
    }
  }

  lemma PoliciesStamped(s: State, act: Action, now: u64)
    requires Stamped(s, now) && Accepted(s, act, now)
    ensures forall a :: a in Step(s, act, now).policies ==> StampedBy(Step(s, act, now).policies[a].buckets, now)
  {
    RowsAfter(s, act, now);
    SpendingPermits(s, act, now);
    if act.DoCheckAuth? {
      LockAllStamps(s.self, s.targets, s.policies[act.agent], s.volumes, act.contexts, now);
    } else if act.DoSetPolicy? {
      var p := NewPolicy(act);
      if act.agent in s.policies && IsTightening(s.policies[act.agent], p) {
        CarriedHoldsLess(s.policies[act.agent], p.adTokens, [], now, 0);
      }
    }
  }

  lemma RailsStamped(s: State, act: Action, now: u64)
    requires Stamped(s, now) && Accepted(s, act, now)
    ensures forall a :: a in Step(s, act, now).rails ==> Step(s, act, now).rails[a].bucket.lastTs <= now
  {
    RowsAfter(s, act, now);
    SpendingPermits(s, act, now);
  }

  lemma LaterStamped(s: State, now: u64, later: u64)
    requires Stamped(s, now) && now <= later
    ensures Stamped(s, later)
  {
  }

  /** On a guarded account, an owner's unannounced policy write gives the agent nothing it did not
      have: the policy stored afterwards accepts no timed sequence of batches the old one refused. */
  lemma InstantPolicyWriteRefines(s: State, act: Action, now: u64, batches: seq<Batch>)
    requires Stamped(s, now) && s.roster != []
    requires act.DoSetPolicy? && Accepted(s, act, now) && Delayed(s, act).None?
    requires Tightening.Timed(now, batches)
    ensures act.agent in s.policies && act.agent in Step(s, act, now).policies
    ensures AcceptsAll(s.self, Step(s, act, now).policies[act.agent], batches)
        ==> AcceptsAll(s.self, s.policies[act.agent], batches)
  {
    if AcceptsAll(s.self, Step(s, act, now).policies[act.agent], batches) {
      TighteningRefines(s.self, s.policies[act.agent], NewPolicy(act), now, batches);
    }
  }

  // ---- the volume every agent shares ----

  /** What the account may still lock of a token. */
  function Held(v: Volumes, token: Token, now: u64): nat {
    if token in v then Available(v[token].limit, v[token].bucket, now) else 0
  }

  function LockOut(c: Context, token: Token): nat {
    if c.ContractCall? && c.args.LockArgs? && c.args.reach.Some? && c.args.reach.value.adToken == token
       && LockAmount(c.args).Ok?
    then LockAmount(c.args).value else 0
  }

  function BatchOut(cs: seq<Context>, token: Token): nat {
    if cs == [] then 0 else LockOut(cs[0], token) + BatchOut(cs[1..], token)
  }

  /** A batch debits the account's row by exactly what it locks, and changes no limit. */
  lemma {:induction false} BatchDebitsExactly(
    self: Address, targets: seq<Address>, p: AgentPolicy, v: Volumes, cs: seq<Context>, now: u64, token: Token)
    requires LockAll(self, targets, p, v, cs, now).Some?
    ensures var after := LockAll(self, targets, p, v, cs, now).value.1;
            && after.Keys == v.Keys && (token in v ==> after[token].limit == v[token].limit)
            && Held(after, token, now) + BatchOut(cs, token) == Held(v, token, now)
    decreases cs
  {
    if cs != [] {
      var spent, amount := cs[0].args.reach.value.adToken, LockAmount(cs[0].args).value;
      SpendIsExact(v[spent].limit, v[spent].bucket, amount, now);
      var r := LockOnce(self, targets, p, v, cs[0], now).value;
      BatchDebitsExactly(self, targets, r.0, r.1, cs[1..], now, token);
    }
  }

  function MovedOut(s: State, act: Action, now: u64, token: Token): nat {
    if act.DoCheckAuth? && Accepted(s, act, now) then BatchOut(act.contexts, token) else 0
  }

  /** A token's first limit starts its row full. */
  function Granted(s: State, act: Action, now: u64, token: Token): nat {
    if act.DoSetAccountLimit? && act.token == token && token !in s.volumes && Accepted(s, act, now)
    then act.limit.capacity else 0
  }

  /** One call: what it locks comes out of what the account held; nothing but a token's first limit
      adds to it. Re-installing policies, adding agents, raising limits: none of it tops up. */
  lemma StepDrawsDown(s: State, act: Action, now: u64, token: Token)
    ensures Held(Step(s, act, now).volumes, token, now) + MovedOut(s, act, now, token)
         <= Held(s.volumes, token, now) + Granted(s, act, now, token)
    ensures token in s.volumes ==> token in Step(s, act, now).volumes
    ensures token in s.volumes && !(act.DoSetAccountLimit? && act.token == token) ==>
              Step(s, act, now).volumes[token].limit == s.volumes[token].limit
  {
    if Accepted(s, act, now) {
      RowsAfter(s, act, now);
      match act {
        case DoCheckAuth(a, cs) =>
          BatchDebitsExactly(s.self, s.targets, s.policies[a], s.volumes, cs, now, token);
        case DoSetAccountLimit(t, l) =>
          if t in s.volumes {
            SettledHolds(s.volumes[t].limit, s.volumes[t].bucket, l, now);
          }
        case _ =>
      }
    }
  }

  /** What a bucket gains at a rate over some time. */
  function Accrual(refill: nat, from: u64, to: u64): nat
    requires from <= to
  {
    MulMonotone(0, refill, to - from);
    refill * (to - from)
  }

  lemma AccrualAdds(refill: nat, from: u64, mid: u64, to: u64)
    requires from <= mid <= to
    ensures Accrual(refill, from, mid) + Accrual(refill, mid, to) == Accrual(refill, from, to)
  {
    assert refill * (mid - from) + refill * (to - mid) == refill * (to - from);
  }

  function Refill(v: Volumes, token: Token): nat {
    if token in v then v[token].limit.refill else 0
  }

  lemma HeldLater(v: Volumes, token: Token, mid: u64, now: u64)
    requires mid <= now
    requires token in v ==> v[token].bucket.lastTs <= mid
    ensures Held(v, token, now) <= Held(v, token, mid) + Accrual(Refill(v, token), mid, now)
  {
    if token in v {
      AccrualBound(v[token].limit, v[token].bucket, mid, now);
    }
  }

  // ---- runs ----

  type Call = TimelockTheorems.Call

  function Locked(s: State, calls: seq<Call>, token: Token): nat
    decreases calls
  {
    if calls == [] then 0
    else MovedOut(s, calls[0].act, calls[0].now, token)
         + Locked(Step(s, calls[0].act, calls[0].now), calls[1..], token)
  }

  /** The refill accrued at the rates in force, and the first limit's capacity. */
  function Allowed(s: State, from: u64, calls: seq<Call>, token: Token): nat
    requires TimelockTheorems.Timed(from, calls)
    decreases calls
  {
    if calls == [] then 0
    else
      var c := calls[0];
      Accrual(Refill(s.volumes, token), from, c.now) + Granted(s, c.act, c.now, token)
      + Allowed(Step(s, c.act, c.now), c.now, calls[1..], token)
  }

  /** The shared bound: over any run, with any number of agents, policy re-installs, limit changes
      and multi-lock batches, everything locked of a token plus what the account may still lock is at
      most what it could lock at the start plus what accrued. */
  lemma {:induction false} SharedVolumeBound(s: State, from: u64, calls: seq<Call>, token: Token)
    requires Stamped(s, from) && TimelockTheorems.Timed(from, calls)
    ensures Locked(s, calls, token)
            + Held(TimelockTheorems.Run(s, calls).volumes, token, TimelockTheorems.EndTime(from, calls))
         <= Held(s.volumes, token, from) + Allowed(s, from, calls, token)
    decreases calls
  {
    if calls != [] {
      var c := calls[0];
      HeldLater(s.volumes, token, from, c.now);
      LaterStamped(s, from, c.now);
      StepDrawsDown(s, c.act, c.now, token);
      StepStamped(s, c.act, c.now);
      SharedVolumeBound(Step(s, c.act, c.now), c.now, calls[1..], token);
    }
  }

  /** A fixed limit lets a run lock no more than its capacity and the refill of the time it took. */
  lemma {:induction false} FixedLimitAllows(s: State, from: u64, calls: seq<Call>, token: Token)
    requires TimelockTheorems.Timed(from, calls) && token in s.volumes
    requires forall i :: 0 <= i < |calls| ==> !(calls[i].act.DoSetAccountLimit? && calls[i].act.token == token)
    ensures from <= TimelockTheorems.EndTime(from, calls)
    ensures Allowed(s, from, calls, token)
         == Accrual(s.volumes[token].limit.refill, from, TimelockTheorems.EndTime(from, calls))
    decreases calls
  {
    if calls != [] {
      var c := calls[0];
      StepDrawsDown(s, c.act, c.now, token);
      FixedLimitAllows(Step(s, c.act, c.now), c.now, calls[1..], token);
      AccrualAdds(s.volumes[token].limit.refill, from, c.now, TimelockTheorems.EndTime(from, calls));
    }
  }

  lemma BurstBound(s: State, from: u64, calls: seq<Call>, token: Token)
    requires Stamped(s, from) && TimelockTheorems.Timed(from, calls) && token in s.volumes
    requires forall i :: 0 <= i < |calls| ==> !(calls[i].act.DoSetAccountLimit? && calls[i].act.token == token)
    ensures from <= TimelockTheorems.EndTime(from, calls)
    ensures Locked(s, calls, token)
         <= s.volumes[token].limit.capacity
            + Accrual(s.volumes[token].limit.refill, from, TimelockTheorems.EndTime(from, calls))
  {
    SharedVolumeBound(s, from, calls, token);
    FixedLimitAllows(s, from, calls, token);
    AvailableIsMin(s.volumes[token].limit, s.volumes[token].bucket, from);
  }

  // ---- what leaves a guarded ad unannounced ----

  function RailHeld(s: State, ad: AdId, now: u64): nat {
    if ad in s.rails then Available(s.rails[ad].rate, s.rails[ad].bucket, now) else 0
  }

  function RailRefill(s: State, ad: AdId): nat {
    if ad in s.rails then s.rails[ad].rate.refill else 0
  }

  /** An owner's withdrawal or lock on the ad that was not announced. */
  function Unannounced(s: State, act: Action, now: u64, ad: AdId): nat {
    if act.DoCall? && Accepted(s, act, now) && Extractive(act.fn) && Delayed(s, act).None?
       && DecodeAdCall(act.fn, act.args).Ok? && DecodeAdCall(act.fn, act.args).value.0 == ad
    then DecodeAdCall(act.fn, act.args).value.1 else 0
  }

  /** One call on a guarded ad: what it moves unannounced is within the threshold and comes out of
      the ad's bucket; re-arming settles and clamps, so it never tops up. */
  lemma RailStepDrawsDown(s: State, act: Action, now: u64, ad: AdId)
    requires RosterInv(s.rails, s.roster) && ad in s.rails && ad in Step(s, act, now).rails
    ensures RailHeld(Step(s, act, now), ad, now) + Unannounced(s, act, now, ad) <= RailHeld(s, ad, now)
    ensures Unannounced(s, act, now, ad) <= s.rails[ad].threshold
  {
    if Accepted(s, act, now) {
      match act {
        case DoSetGuardRail(a, rail) => RearmNeverTopsUp(s, a, rail, now, ad);
        case DoCall(_, fn, args, _) => CallDrawsDown(s, act, now, ad);
        case _ => OtherRail(s, act, now, ad);
      }
    }
  }

  lemma OtherRail(s: State, act: Action, now: u64, ad: AdId)
    requires Accepted(s, act, now) && !act.DoSetGuardRail? && !act.DoCall?
    requires ad in s.rails && ad in Step(s, act, now).rails
    ensures RailHeld(Step(s, act, now), ad, now) == RailHeld(s, ad, now) && Unannounced(s, act, now, ad) == 0
  {
    RowsAfter(s, act, now);
    SpendingPermits(s, act, now);
  }

  lemma RearmNeverTopsUp(s: State, a: AdId, rail: Option<GuardRail>, now: u64, ad: AdId)
    requires Accepted(s, DoSetGuardRail(a, rail), now) && ad in s.rails
    requires ad in Step(s, DoSetGuardRail(a, rail), now).rails
    ensures RailHeld(Step(s, DoSetGuardRail(a, rail), now), ad, now) <= RailHeld(s, ad, now)
    ensures Unannounced(s, DoSetGuardRail(a, rail), now, ad) == 0
  {
    SpendingPermits(s, DoSetGuardRail(a, rail), now);
    if rail.Some? {
      SettledHolds(s.rails[ad].rate, s.rails[ad].bucket, rail.value.rate, now);
    }
  }

  lemma CallDrawsDown(s: State, act: Action, now: u64, ad: AdId)
    requires RosterInv(s.rails, s.roster) && ad in s.rails && act.DoCall? && Accepted(s, act, now)
    ensures RailHeld(Step(s, act, now), ad, now) + Unannounced(s, act, now, ad) <= RailHeld(s, ad, now)
    ensures Unannounced(s, act, now, ad) <= s.rails[ad].threshold
  {
    var w := Without(s, Delayed(s, act));
    SpendingPermits(s, act, now);
    assert Step(s, act, now) == Called(w, act.fn, act.args, now);
    if Extractive(act.fn) {
      ThresholdSpend(w, act.fn, act.args, now, ad);
    }
  }

  /** The call is within the threshold and the bucket covers it. */
  predicate Draws(s: State, fn: Fn, ad: AdId, amount: nat, now: u64)
    requires ad in s.rails
  {
    Extractive(fn) && !OverThreshold(s.rails[ad], fn, amount)
    && TrySpend(s.rails[ad].rate, s.rails[ad].bucket, amount, now).Some?
  }

  lemma ThresholdSpend(s: State, fn: Fn, args: Args, now: u64, ad: AdId)
    requires RosterInv(s.rails, s.roster) && ad in s.rails && DecodeAdCall(fn, args).Ok?
    ensures var d := DecodeAdCall(fn, args).value;
            RailHeld(Called(s, fn, args, now), ad, now)
            == RailHeld(s, ad, now) - (if d.0 == ad && Draws(s, fn, ad, d.1, now) then d.1 else 0)
  {
    var (named, amount) := DecodeAdCall(fn, args).value;
    if named in s.rails && TrySpend(s.rails[named].rate, s.rails[named].bucket, amount, now).Some? {
      SpendIsExact(s.rails[named].rate, s.rails[named].bucket, amount, now);
    }
  }

  function Outflow(s: State, calls: seq<Call>, ad: AdId): nat
    decreases calls
  {
    if calls == [] then 0
    else Unannounced(s, calls[0].act, calls[0].now, ad)
         + Outflow(Step(s, calls[0].act, calls[0].now), calls[1..], ad)
  }

  function RailAccrued(s: State, from: u64, calls: seq<Call>, ad: AdId): nat
    requires TimelockTheorems.Timed(from, calls)
    decreases calls
  {
    if calls == [] then 0
    else
      var c := calls[0];
      Accrual(RailRefill(s, ad), from, c.now) + RailAccrued(Step(s, c.act, c.now), c.now, calls[1..], ad)
  }

  /** The ad stays guarded through the run. */
  predicate StaysGuarded(s: State, calls: seq<Call>, ad: AdId)
    decreases calls
  {
    ad in s.rails && (calls == [] || StaysGuarded(Step(s, calls[0].act, calls[0].now), calls[1..], ad))
  }

  /** Between disarms, whatever is re-armed and however rates change, the total moved out of an ad
      without an announcement, plus what its bucket still holds, is at most what the bucket held at
      the start plus the refill accrued. */
  lemma {:induction false} UnannouncedOutflowBound(s: State, from: u64, calls: seq<Call>, ad: AdId)
    requires Inv(s, from) && Stamped(s, from) && TimelockTheorems.Timed(from, calls) && StaysGuarded(s, calls, ad)
    ensures Outflow(s, calls, ad)
            + RailHeld(TimelockTheorems.Run(s, calls), ad, TimelockTheorems.EndTime(from, calls))
         <= RailHeld(s, ad, from) + RailAccrued(s, from, calls, ad)
    decreases calls
  {
    if calls != [] {
      var c := calls[0];
      AccrualBound(s.rails[ad].rate, s.rails[ad].bucket, from, c.now);
      LaterStamped(s, from, c.now);
      ClockInv(s, from, c.now);
      RailStepDrawsDown(s, c.act, c.now, ad);
      StepStamped(s, c.act, c.now);
      StepInv(s, c.act, c.now);
      UnannouncedOutflowBound(Step(s, c.act, c.now), c.now, calls[1..], ad);
    }
  }
}
