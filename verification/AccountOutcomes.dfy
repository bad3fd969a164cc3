/** What the agent account's calls leave, said of its rows: what an agent may lock and how much of it,
    when it may no longer, what a stored policy, limit, rail or announcement is. */
module AccountOutcomes {
  import opened Numbers
  import opened Wrappers
  import opened RateLimit
  import opened Scaling
  import opened Account
  import opened Policies
  import opened Tightening
  import opened Timelock
  import opened TimelockInvariants
  import TT = TimelockTheorems
  import VB = VolumeBounds
  import GC = GuardedCalls

  // ---- what an accepted batch asks for ----

  /** One lock within a policy: on a pinned escrow, of an ad of this account and in the policy's scope, for
      the policy's signer and tokens, of a positive amount up to its token's cap. */
  predicate WithinPolicy(self: Address, targets: seq<Address>, p: AgentPolicy, c: Context) {
    && c.ContractCall? && c.target in targets && c.fn == p.allowedAction
    && c.args.LockArgs? && c.args.reach.Some?
    && c.args.reach.value.adCreator == self && c.args.reach.value.settlementSigner == p.settlementSigner
    && c.args.reach.value.orderToken in p.orderTokens
    && (p.adScope.Some? ==> c.args.ad in p.adScope.value)
    && (exists l :: l in p.adTokens && l.token == c.args.reach.value.adToken && WithinCap(c.args, l.maxPerOrder))
  }

  predicate WithinCap(args: Args, cap: nat)
    requires args.LockArgs?
  {
    var v := Scale(args.amount, args.orderDecimals, args.adDecimals);
    v.Ok? && 0 < v.value <= cap
  }

  /** What a batch changes of a policy: its buckets alone. */
  predicate SameTerms(p: AgentPolicy, q: AgentPolicy) {
    q == p.(buckets := q.buckets)
  }

  lemma {:induction false} BatchIsWithinPolicy(
    self: Address, targets: seq<Address>, p: AgentPolicy, v: Volumes, cs: seq<Context>, now: u64, i: nat)
    requires LockAll(self, targets, p, v, cs, now).Some?
    ensures SameTerms(p, LockAll(self, targets, p, v, cs, now).value.0)
    ensures i < |cs| ==> WithinPolicy(self, targets, p, cs[i]) && cs[i].args.reach.value.adToken in v
    decreases cs
  {
    if cs != [] {
      var r := LockOnce(self, targets, p, v, cs[0], now).value;
      if 0 < i < |cs| {
        BatchIsWithinPolicy(self, targets, r.0, r.1, cs[1..], now, i - 1);
        assert cs[1..][i - 1] == cs[i];
      } else {
        BatchIsWithinPolicy(self, targets, r.0, r.1, cs[1..], now, 0);
      }
    }
  }

  /** An authorization is a live agent's, of at least one call, and every call it covers is a lock within
      its policy, of a token the account has a volume limit for. */
  lemma AuthorizedIsWithinPolicy(s: State, a: AgentId, cs: seq<Context>, now: u64, i: nat)
    requires Accepted(s, DoCheckAuth(a, cs), now)
    ensures a in s.policies && cs != []
    ensures !s.policies[a].revoked && (s.policies[a].validUntil != 0 ==> now < s.policies[a].validUntil)
    ensures i < |cs| ==> WithinPolicy(s.self, s.targets, s.policies[a], cs[i]) && cs[i].args.reach.value.adToken in s.volumes
  {
    BatchIsWithinPolicy(s.self, s.targets, s.policies[a], s.volumes, cs, now, i);
  }

  // ---- when an agent may no longer ----

  predicate Uses(act: Action, a: AgentId) {
    act.DoCheckAuth? && act.agent == a
  }

  predicate Installs(act: Action, a: AgentId) {
    act.DoSetPolicy? && act.agent == a
  }

  /** What any call leaves of an agent's policy: only an installation changes its terms, only a batch of its
      own its buckets, and only a revocation its standing. */
  lemma PolicyMoves(s: State, act: Action, now: u64, a: AgentId)
    requires a in s.policies
    ensures a in Step(s, act, now).policies
    ensures var p, n := s.policies[a], Step(s, act, now).policies[a];
            || n == p
            || (act == DoRevokeAgent(a) && n == p.(revoked := true))
            || (Uses(act, a) && Accepted(s, act, now) && SameTerms(p, n))
            || (Installs(act, a) && Accepted(s, act, now) && !p.revoked)
  {
    if Accepted(s, act, now) {
      SpendingPermits(s, act, now);
      if act.DoCheckAuth? {
        BatchIsWithinPolicy(s.self, s.targets, s.policies[act.agent], s.volumes, act.contexts, now, 0);
      }
    }
  }

  /** A revocation is of an agent there is, and revokes it. */
  lemma RevocationRevokes(s: State, a: AgentId, now: u64)
    ensures Accepted(s, DoRevokeAgent(a), now) <==> a in s.policies
    ensures a in s.policies ==>
      Step(s, DoRevokeAgent(a), now) == s.(policies := s.policies[a := s.policies[a].(revoked := true)])
  {
  }

  /** Revoked for good: over any run, a revoked agent stays revoked, is never authorized, and is given no
      new policy. */
  lemma {:induction false} RevokedForGood(s: State, calls: seq<TT.Call>, a: AgentId, i: nat)
    requires a in s.policies && s.policies[a].revoked && i < |calls|
    ensures var before := TT.Run(s, calls[..i]);
            && a in before.policies && before.policies[a].revoked
            && (Uses(calls[i].act, a) || Installs(calls[i].act, a) ==> !Accepted(before, calls[i].act, calls[i].now))
    decreases calls
  {
    if i == 0 {
      assert calls[..0] == [];
    } else {
      PolicyMoves(s, calls[0].act, calls[0].now, a);
      assert calls[..i][1..] == calls[1..][..i - 1];
      RevokedForGood(Step(s, calls[0].act, calls[0].now), calls[1..], a, i - 1);
    }
  }

  /** Expired until installed anew: from the end of its time on, an agent is never authorized, over any run
      in which no policy of it is accepted. */
  lemma {:induction false} ExpiredUntilInstalled(s: State, from: u64, calls: seq<TT.Call>, a: AgentId, i: nat)
    requires a in s.policies && 0 < s.policies[a].validUntil <= from && TT.Timed(from, calls) && i < |calls|
    requires forall j :: 0 <= j < i ==> !Installs(calls[j].act, a)
    ensures var before := TT.Run(s, calls[..i]);
            && a in before.policies && before.policies[a].validUntil == s.policies[a].validUntil
            && (Uses(calls[i].act, a) ==> !Accepted(before, calls[i].act, calls[i].now))
    decreases calls
  {
    if i == 0 {
      assert calls[..0] == [];
    } else {
      PolicyMoves(s, calls[0].act, calls[0].now, a);
      assert calls[..i][1..] == calls[1..][..i - 1];
      ExpiredUntilInstalled(Step(s, calls[0].act, calls[0].now), calls[0].now, calls[1..], a, i - 1);
    }
  }

  // ---- how much an agent locks ----

  /** What an agent may still lock of a token under its own rate. */
  function AgentHeld(p: AgentPolicy, token: Token, now: u64): nat {
    if LimitFor(p.adTokens, token).Some? then AgentAvailable(p, token, now) else 0
  }

  function AgentRefill(p: AgentPolicy, token: Token): nat {
    if LimitFor(p.adTokens, token).Some? then LimitFor(p.adTokens, token).value.rate.refill else 0
  }

  /** A batch draws the agent's own bucket down by exactly what it locks. */
  lemma {:induction false} BatchDrawsAgent(
    self: Address, targets: seq<Address>, p: AgentPolicy, v: Volumes, cs: seq<Context>, now: u64, token: Token)
    requires LockAll(self, targets, p, v, cs, now).Some?
    ensures AgentHeld(LockAll(self, targets, p, v, cs, now).value.0, token, now) + VB.BatchOut(cs, token)
         == AgentHeld(p, token, now)
    decreases cs
  {
    if cs != [] {
      var spent, amount := cs[0].args.reach.value.adToken, LockAmount(cs[0].args).value;
      if LimitFor(p.adTokens, token).Some? {
        SpendMoves(p, spent, amount, now, token);
      }
      var r := LockOnce(self, targets, p, v, cs[0], now).value;
      BatchDrawsAgent(self, targets, r.0, r.1, cs[1..], now, token);
    }
  }

  lemma HeldAges(p: AgentPolicy, token: Token, mid: u64, now: u64)
    requires mid <= now && StampedBy(p.buckets, mid)
    ensures AgentHeld(p, token, now) <= AgentHeld(p, token, mid) + VB.Accrual(AgentRefill(p, token), mid, now)
  {
    if LimitFor(p.adTokens, token).Some? {
      AgentBucketAges(p, token, mid, now);
      AccrualBound(LimitFor(p.adTokens, token).value.rate, AgentBucket(p, token, mid), mid, now);
    }
  }

  /** What one agent locks over a run. */
  function LockedBy(s: State, calls: seq<TT.Call>, a: AgentId, token: Token): nat
    decreases calls
  {
    if calls == [] then 0
    else
      var c := calls[0];
      (if Uses(c.act, a) && Accepted(s, c.act, c.now) then VB.BatchOut(c.act.contexts, token) else 0)
      + LockedBy(Step(s, c.act, c.now), calls[1..], a, token)
  }

  lemma AgentStep(s: State, act: Action, now: u64, a: AgentId, token: Token)
    requires a in s.policies && !Installs(act, a)
    ensures a in Step(s, act, now).policies
    ensures var p, n := s.policies[a], Step(s, act, now).policies[a];
            && n.adTokens == p.adTokens
            && AgentHeld(n, token, now)
               + (if Uses(act, a) && Accepted(s, act, now) then VB.BatchOut(act.contexts, token) else 0)
               == AgentHeld(p, token, now)
  {
    PolicyMoves(s, act, now, a);
    if Uses(act, a) && Accepted(s, act, now) {
      SpendingPermits(s, act, now);
      BatchDrawsAgent(s.self, s.targets, s.policies[a], s.volumes, act.contexts, now, token);
    }
  }

  /** The agent's own bound: under one policy, over any run of anybody's calls, what an agent locks of a
      token and what it may still lock are at most what it might at the start and the refill since. */
  lemma {:induction false} AgentVolumeBound(s: State, from: u64, calls: seq<TT.Call>, a: AgentId, token: Token)
    requires VB.Stamped(s, from) && TT.Timed(from, calls) && a in s.policies
    requires forall i :: 0 <= i < |calls| ==> !Installs(calls[i].act, a)
    ensures from <= TT.EndTime(from, calls) && a in TT.Run(s, calls).policies
    ensures LockedBy(s, calls, a, token) + AgentHeld(TT.Run(s, calls).policies[a], token, TT.EndTime(from, calls))
         <= AgentHeld(s.policies[a], token, from)
            + VB.Accrual(AgentRefill(s.policies[a], token), from, TT.EndTime(from, calls))
    decreases calls
  {
    if calls != [] {
      var c := calls[0];
      HeldAges(s.policies[a], token, from, c.now);
      VB.LaterStamped(s, from, c.now);
      AgentStep(s, c.act, c.now, a, token);
      VB.StepStamped(s, c.act, c.now);
      AgentVolumeBound(Step(s, c.act, c.now), c.now, calls[1..], a, token);
      VB.AccrualAdds(AgentRefill(s.policies[a], token), from, c.now, TT.EndTime(from, calls));
    }
  }

  // ---- what is stored ----

  /** A stored policy: it locks orders and nothing else, for a real signer, of one or more distinct real
      tokens, each with a refilling bucket that covers its cap and a volume limit of the account's own. */
  ghost predicate PolicySound(v: Volumes, p: AgentPolicy) {
    && p.allowedAction == Fn.LockForOrder && p.settlementSigner != 0
    && p.adTokens != [] && p.orderTokens != []
    && (forall i, j :: 0 <= i < j < |p.adTokens| ==> p.adTokens[i].token != p.adTokens[j].token)
    && (forall l :: l in p.adTokens ==>
          l.token != 0 && l.token in v && 0 < l.maxPerOrder <= l.rate.capacity && 0 < l.rate.refill)
    && (forall t :: t in p.orderTokens ==> t != 0)
    && (p.adScope.Some? ==> p.adScope.value != [])
  }

  ghost predicate PoliciesSound(s: State) {
    forall a :: a in s.policies ==> PolicySound(s.volumes, s.policies[a])
  }

  lemma InstalledIsSound(s: State, act: Action, now: u64)
    requires act.DoSetPolicy? && Accepted(s, act, now)
    ensures PolicySound(s.volumes, NewPolicy(act))
  {
    var p := NewPolicy(act);
    forall i, j | 0 <= i < j < |p.adTokens| ensures p.adTokens[i].token != p.adTokens[j].token {
      assert Tokens(p.adTokens)[i] != Tokens(p.adTokens)[j];
    }
  }

  lemma InstalledPolicy(s: State, act: Action, now: u64)
    requires act.DoSetPolicy? && Accepted(s, act, now)
    ensures act.agent in Step(s, act, now).policies
    ensures var n := Step(s, act, now);
            && SameTerms(NewPolicy(act), n.policies[act.agent]) && n.volumes == s.volumes && act.agent != 0
            && (forall a :: a in n.policies && a != act.agent ==> a in s.policies && n.policies[a] == s.policies[a])
  {
    SpendingPermits(s, act, now);
  }

  lemma StepSound(s: State, act: Action, now: u64)
    requires PoliciesSound(s)
    ensures PoliciesSound(Step(s, act, now))
  {
    var n := Step(s, act, now);
    if Accepted(s, act, now) {
      VB.RowsAfter(s, act, now);
      forall t | t in s.volumes ensures t in n.volumes {
        VB.StepDrawsDown(s, act, now, t);
      }
      if act.DoSetPolicy? {
        InstalledIsSound(s, act, now);
        InstalledPolicy(s, act, now);
      }
      forall a | a in n.policies ensures PolicySound(n.volumes, n.policies[a]) {
        if !Installs(act, a) {
          OnlyInstalls(s, act, now, a);
          PolicyMoves(s, act, now, a);
        }
      }
    }
  }

  lemma OnlyInstalls(s: State, act: Action, now: u64, a: AgentId)
    requires a in Step(s, act, now).policies && !Installs(act, a)
    ensures a in s.policies
  {
    if Accepted(s, act, now) {
      SpendingPermits(s, act, now);
    }
  }

  /** Every policy a new account ever stores is sound. */
  lemma {:induction false} StoredPoliciesAreSound(s: State, calls: seq<TT.Call>)
    requires PoliciesSound(s)
    ensures PoliciesSound(TT.Run(s, calls))
    decreases calls
  {
    if calls != [] {
      StepSound(s, calls[0].act, calls[0].now);
      StoredPoliciesAreSound(Step(s, calls[0].act, calls[0].now), calls[1..]);
    }
  }

  // ---- rails ----

  /** A rail set is a rail of these settings, within bounds, over an ad on the roster; its bucket is what it
      held under the old settings, or full if the ad had none. No other ad's rail moves. */
  lemma RailIsSet(s: State, ad: AdId, g: GuardRail, now: u64)
    requires Accepted(s, DoSetGuardRail(ad, Some(g)), now)
    ensures 0 < g.delay <= 2_592_000 && 3_600 <= g.window && 0 < g.rate.capacity && 0 < g.rate.refill
    ensures var n := Step(s, DoSetGuardRail(ad, Some(g)), now);
            && ad in n.rails && ad in n.roster && n.rails == s.rails[ad := n.rails[ad]]
            && n.rails[ad] == g.(bucket := n.rails[ad].bucket)
            && Available(g.rate, n.rails[ad].bucket, now)
               == (if ad in s.rails then Min(Available(s.rails[ad].rate, s.rails[ad].bucket, now), g.rate.capacity)
                   else g.rate.capacity)
  {
    SpendingPermits(s, DoSetGuardRail(ad, Some(g)), now);
    if ad in s.rails {
      SettledHolds(s.rails[ad].rate, s.rails[ad].bucket, g.rate, now);
    } else {
      AvailableIsMin(g.rate, Full(g.rate, now), now);
      assert g.rate.refill * SatSub(now, now) == 0;
    }
  }

  predicate NoLaxer(was: GuardRail, g: GuardRail) {
    && g.threshold <= was.threshold && g.delay >= was.delay && g.window <= was.window
    && g.rate.capacity <= was.rate.capacity && g.rate.refill <= was.rate.refill
  }

  /** A guarded ad's brakes are only ever loosened by an announced rail change, or dropped with one, or once
      the ad is closed on a pinned escrow and the account's own timelock is none the weaker. */
  lemma BrakesHold(s: State, act: Action, now: u64, ad: AdId)
    requires Inv(s, now) && ad in s.rails
    ensures var n := Step(s, act, now);
            || (ad in n.rails && NoLaxer(s.rails[ad], n.rails[ad]))
            || (act.DoSetGuardRail? && act.ad == ad && GC.RelaxesRail(s, ad, act.rail)
                && GC.Ripe(s, GC.MustAnnounce(act).0, GC.MustAnnounce(act).1, now))
            || (act.DoDisarmClosedAd? && act.ad == ad && act.closed && act.escrow in s.targets && n.roster != []
                && DelayOf(s) <= DelayOf(n) && WindowOf(n) <= WindowOf(s))
  {
    if Accepted(s, act, now) {
      match act {
        case DoSetGuardRail(a, rail) =>
          if a == ad && GC.RelaxesRail(s, ad, rail) {
            GC.GuardedCallsAreAnnounced(s, act, now);
          } else {
            RailKept(s, act, now, ad);
          }
        case DoDisarmClosedAd(_, a, _) =>
          if a == ad {
            TT.NoInstantWeakening(s, act, now);
          } else {
            RailKept(s, act, now, ad);
          }
        case _ => RailKept(s, act, now, ad);
      }
    }
  }

  lemma RailKept(s: State, act: Action, now: u64, ad: AdId)
    requires ad in s.rails && Accepted(s, act, now)
    requires act.DoSetGuardRail? && act.ad == ad ==> !GC.RelaxesRail(s, ad, act.rail)
    requires !(act.DoDisarmClosedAd? && act.ad == ad)
    ensures ad in Step(s, act, now).rails && NoLaxer(s.rails[ad], Step(s, act, now).rails[ad])
  {
    SpendingPermits(s, act, now);
  }

  // ---- announcements ----

  /** An announcement commits to exactly the call's own arguments, a rail's live bucket left out; it opens
      the scope's delay from now and closes the scope's window after, and replaces only its own row. */
  lemma AnnouncementIsStored(s: State, scope: Scope, fn: Fn, args: Args, now: u64)
    requires Inv(s, now) && Accepted(s, DoSchedule(scope, fn, args), now)
    ensures scope.Ad? ==> scope.ad in s.rails
    ensures scope.Whole? ==> s.roster != []
    ensures scope.Ad? ==> fn in {WithdrawFromAd, CloseAd, Fn.LockForOrder, Fn.SetGuardRail, Fn.SetSettlementSigner}
    ensures scope.Whole? ==> fn in {Fn.Upgrade, Fn.SetPolicy, Fn.SetAccountLimit, Fn.SetTargets, Fn.Sweep, ResumeSettlement}
    ensures var n, row := Step(s, DoSchedule(scope, fn, args), now), Row(scope, fn);
            var delay := if scope.Ad? then s.rails[scope.ad].delay else DelayOf(s);
            var window := if scope.Ad? then s.rails[scope.ad].window else WindowOf(s);
            && n.schedules == s.schedules[row := n.schedules[row]]
            && n.schedules[row].readyAt == now + delay && n.schedules[row].expiresAt == now + delay + window
            && n.announced == s.announced[row := now]
            && n.schedules[row].args
               == (if args.RailArgs? then args.(rail := match args.rail case None => None
                                                        case Some(g) => Some(g.(bucket := Bucket(0, 0))))
                   else args)
  {
    ScheduleStep(s, scope, fn, args, now);
    if scope.Whole? {
      TimelockTotal(s, now);
    }
  }

  /** A cancelled announcement is gone. */
  lemma CancelStandsDown(s: State, row: Row, now: u64)
    ensures Accepted(s, DoCancel(row), now) <==> row in s.schedules
    ensures Step(s, DoCancel(row), now) == s.(schedules := s.schedules - {row})
  {
    assert row !in s.schedules ==> s.schedules - {row} == s.schedules;
  }

  // ---- targets and limits ----

  /** What is pinned and what is limited, as it was called. */
  lemma SettingsAreStored(s: State, act: Action, now: u64)
    requires (act.DoSetTargets? || act.DoSetAccountLimit?) && Accepted(s, act, now)
    ensures act.DoSetTargets? ==>
      Step(s, act, now).targets == act.targets && 1 <= |act.targets| <= 2 && s.self !in act.targets
    ensures act.DoSetAccountLimit? ==>
      && act.token in Step(s, act, now).volumes && Step(s, act, now).volumes[act.token].limit == act.limit
      && 0 < act.limit.capacity && 0 < act.limit.refill
      && (forall t :: t in s.volumes && t != act.token ==>
            t in Step(s, act, now).volumes && Step(s, act, now).volumes[t] == s.volumes[t])
  {
    SpendingPermits(s, act, now);
  }
}
