/** Which calls on a guarded account must wait, said call by call, and what each must have announced:
    a reference the account's own rule is proved against. */
module GuardedCalls {
  import opened Numbers
  import opened Wrappers
  import opened RateLimit
  import opened Scaling
  import opened Account
  import opened Policies
  import opened Timelock

  // ---- the calls ----

  predicate AddsTarget(s: State, targets: seq<Address>) {
    exists t :: t in targets && t !in s.targets
  }

  /** A first limit, or one wider than the token's own. */
  predicate WidensLimit(s: State, token: Token, limit: Limit) {
    token in s.volumes ==>
      limit.capacity > s.volumes[token].limit.capacity || limit.refill > s.volumes[token].limit.refill
  }

  /** A first policy, or one not a tightening of the agent's own (`Tightening.TighteningRefines`). */
  predicate WidensPolicy(s: State, act: Action)
    requires act.DoSetPolicy?
  {
    act.agent in s.policies ==> !IsTightening(s.policies[act.agent], NewPolicy(act))
  }

  /** A rail dropped, or relaxed on any of its five axes. */
  predicate RelaxesRail(s: State, ad: AdId, rail: Option<GuardRail>) {
    ad in s.rails
    && (rail.Some? ==>
          var g, was := rail.value, s.rails[ad];
          || g.threshold > was.threshold || g.delay < was.delay || g.window > was.window
          || g.rate.capacity > was.rate.capacity || g.rate.refill > was.rate.refill)
  }

  /** On a guarded ad: closing it, handing over its settlement signer, and withdrawing or locking more
      than its threshold. */
  predicate OverRail(s: State, fn: Fn, args: Args) {
    match args
    case WithdrawArgs(ad, amount, _) => fn.WithdrawFromAd? && Guarded(s, ad) && amount > s.rails[ad].threshold
    case LockArgs(ad, amount, from, to, _, _) =>
      && fn.LockForOrder? && Guarded(s, ad)
      && Scale(amount, from, to).Ok? && Scale(amount, from, to).value > s.rails[ad].threshold
    case CloseArgs(ad, _) => fn.CloseAd? && Guarded(s, ad)
    case SignerArgs(ad, _) => fn.SetSettlementSigner? && Guarded(s, ad)
    case _ => false
  }

  predicate Guarded(s: State, ad: AdId) {
    ad in s.roster && ad in s.rails
  }

  /** The calls a guarded account makes only after announcing them. */
  predicate MustWait(s: State, act: Action) {
    match act
    case DoSweep(_, _, _, _) => true
    case DoUpgrade(_) => true
    case DoSetTargets(ts) => AddsTarget(s, ts)
    case DoSetAccountLimit(t, l) => WidensLimit(s, t, l)
    case DoSetPolicy(_, _, _, _, _, _, _) => WidensPolicy(s, act)
    case DoSetGuardRail(ad, rail) => RelaxesRail(s, ad, rail)
    case DoCall(_, fn, args, _) => fn.ResumeSettlement? || OverRail(s, fn, args)
    case _ => false
  }

  /** What each must have announced: where, and with which arguments. A rail is announced without its live
      bucket; everything else exactly as it is called. */
  function MustAnnounce(act: Action): (Row, Args)
    requires !act.DoDisarmClosedAd? && !act.DoSchedule? && !act.DoCancel? && !act.DoRevokeAgent? && !act.DoCheckAuth?
  {
    match act
    case DoSweep(asset, to, amount, _) => (Row(Whole, Fn.Sweep), SweepArgs(asset, to, amount))
    case DoUpgrade(h) => (Row(Whole, Fn.Upgrade), UpgradeArgs(h))
    case DoSetTargets(ts) => (Row(Whole, Fn.SetTargets), TargetsArgs(ts))
    case DoSetAccountLimit(t, l) => (Row(Whole, Fn.SetAccountLimit), LimitArgs(t, l))
    case DoSetPolicy(a, f, ad, ord, vu, sig, sc) => (Row(Whole, Fn.SetPolicy), PolicyArgs(a, f, ad, ord, vu, sig, sc))
    case DoSetGuardRail(ad, rail) =>
      (Row(Ad(ad), Fn.SetGuardRail),
       RailArgs(ad, match rail case None => None case Some(g) => Some(g.(bucket := Bucket(0, 0)))))
    case DoCall(_, fn, args, _) =>
      (Row(match args
           case WithdrawArgs(ad, _, _) => Ad(ad)
           case LockArgs(ad, _, _, _, _, _) => Ad(ad)
           case CloseArgs(ad, _) => Ad(ad)
           case SignerArgs(ad, _) => Ad(ad)
           case _ => Whole, fn), args)
  }

  /** Announced with exactly these arguments, its delay over and its window not. */
  predicate Ripe(s: State, row: Row, args: Args, now: u64) {
    row in s.schedules && s.schedules[row].args == args && s.schedules[row].readyAt <= now < s.schedules[row].expiresAt
  }

  // ---- the account's rule is that one ----

  /** An escrow call comes in its own shape: what a rail reads is what the escrow will do. */
  lemma ShapesMatch(s: State, fn: Fn, args: Args, now: u64)
    requires CallPermitted(s, fn, args, now)
    ensures fn.WithdrawFromAd? ==> args.WithdrawArgs?
    ensures fn.LockForOrder? ==> args.LockArgs? && Scale(args.amount, args.orderDecimals, args.adDecimals).Ok?
    ensures fn.CloseAd? ==> args.CloseArgs?
    ensures fn.SetSettlementSigner? ==> args.SignerArgs?
    ensures fn.ResumeSettlement? ==> args.ResumeArgs?
  {
  }

  lemma CallsWait(s: State, act: Action, now: u64)
    requires s.roster != [] && act.DoCall? && MustWait(s, act) && Permitted(s, act, now)
    ensures Delayed(s, act) == Some(MustAnnounce(act))
  {
    ShapesMatch(s, act.fn, act.args, now);
  }

  lemma SettersWait(s: State, act: Action)
    requires s.roster != [] && !act.DoCall? && MustWait(s, act)
    ensures Delayed(s, act) == Some(MustAnnounce(act))
  {
  }

  /** Every such call on a guarded account that is accepted was announced, with exactly its own arguments,
      for its own ad or for the account; its delay is over, its window is not, and it uses the
      announcement up. */
  lemma GuardedCallsAreAnnounced(s: State, act: Action, now: u64)
    requires s.roster != [] && MustWait(s, act) && Accepted(s, act, now)
    ensures var (row, args) := MustAnnounce(act);
            Ripe(s, row, args, now) && Delayed(s, act) == Some((row, args))
  {
    if act.DoCall? {
      CallsWait(s, act, now);
    } else {
      SettersWait(s, act);
    }
  }

  /** And it is the whole rule: no other call, and none on an unguarded account, needs an announcement. */
  lemma OthersNeedNone(s: State, act: Action, now: u64)
    requires (s.roster != [] ==> !MustWait(s, act)) && Permitted(s, act, now)
    requires forall ad :: ad in s.rails ==> ad in s.roster
    ensures Delayed(s, act).None?
  {
    if s.roster == [] {
      assert forall ad :: ad !in s.rails;
      return;
    }
    match act {
      case DoCall(_, fn, args, _) => ShapesMatch(s, fn, args, now);
      case DoSetTargets(ts) => assert Subset(ts, s.targets);
      case DoSetAccountLimit(t, l) => assert LimitTightening(s.volumes, t, l);
      case DoSetGuardRail(ad, rail) => assert !Loosens(s, ad, rail);
      case _ =>
    }
  }

  /** The escrow functions a guarded account calls at once, whatever the arguments: those that bring money
      in, stop settlement, follow a dispute or a clock, or pay what is already due. */
  predicate AtOnceOnAGuarded(fn: Fn) {
    fn in {CreateAd, FundAd, HaltSettlement, Dispute, RespondToDispute, FinalizeDispute, ClaimCancel, FinalizeCancel,
           CancelNeverLocked, RepinOrder, Unlock, PresentSettled, RecordSettled, Claim}
  }

  /** Only a pinned escrow is called, never a token's own functions; and on a guarded account nothing but
      the listed calls, resuming, and the four the rail judges. */
  lemma CallsAreListed(s: State, target: Address, fn: Fn, args: Args, done: bool, now: u64)
    requires Accepted(s, DoCall(target, fn, args, done), now)
    ensures target in s.targets && done
    ensures fn !in {Transfer, TransferFrom, Approve, Burn, BurnFrom}
    ensures s.roster != [] ==>
      AtOnceOnAGuarded(fn) || fn in {ResumeSettlement, WithdrawFromAd, CloseAd, LockForOrder, SetSettlementSigner}
  {
    InstantCallList(fn);
  }

  lemma InstantCallList(fn: Fn)
    ensures fn in INSTANT_CALLS <==> AtOnceOnAGuarded(fn)
  {
    if fn in INSTANT_CALLS {
      InstantHalf(fn);
    }
    if AtOnceOnAGuarded(fn) {
      assert INSTANT_CALLS[0] == CreateAd && INSTANT_CALLS[1] == FundAd && INSTANT_CALLS[2] == HaltSettlement
          && INSTANT_CALLS[3] == Dispute && INSTANT_CALLS[4] == RespondToDispute && INSTANT_CALLS[5] == FinalizeDispute
          && INSTANT_CALLS[6] == ClaimCancel;
      assert INSTANT_CALLS[7] == FinalizeCancel && INSTANT_CALLS[8] == CancelNeverLocked
          && INSTANT_CALLS[9] == RepinOrder && INSTANT_CALLS[10] == Unlock && INSTANT_CALLS[11] == PresentSettled
          && INSTANT_CALLS[12] == RecordSettled && INSTANT_CALLS[13] == Claim;
    }
  }

  lemma InstantHalf(fn: Fn)
    requires fn in INSTANT_CALLS
    ensures AtOnceOnAGuarded(fn)
  {
  }
}
