/** The agent account as a state machine: the owner's calls, announced or instant, and the agents'
    authorizations (`agent-account/src/lib.rs`, `policy.rs`, `escrow.rs`).

    Every call happens at a ledger time and either takes effect or changes nothing. The owner's
    signature, and what happens inside the escrow or token called, are inputs. */
module Timelock {
  import opened Numbers
  import opened Wrappers
  import opened RateLimit
  import opened Account
  import opened Policies

  /** The account's rows. `announced` is history, not a row: when each pending call was announced. */
  datatype State = State(
    self: Address,
    targets: seq<Address>,
    policies: map<AgentId, AgentPolicy>,
    volumes: Volumes,
    rails: Rails,
    roster: seq<AdId>,
    schedules: Schedules,
    announced: map<Row, u64>)

  // ---- guard rails and the timelock they impose ----

  predicate BoundsOk(g: GuardRail) {
    0 < g.delay <= MAX_GUARD_DELAY && MIN_GUARD_WINDOW <= g.window
  }

  /** `is_tightening`: `next` is at least as strict on every axis. */
  predicate RailTightening(cur: GuardRail, next: GuardRail) {
    && next.threshold <= cur.threshold && next.delay >= cur.delay && next.window <= cur.window
    && next.rate.capacity <= cur.rate.capacity && next.rate.refill <= cur.rate.refill
  }

  /** (longest delay, shortest window) over `ads`, starting from the given pair. */
  function TimelockFrom(rails: Rails, ads: seq<AdId>, skip: Option<AdId>, delay: u64, window: u64)
    : Result<(u64, u64), Error>
  {
    if ads == [] then Ok((delay, window))
    else if skip == Some(ads[0]) then TimelockFrom(rails, ads[1..], skip, delay, window)
    else if ads[0] !in rails then Err(GuardRailArchived)
    else TimelockFrom(rails, ads[1..], skip, Max(delay, rails[ads[0]].delay), Min(window, rails[ads[0]].window))
  }

  /** `timelock_without`: over the whole roster but one ad. */
  function TimelockWithout(rails: Rails, roster: seq<AdId>, skip: Option<AdId>): Result<(u64, u64), Error> {
    TimelockFrom(rails, roster, skip, 0, U64_MAX)
  }

  /** `account_timelock`: what an account-wide change must honour. */
  function AccountTimelock(rails: Rails, roster: seq<AdId>): Result<(u64, u64), Error> {
    if roster == [] then Err(NoGuardRail) else TimelockWithout(rails, roster, None)
  }

  /** As read while a rail is being written: no roster imposes nothing. */
  function TimelockOr(rails: Rails, roster: seq<AdId>): (u64, u64) {
    match AccountTimelock(rails, roster)
    case Ok(p) => p
    case Err(_) => (0, U64_MAX)
  }

  /** The ads of `roster` other than `ad`, in order. */
  function Others(roster: seq<AdId>, ad: AdId): seq<AdId> {
    if roster == [] then []
    else (if roster[0] == ad then [] else [roster[0]]) + Others(roster[1..], ad)
  }

  // ---- the table of announced calls ----

  function Fns(actions: seq<Fn>): set<Fn> {
    set f | f in actions
  }

  /** Every action a scope's rows can be announced for. */
  function FnsOf(scope: Scope): set<Fn> {
    Fns(ActionsFor(scope))
  }

  /** A pending row under a longer delay: it opens no earlier than `notBefore`, for as long as before. */
  function Later(x: Schedule, notBefore: u64): Schedule {
    if x.readyAt < notBefore
    then x.(expiresAt := SatAdd64(x.expiresAt, notBefore - x.readyAt), readyAt := notBefore)
    else x
  }

  /** A pending row under a shorter window: it closes within it, never later than before. */
  function Sooner(x: Schedule, window: u64): Schedule {
    x.(expiresAt := Min(x.expiresAt, SatAdd64(x.readyAt, window)))
  }

  function Restamped(t: Schedules, scope: Scope, fns: set<Fn>, notBefore: u64): Schedules {
    map r | r in t :: if r.scope == scope && r.fn in fns then Later(t[r], notBefore) else t[r]
  }

  function Clamped(t: Schedules, scope: Scope, fns: set<Fn>, window: u64): Schedules {
    map r | r in t :: if r.scope == scope && r.fn in fns then Sooner(t[r], window) else t[r]
  }

  function Cleared(t: Schedules, scope: Scope, fns: set<Fn>): Schedules {
    t - (set r | r in t && r.scope == scope && r.fn in fns)
  }

  /** `clear_all_schedules`: the ad's own rows and the account-wide ones. */
  function ClearedAll(t: Schedules, ad: AdId): Schedules {
    Cleared(Cleared(t, Ad(ad), FnsOf(Ad(ad))), Whole, FnsOf(Whole))
  }

  // ---- calls ----

  datatype Action =
    | DoSetTargets(targets: seq<Address>)
    | DoSetPolicy(agent: AgentId, action: Fn, adTokens: seq<TokenLimit>, orderTokens: seq<Token>,
                  validUntil: u64, signer: Identity, adScope: Option<seq<AdId>>)
    | DoSetAccountLimit(token: Token, limit: Limit)
    | DoSetGuardRail(ad: AdId, rail: Option<GuardRail>)
    | DoDisarmClosedAd(escrow: Address, ad: AdId, closed: bool)
    | DoSchedule(scope: Scope, fn: Fn, args: Args)
    | DoCancel(row: Row)
    | DoRevokeAgent(agent: AgentId)
    | DoUpgrade(hash: int)
    | DoCall(target: Address, fn: Fn, args: Args, done: bool)
    | DoSweep(asset: Address, to: Address, amount: u128, done: bool)
    | DoCheckAuth(agent: AgentId, contexts: seq<Context>)

  function NewPolicy(act: Action): AgentPolicy
    requires act.DoSetPolicy?
  {
    AgentPolicy(act.action, act.adTokens, act.orderTokens, act.validUntil, false, act.signer, act.adScope, [])
  }

  predicate LimitTightening(v: Volumes, token: Token, limit: Limit) {
    token in v && limit.capacity <= v[token].limit.capacity && limit.refill <= v[token].limit.refill
  }

  /** The escrow calls that move the maker's money out of reach, or let someone else do so. */
  predicate Extractive(fn: Fn) {
    fn.WithdrawFromAd? || fn.CloseAd? || fn.LockForOrder? || fn.SetSettlementSigner?
  }

  /** A guard rail as committed: its live bucket left out. */
  function SettingsOnly(rail: Option<GuardRail>): Option<GuardRail> {
    match rail
    case None => None
    case Some(g) => Some(g.(bucket := Bucket(0, 0)))
  }

  /** A rail change the delay stands in front of: dropping it, or relaxing it on any axis. */
  predicate Loosens(s: State, ad: AdId, rail: Option<GuardRail>) {
    ad in s.rails && (rail.None? || !RailTightening(s.rails[ad], rail.value))
  }

  /** An extractive call on a guarded ad that must be announced: no amount bounds it, or it is over
      the threshold. */
  predicate OverThreshold(g: GuardRail, fn: Fn, amount: nat) {
    fn.CloseAd? || fn.SetSettlementSigner? || amount > g.threshold
  }

  /** The announcement an escrow call must spend: resuming is the account's, an extractive call over
      its ad's threshold that ad's. */
  function DelayedCall(s: State, fn: Fn, args: Args): Option<(Row, Args)> {
    if fn.ResumeSettlement? then (if s.roster != [] then Some((Row(Whole, fn), args)) else None)
    else if Extractive(fn) && DecodeAdCall(fn, args).Ok? then
      var (ad, amount) := DecodeAdCall(fn, args).value;
      if ad in s.roster && ad in s.rails && OverThreshold(s.rails[ad], fn, amount)
      then Some((Row(Ad(ad), fn), args)) else None
    else None
  }

  /** The announcement a call must spend before it may happen, if any. */
  function Delayed(s: State, act: Action): Option<(Row, Args)> {
    match act
    case DoSetTargets(ts) =>
      if s.roster != [] && !Subset(ts, s.targets) then Some((Row(Whole, SetTargets), TargetsArgs(ts))) else None
    case DoSetPolicy(a, f, ad, ord, vu, sig, sc) =>
      if s.roster != [] && !(a in s.policies && IsTightening(s.policies[a], NewPolicy(act)))
      then Some((Row(Whole, SetPolicy), PolicyArgs(a, f, ad, ord, vu, sig, sc))) else None
    case DoSetAccountLimit(t, l) =>
      if s.roster != [] && !LimitTightening(s.volumes, t, l)
      then Some((Row(Whole, SetAccountLimit), LimitArgs(t, l))) else None
    case DoSetGuardRail(ad, rail) =>
      if Loosens(s, ad, rail) then Some((Row(Ad(ad), SetGuardRail), RailArgs(ad, SettingsOnly(rail)))) else None
    case DoUpgrade(h) =>
      if s.roster != [] then Some((Row(Whole, Upgrade), UpgradeArgs(h))) else None
    case DoSweep(asset, to, amount, _) =>
      if s.roster != [] then Some((Row(Whole, Sweep), SweepArgs(asset, to, amount))) else None
    case DoCall(_, fn, args, _) => DelayedCall(s, fn, args)
    case _ => None
  }

  /** A matured, unexpired announcement of exactly these arguments. */
  predicate CanSpend(t: Schedules, row: Row, args: Args, now: u64) {
    row in t && t[row].args == args && t[row].readyAt <= now < t[row].expiresAt
  }

  predicate TargetsOk(self: Address, targets: seq<Address>) {
    0 < |targets| <= MAX_TARGETS && self !in targets
  }

  /** The delay and window an announcement is timed by, and the arguments it commits to. */
  datatype Terms = Terms(delay: u64, window: u64, committed: Args)

  /** An ad's announcement: the ad the call names must be the scope's, its rail times it, and a rail
      change is committed without its live bucket. */
  function AdAnnouncement(s: State, ad: AdId, named: AdId, fn: Fn, args: Args): Result<Terms, Error>
    requires fn.SetGuardRail? ==> args.RailArgs?
  {
    if named != ad then Err(ScopeMismatch)
    else if fn.SetGuardRail? && args.rail.Some? && !BoundsOk(args.rail.value) then Err(GuardRailOutOfBounds)
    else if ad !in s.rails then Err(if ad in s.roster then GuardRailArchived else NoGuardRail)
    else
      Ok(Terms(s.rails[ad].delay, s.rails[ad].window,
               if fn.SetGuardRail? then RailArgs(ad, SettingsOnly(args.rail)) else args))
  }

  /** The account's: timed by the strictest rail on the roster. */
  function WholeAnnouncement(s: State, args: Args): Result<Terms, Error> {
    match AccountTimelock(s.rails, s.roster)
    case Err(e) => Err(e)
    case Ok(p) => Ok(Terms(p.0, p.1, args))
  }

  /** The terms of a new announcement, or why there can be none. */
  function Announcement(s: State, scope: Scope, fn: Fn, args: Args): Result<Terms, Error> {
    match scope
    case Ad(ad) =>
      (match DecodeAdCall(fn, args)
       case Err(e) => Err(e)
       case Ok(named) => AdAnnouncement(s, ad, named.0, fn, args))
    case Whole =>
      match CheckAccountCall(fn, args)
      case Err(e) => Err(e)
      case Ok(_) => WholeAnnouncement(s, args)
  }

  predicate CanAnnounce(s: State, scope: Scope, fn: Fn, args: Args, now: u64) {
    match Announcement(s, scope, fn, args)
    case Err(_) => false
    case Ok(a) => now + a.delay + a.window <= U64_MAX
  }

  function DelayBefore(s: State, ad: AdId): u64 {
    if ad in s.rails then s.rails[ad].delay else 0
  }

  function WindowBefore(s: State, ad: AdId): u64 {
    if ad in s.rails then s.rails[ad].window else U64_MAX
  }

  /** Re-stamping adds a delay that rises to the clock, which traps past the end of time. */
  predicate ClockFits(s: State, ad: AdId, delay: u64, now: u64) {
    delay > DelayBefore(s, ad) || delay > TimelockOr(s.rails, s.roster).0 ==> now + delay <= U64_MAX
  }

  predicate RailPermitted(s: State, ad: AdId, rail: Option<GuardRail>, now: u64) {
    && (ad in s.roster ==> ad in s.rails)
    && (rail.Some? ==>
          && BoundsOk(rail.value) && LimitOk(rail.value.rate)
          && (ad !in s.roster ==> |s.roster| < MAX_GUARDED_ADS)
          && (Loosens(s, ad, rail) || ClockFits(s, ad, rail.value.delay, now)))
  }

  predicate DisarmPermitted(s: State, escrow: Address, ad: AdId, closed: bool) {
    && escrow in s.targets && ad in s.roster && closed
    && var all, without := TimelockWithout(s.rails, s.roster, None), TimelockWithout(s.rails, s.roster, Some(ad));
    && all.Ok? && without.Ok? && without.value.0 >= all.value.0 && without.value.1 <= all.value.1
  }

  /** An extractive call on a guarded ad is announced, or drawn from the ad's bucket. */
  predicate DrawPermitted(s: State, fn: Fn, args: Args, now: u64) {
    && DecodeAdCall(fn, args).Ok?
    && var (ad, amount) := DecodeAdCall(fn, args).value;
       (ad in s.roster ==>
          ad in s.rails
          && (OverThreshold(s.rails[ad], fn, amount)
              || TrySpend(s.rails[ad].rate, s.rails[ad].bucket, amount, now).Some?))
  }

  /** What the guard rail asks of an escrow call, besides its announcement. */
  predicate CallPermitted(s: State, fn: Fn, args: Args, now: u64) {
    && !IsTokenFunction(fn)
    && (fn.ResumeSettlement? ==> CheckAccountCall(fn, args).Ok?)
    && (!fn.ResumeSettlement? && !Extractive(fn) && s.roster != [] ==> fn in INSTANT_CALLS)
    && (Extractive(fn) ==> DrawPermitted(s, fn, args, now))
  }

  /** A call's announcement, if it needs one, is matured and unexpired. */
  predicate Announced(s: State, d: Option<(Row, Args)>, now: u64) {
    d.Some? ==> CanSpend(s.schedules, d.value.0, d.value.1, now)
  }

  /** An escrow call the guard rail lets through. */
  predicate CallAccepted(s: State, fn: Fn, args: Args, now: u64) {
    CallPermitted(s, fn, args, now) && Announced(s, DelayedCall(s, fn, args), now)
  }

  /** Everything a call needs besides its announcement. */
  predicate Permitted(s: State, act: Action, now: u64) {
    match act
    case DoSetTargets(ts) => TargetsOk(s.self, ts)
    case DoSetPolicy(a, _, _, _, _, _, _) =>
      a != 0 && !(a in s.policies && s.policies[a].revoked) && Installable(NewPolicy(act), s.volumes, now)
    case DoSetAccountLimit(_, l) => LimitOk(l)
    case DoSetGuardRail(ad, rail) => RailPermitted(s, ad, rail, now)
    case DoDisarmClosedAd(e, ad, closed) => DisarmPermitted(s, e, ad, closed)
    case DoSchedule(scope, fn, args) => CanAnnounce(s, scope, fn, args, now)
    case DoCancel(row) => row in s.schedules
    case DoRevokeAgent(a) => a in s.policies
    case DoUpgrade(_) => true
    case DoCall(target, fn, args, done) => target in s.targets && CallPermitted(s, fn, args, now) && done
    case DoSweep(_, _, amount, done) => amount <= I128_MAX && done
    case DoCheckAuth(a, cs) =>
      && a in s.policies && Live(s.policies[a], now) && cs != []
      && LockAll(s.self, s.targets, s.policies[a], s.volumes, cs, now).Some?
  }

  predicate Accepted(s: State, act: Action, now: u64) {
    Permitted(s, act, now) && Announced(s, Delayed(s, act), now)
  }

  // ---- effects ----

  /** A scope's rows under a delay that was `before`: where it rose, they open no earlier than it from now. */
  function Raised(t: Schedules, scope: Scope, delay: u64, before: u64, now: u64): Schedules
    requires delay > before ==> now + delay <= U64_MAX
  {
    if delay > before then Restamped(t, scope, FnsOf(scope), now + delay) else t
  }

  /** The rows of an armed or tightened ad and of the account, where the delay rose: they open no
      earlier than it from now. */
  function DelaysRaised(
    t: Schedules, ad: AdId, armed: GuardRail, adDelay: u64, accountDelay: u64, now: u64): Schedules
    requires armed.delay > adDelay || armed.delay > accountDelay ==> now + armed.delay <= U64_MAX
  {
    Raised(Raised(t, Ad(ad), armed.delay, adDelay, now), Whole, armed.delay, accountDelay, now)
  }

  /** Then, where the window shrank (the account's read after the write): they close within it. */
  function WindowsCut(
    t: Schedules, ad: AdId, window: u64, adWindow: u64, accountWindow: u64, after: Result<(u64, u64), Error>): Schedules
  {
    var t1 := if window < adWindow then Clamped(t, Ad(ad), FnsOf(Ad(ad)), window) else t;
    if after.Ok? && after.value.1 < accountWindow then Clamped(t1, Whole, FnsOf(Whole), after.value.1) else t1
  }

  /** The pending rows after a rail was armed or tightened: the new delay and the new window apply
      to what was announced under the old ones. */
  function Retimed(s: State, ad: AdId, armed: GuardRail, now: u64): Schedules
    requires ClockFits(s, ad, armed.delay, now)
  {
    var before := TimelockOr(s.rails, s.roster);
    WindowsCut(
      DelaysRaised(s.schedules, ad, armed, DelayBefore(s, ad), before.0, now),
      ad, armed.window, WindowBefore(s, ad), before.1,
      AccountTimelock(s.rails[ad := armed], RosterWith(s.roster, ad)))
  }

  function RosterWith(roster: seq<AdId>, ad: AdId): seq<AdId> {
    if ad in roster then roster else roster + [ad]
  }

  /** The rail as stored: its bucket settled under the old settings, or full on a first arming. */
  function Armed(s: State, ad: AdId, g: GuardRail, now: u64): GuardRail {
    g.(bucket := if ad in s.rails then Settled(s.rails[ad].rate, s.rails[ad].bucket, g.rate, now) else Full(g.rate, now))
  }

  function RailSet(s: State, ad: AdId, g: GuardRail, now: u64): State
    requires RailPermitted(s, ad, Some(g), now)
  {
    var armed := Armed(s, ad, g, now);
    s.(rails := s.rails[ad := armed], roster := RosterWith(s.roster, ad),
       schedules := if Loosens(s, ad, Some(g)) then ClearedAll(s.schedules, ad) else Retimed(s, ad, armed, now))
  }

  function Disarmed(s: State, ad: AdId): State {
    s.(rails := s.rails - {ad}, roster := Others(s.roster, ad), schedules := ClearedAll(s.schedules, ad))
  }

  function VolumeSet(v: Volumes, token: Token, limit: Limit, now: u64): Volumes {
    v[token := AccountVolume(limit,
         if token in v then Settled(v[token].limit, v[token].bucket, limit, now) else Full(limit, now))]
  }

  function PolicySet(s: State, act: Action, now: u64): State
    requires act.DoSetPolicy?
  {
    var p := NewPolicy(act);
    var carry := s.roster != [] && act.agent in s.policies && IsTightening(s.policies[act.agent], p);
    s.(policies := s.policies[act.agent :=
         if carry then p.(buckets := Carried(s.policies[act.agent], p.adTokens, [], now)) else p])
  }

  /** An escrow call within the threshold draws on the ad's bucket; any other leaves the rows alone. */
  function Called(s: State, fn: Fn, args: Args, now: u64): State {
    if !Extractive(fn) || DecodeAdCall(fn, args).Err? then s
    else
      var (ad, amount) := DecodeAdCall(fn, args).value;
      if ad !in s.roster || ad !in s.rails || OverThreshold(s.rails[ad], fn, amount)
         || TrySpend(s.rails[ad].rate, s.rails[ad].bucket, amount, now).None? then s
      else
        var g := s.rails[ad];
        s.(rails := s.rails[ad := g.(bucket := TrySpend(g.rate, g.bucket, amount, now).value)])
  }

  /** What an accepted call does, its announcement already spent. */
  function Effect(s: State, act: Action, now: u64): State
    requires Permitted(s, act, now)
  {
    match act
    case DoSetTargets(ts) => s.(targets := ts)
    case DoSetPolicy(_, _, _, _, _, _, _) => PolicySet(s, act, now)
    case DoSetAccountLimit(t, l) => s.(volumes := VolumeSet(s.volumes, t, l, now))
    case DoSetGuardRail(ad, rail) => if rail.Some? then RailSet(s, ad, rail.value, now) else Disarmed(s, ad)
    case DoDisarmClosedAd(_, ad, _) => Disarmed(s, ad)
    case DoSchedule(scope, fn, args) =>
      var a := Announcement(s, scope, fn, args).value;
      s.(schedules := s.schedules[Row(scope, fn) := Schedule(a.committed, now + a.delay, now + a.delay + a.window)],
         announced := s.announced[Row(scope, fn) := now])
    case DoCancel(row) => s.(schedules := s.schedules - {row})
    case DoRevokeAgent(a) => s.(policies := s.policies[a := s.policies[a].(revoked := true)])
    case DoUpgrade(_) => s
    case DoCall(_, fn, args, _) => Called(s, fn, args, now)
    case DoSweep(_, _, _, _) => s
    case DoCheckAuth(a, cs) =>
      var r := LockAll(s.self, s.targets, s.policies[a], s.volumes, cs, now).value;
      s.(policies := s.policies[a := r.0], volumes := r.1)
  }

  function Without(s: State, spent: Option<(Row, Args)>): State {
    if spent.Some? then s.(schedules := s.schedules - {spent.value.0}) else s
  }

  /** What an escrow call let through leaves: its announcement spent, or its ad's bucket drawn on. */
  function CallLeaves(s: State, fn: Fn, args: Args, now: u64): State {
    Called(Without(s, DelayedCall(s, fn, args)), fn, args, now)
  }

  /** Spending an announcement takes nothing else from a call. */
  lemma SpendingPermits(s: State, act: Action, now: u64)
    requires Permitted(s, act, now)
    ensures Permitted(Without(s, Delayed(s, act)), act, now)
  {
    if !act.DoCancel? {
    }
  }

  /** One call at ledger time `now`; a refused one changes nothing. */
  function Step(s: State, act: Action, now: u64): State {
    if !Accepted(s, act, now) then s
    else
      SpendingPermits(s, act, now);
      Effect(Without(s, Delayed(s, act)), act, now)
  }

  // ---- single calls, unfolded ----

  lemma CallStep(s: State, target: Address, fn: Fn, args: Args, done: bool, now: u64)
    ensures Accepted(s, DoCall(target, fn, args, done), now)
        <==> target in s.targets && CallAccepted(s, fn, args, now) && done
    ensures Accepted(s, DoCall(target, fn, args, done), now) ==>
      Step(s, DoCall(target, fn, args, done), now) == CallLeaves(s, fn, args, now)
  {
  }

  /** A call that is neither extractive nor a resume needs no announcement and leaves the rows alone. */
  lemma PlainCall(s: State, fn: Fn, args: Args, now: u64)
    requires !Extractive(fn) && !fn.ResumeSettlement?
    ensures CallAccepted(s, fn, args, now) <==> !IsTokenFunction(fn) && (s.roster != [] ==> fn in INSTANT_CALLS)
    ensures CallLeaves(s, fn, args, now) == s
  {
  }

  lemma ScheduleStep(s: State, scope: Scope, fn: Fn, args: Args, now: u64)
    ensures Accepted(s, DoSchedule(scope, fn, args), now) <==> CanAnnounce(s, scope, fn, args, now)
    ensures CanAnnounce(s, scope, fn, args, now) ==>
      var a := Announcement(s, scope, fn, args).value;
      Step(s, DoSchedule(scope, fn, args), now)
      == s.(schedules := s.schedules[Row(scope, fn) := Schedule(a.committed, now + a.delay, now + a.delay + a.window)],
            announced := s.announced[Row(scope, fn) := now])
  {
  }
}
