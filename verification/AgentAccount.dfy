/** The agent account contract: entry points that settle and rewrite buckets, rails, rosters and
    announcements, each proved to be the step of the state machine. The order of the checks is the
    contract's; the host discards every write of a refused call. */
module AgentAccount {
  import opened Numbers
  import opened Wrappers
  import opened RateLimit
  import opened Account
  import opened Policies
  import opened Timelock

  // ---- loops over the rows ----

  /** `timelock_without`: one pass over the roster. */
  method FindTimelock(rails: Rails, roster: seq<AdId>, skip: Option<AdId>) returns (r: Result<(u64, u64), Error>)
    ensures r == TimelockWithout(rails, roster, skip)
  {
    var delay: u64, window: u64 := 0, U64_MAX;
    for i := 0 to |roster|
      invariant TimelockFrom(rails, roster[i..], skip, delay, window) == TimelockWithout(rails, roster, skip)
    {
      assert roster[i..][0] == roster[i] && roster[i..][1..] == roster[i + 1..];
      if skip == Some(roster[i]) {
        continue;
      }
      if roster[i] !in rails {
        return Err(GuardRailArchived);
      }
      delay := Max(delay, rails[roster[i]].delay);
      window := Min(window, rails[roster[i]].window);
    }
    return Ok((delay, window));
  }

  lemma {:induction false} OthersSnoc(roster: seq<AdId>, last: AdId, ad: AdId)
    ensures Others(roster + [last], ad) == Others(roster, ad) + (if last == ad then [] else [last])
  {
    if roster == [] {
      assert roster + [last] == [last] && [last][1..] == [];
    } else {
      OthersSnoc(roster[1..], last, ad);
      assert (roster + [last])[1..] == roster[1..] + [last];
    }
  }

  /** `remove_guard_rail`: the roster rebuilt without one ad. */
  method RosterWithout(roster: seq<AdId>, ad: AdId) returns (next: seq<AdId>)
    ensures next == Others(roster, ad)
  {
    next := [];
    for i := 0 to |roster|
      invariant next == Others(roster[..i], ad)
    {
      OthersSnoc(roster[..i], roster[i], ad);
      assert roster[..i + 1] == roster[..i] + [roster[i]];
      if roster[i] != ad {
        next := next + [roster[i]];
      }
    }
    assert roster[..|roster|] == roster;
  }

  lemma FnsSnoc(actions: seq<Fn>, i: nat)
    requires i < |actions|
    ensures Fns(actions[..i + 1]) == Fns(actions[..i]) + {actions[i]}
    ensures Fns(actions[..|actions|]) == Fns(actions)
  {
    assert actions[..i + 1] == actions[..i] + [actions[i]];
    assert actions[..|actions|] == actions;
  }

  /** `restamp`: every action of the scope in turn. */
  method Restamp(t: Schedules, scope: Scope, notBefore: u64) returns (r: Schedules)
    ensures r == Restamped(t, scope, FnsOf(scope), notBefore)
  {
    var actions := ActionsFor(scope);
    r := t;
    for i := 0 to |actions|
      invariant r == Restamped(t, scope, Fns(actions[..i]), notBefore)
    {
      FnsSnoc(actions, i);
      var row := Row(scope, actions[i]);
      if row in r && r[row].readyAt < notBefore {
        var x := r[row];
        x := x.(expiresAt := SatAdd64(x.expiresAt, notBefore - x.readyAt));
        x := x.(readyAt := notBefore);
        r := r[row := x];
      }
      RestampedOneMore(t, scope, Fns(actions[..i]), actions[i], notBefore);
    }
    FnsSnoc(actions, 0);
  }

  /** Doing one action more is writing its row once, whether or not it was done before. */
  lemma RestampedOneMore(t: Schedules, scope: Scope, fns: set<Fn>, fn: Fn, notBefore: u64)
    ensures var r, row := Restamped(t, scope, fns, notBefore), Row(scope, fn);
            Restamped(t, scope, fns + {fn}, notBefore)
            == (if row in r && r[row].readyAt < notBefore then r[row := Later(r[row], notBefore)] else r)
  {
  }

  /** `clamp_windows`: likewise. */
  method ClampWindows(t: Schedules, scope: Scope, window: u64) returns (r: Schedules)
    ensures r == Clamped(t, scope, FnsOf(scope), window)
  {
    var actions := ActionsFor(scope);
    r := t;
    for i := 0 to |actions|
      invariant r == Clamped(t, scope, Fns(actions[..i]), window)
    {
      FnsSnoc(actions, i);
      var row := Row(scope, actions[i]);
      if row in r {
        var latest := SatAdd64(r[row].readyAt, window);
        if r[row].expiresAt > latest {
          r := r[row := r[row].(expiresAt := latest)];
        }
      }
      ClampedOneMore(t, scope, Fns(actions[..i]), actions[i], window);
    }
    FnsSnoc(actions, 0);
  }

  lemma ClampedOneMore(t: Schedules, scope: Scope, fns: set<Fn>, fn: Fn, window: u64)
    ensures var r, row := Clamped(t, scope, fns, window), Row(scope, fn);
            Clamped(t, scope, fns + {fn}, window)
            == (if row in r then r[row := Sooner(r[row], window)] else r)
  {
  }

  /** One scope of `clear_all_schedules`. */
  method ClearScope(t: Schedules, scope: Scope) returns (r: Schedules)
    ensures r == Cleared(t, scope, FnsOf(scope))
  {
    var actions := ActionsFor(scope);
    r := t;
    for i := 0 to |actions|
      invariant r == Cleared(t, scope, Fns(actions[..i]))
    {
      FnsSnoc(actions, i);
      r := r - {Row(scope, actions[i])};
    }
    FnsSnoc(actions, 0);
  }

  method ClearAllSchedules(t: Schedules, ad: AdId) returns (r: Schedules)
    ensures r == ClearedAll(t, ad)
  {
    r := ClearScope(t, Ad(ad));
    r := ClearScope(r, Whole);
  }

  /** The delays raised, then the windows cut, in the order the contract does. */
  method RaiseDelays(t: Schedules, ad: AdId, armed: GuardRail, adDelay: u64, accountDelay: u64, now: u64)
    returns (r: Schedules)
    requires armed.delay > adDelay || armed.delay > accountDelay ==> now + armed.delay <= U64_MAX
    ensures r == DelaysRaised(t, ad, armed, adDelay, accountDelay, now)
  {
    r := Raise(t, Ad(ad), armed.delay, adDelay, now);
    r := Raise(r, Whole, armed.delay, accountDelay, now);
  }

  method Raise(t: Schedules, scope: Scope, delay: u64, before: u64, now: u64) returns (r: Schedules)
    requires delay > before ==> now + delay <= U64_MAX
    ensures r == Raised(t, scope, delay, before, now)
  {
    r := t;
    if delay > before {
      r := Restamp(t, scope, now + delay);
    }
  }

  method CutWindows(
    t: Schedules, ad: AdId, window: u64, adWindow: u64, accountWindow: u64, rails: Rails, roster: seq<AdId>)
    returns (r: Schedules)
    ensures r == WindowsCut(t, ad, window, adWindow, accountWindow, AccountTimelock(rails, roster))
  {
    r := t;
    if window < adWindow {
      r := ClampWindows(r, Ad(ad), window);
    }
    if roster != [] {
      var after := FindTimelock(rails, roster, None);
      if after.Ok? && after.value.1 < accountWindow {
        r := ClampWindows(r, Whole, after.value.1);
      }
    }
  }

  /** The account's timelock as read before a rail is written. */
  method ReadTimelock(rails: Rails, roster: seq<AdId>) returns (r: (u64, u64))
    ensures r == TimelockOr(rails, roster)
  {
    r := (0, U64_MAX);
    if roster != [] {
      var timelock := FindTimelock(rails, roster, None);
      if timelock.Ok? {
        r := timelock.value;
      }
    }
  }

  class Contract {
    const self: Address
    var targets: seq<Address>
    var policies: map<AgentId, AgentPolicy>
    var volumes: Volumes
    var rails: Rails
    var roster: seq<AdId>
    var schedules: Schedules
    /** History: when each pending call was announced. */
    ghost var announced: map<Row, u64>

    ghost function Rows(): State
      reads this
    {
      State(self, targets, policies, volumes, rails, roster, schedules, announced)
    }

    /** Deployment pins the escrows; a bad list deploys nothing. */
    constructor (self: Address, targets: seq<Address>)
      requires TargetsOk(self, targets)
      ensures Rows() == State(self, targets, map[], map[], map[], [], map[], map[])
    {
      this.self := self;
      this.targets := targets;
      policies, volumes, rails, roster, schedules := map[], map[], map[], [], map[];
      announced := map[];
    }

    /** `spend`: a matured, unexpired announcement of exactly these arguments, removed. */
    method Spend(row: Row, args: Args, now: u64) returns (r: Result<(), Error>)
      modifies this`schedules
      ensures r.Ok? <==> CanSpend(old(schedules), row, args, now)
      ensures schedules == if r.Ok? then old(schedules) - {row} else old(schedules)
    {
      if row !in schedules {
        return Err(NotScheduled);
      }
      var x := schedules[row];
      if x.args != args || now < x.readyAt || now >= x.expiresAt {
        return Err(NotScheduled);
      }
      schedules := schedules - {row};
      return Ok(());
    }

    method SetTargets(ts: seq<Address>, now: u64) returns (r: Result<(), Error>)
      modifies this
      ensures r.Ok? <==> Accepted(old(Rows()), DoSetTargets(ts), now)
      ensures Rows() == Step(old(Rows()), DoSetTargets(ts), now)
    {
      if !TargetsOk(self, ts) {
        return Err(BadTargets);
      }
      if roster != [] && exists t :: t in ts && t !in targets {
        r := Spend(Row(Whole, Fn.SetTargets), TargetsArgs(ts), now);
        if r.Err? {
          return;
        }
      }
      targets := ts;
      return Ok(());
    }

    method SetPolicy(
      agent: AgentId, action: Fn, adTokens: seq<TokenLimit>, orderTokens: seq<Token>, validUntil: u64,
      signer: Identity, adScope: Option<seq<AdId>>, now: u64)
      returns (r: Result<(), Error>)
      modifies this
      ensures var act := DoSetPolicy(agent, action, adTokens, orderTokens, validUntil, signer, adScope);
              (r.Ok? <==> Accepted(old(Rows()), act, now)) && Rows() == Step(old(Rows()), act, now)
    {
      ghost var act := DoSetPolicy(agent, action, adTokens, orderTokens, validUntil, signer, adScope);
      if agent == 0 {
        return Err(BadPolicy);
      }
      if agent in policies && policies[agent].revoked {
        return Err(AgentRevoked);
      }
      var p := AgentPolicy(action, adTokens, orderTokens, validUntil, false, signer, adScope, []);
      assert p == NewPolicy(act);
      if !Installable(p, volumes, now) {
        return Err(BadPolicy);
      }
      if roster != [] {
        if agent in policies && IsTightening(policies[agent], p) {
          p := CarryBuckets(policies[agent], p, now);
        } else {
          r := Spend(Row(Whole, Fn.SetPolicy),
                     PolicyArgs(agent, action, adTokens, orderTokens, validUntil, signer, adScope), now);
          if r.Err? {
            return;
          }
        }
      }
      policies := policies[agent := p];
      return Ok(());
    }

    method SetAccountLimit(token: Token, limit: Limit, now: u64) returns (r: Result<(), Error>)
      modifies this
      ensures r.Ok? <==> Accepted(old(Rows()), DoSetAccountLimit(token, limit), now)
      ensures Rows() == Step(old(Rows()), DoSetAccountLimit(token, limit), now)
    {
      if !LimitOk(limit) {
        return Err(BadPolicy);
      }
      if roster != [] && !LimitTightening(volumes, token, limit) {
        r := Spend(Row(Whole, Fn.SetAccountLimit), LimitArgs(token, limit), now);
        if r.Err? {
          return;
        }
      }
      var bucket;
      if token in volumes {
        var settled := Available(volumes[token].limit, volumes[token].bucket, now);
        bucket := Bucket(if settled > limit.capacity then limit.capacity else settled, now);
      } else {
        bucket := Full(limit, now);
      }
      volumes := volumes[token := AccountVolume(limit, bucket)];
      return Ok(());
    }

    /** The write of an armed rail, its announcement (if it needed one) already spent. */
    method ArmRail(ad: AdId, g: GuardRail, loosening: bool, now: u64)
      requires RailPermitted(Rows(), ad, Some(g), now) && loosening == Loosens(Rows(), ad, Some(g))
      modifies this`rails, this`roster, this`schedules
      ensures Rows() == RailSet(old(Rows()), ad, g, now)
    {
      var level := g.rate.capacity;
      var adDelay: u64, adWindow: u64 := 0, U64_MAX;
      if ad in rails {
        var settled := Available(rails[ad].rate, rails[ad].bucket, now);
        level := if settled > g.rate.capacity then g.rate.capacity else settled;
        adDelay, adWindow := rails[ad].delay, rails[ad].window;
      }
      var armed := g.(bucket := Bucket(level, now));
      assert armed == Armed(Rows(), ad, g, now);
      var before := ReadTimelock(rails, roster);
      rails := rails[ad := armed];
      if ad !in roster {
        roster := roster + [ad];
      }
      if loosening {
        schedules := ClearAllSchedules(schedules, ad);
      } else {
        schedules := RaiseDelays(schedules, ad, armed, adDelay, before.0, now);
        schedules := CutWindows(schedules, ad, armed.window, adWindow, before.1, rails, roster);
      }
    }

    method Disarm(ad: AdId)
      modifies this`rails, this`roster, this`schedules
      ensures Rows() == Disarmed(old(Rows()), ad)
    {
      rails := rails - {ad};
      roster := RosterWithout(roster, ad);
      schedules := ClearAllSchedules(schedules, ad);
    }

    /** Can the write of an armed rail go through? Made before the spend here: a refusal undoes both
        either way. */
    method CheckRail(ad: AdId, g: GuardRail, loosening: bool, now: u64) returns (r: Result<(), Error>)
      requires (ad in roster ==> ad in rails) && BoundsOk(g) && loosening == Loosens(Rows(), ad, Some(g))
      ensures r.Ok? <==> RailPermitted(Rows(), ad, Some(g), now)
    {
      if !LimitOk(g.rate) || (ad !in roster && |roster| >= MAX_GUARDED_ADS) {
        return Err(BadGuardRail);
      }
      if !loosening {
        var before := ReadTimelock(rails, roster);
        var adDelay := if ad in rails then rails[ad].delay else 0;
        if (g.delay > adDelay || g.delay > before.0) && now + g.delay > U64_MAX {
          return Err(Overflow);
        }
      }
      return Ok(());
    }

    /** Arm, tighten, loosen or (with `None`) disarm an ad's rail. */
    method SetGuardRail(ad: AdId, rail: Option<GuardRail>, now: u64) returns (r: Result<(), Error>)
      modifies this
      ensures r.Ok? <==> Accepted(old(Rows()), DoSetGuardRail(ad, rail), now)
      ensures Rows() == Step(old(Rows()), DoSetGuardRail(ad, rail), now)
    {
      if rail.Some? && !BoundsOk(rail.value) {
        return Err(GuardRailOutOfBounds);
      }
      if ad !in rails && ad in roster {
        return Err(GuardRailArchived);
      }
      var loosening := ad in rails && (rail.None? || !RailTightening(rails[ad], rail.value));
      if rail.Some? {
        r := CheckRail(ad, rail.value, loosening, now);
        if r.Err? {
          return;
        }
      }
      assert Permitted(Rows(), DoSetGuardRail(ad, rail), now);
      if loosening {
        r := Spend(Row(Ad(ad), Fn.SetGuardRail), RailArgs(ad, SettingsOnly(rail)), now);
        if r.Err? {
          return;
        }
      }
      match rail {
        case Some(g) => ArmRail(ad, g, loosening, now);
        case None => Disarm(ad);
      }
      return Ok(());
    }

    method DisarmClosedAd(escrow: Address, ad: AdId, closed: bool, now: u64) returns (r: Result<(), Error>)
      modifies this
      ensures r.Ok? <==> Accepted(old(Rows()), DoDisarmClosedAd(escrow, ad, closed), now)
      ensures Rows() == Step(old(Rows()), DoDisarmClosedAd(escrow, ad, closed), now)
    {
      if escrow !in targets {
        return Err(TargetNotAllowed);
      }
      if ad !in roster {
        return Err(NoGuardRail);
      }
      if !closed {
        return Err(AdNotClosed);
      }
      var all := FindTimelock(rails, roster, None);
      if all.Err? {
        return Err(all.error);
      }
      var without := FindTimelock(rails, roster, Some(ad));
      if without.Err? {
        return Err(without.error);
      }
      if without.value.0 < all.value.0 || without.value.1 > all.value.1 {
        return Err(DisarmLowersTimelock);
      }
      Disarm(ad);
      return Ok(());
    }

    method JudgeAdAnnouncement(ad: AdId, named: AdId, fn: Fn, args: Args) returns (r: Result<Terms, Error>)
      requires fn.SetGuardRail? ==> args.RailArgs?
      ensures r == AdAnnouncement(Rows(), ad, named, fn, args)
    {
      if named != ad {
        return Err(ScopeMismatch);
      }
      var committed := args;
      if fn == Fn.SetGuardRail {
        if args.rail.Some? && !BoundsOk(args.rail.value) {
          return Err(GuardRailOutOfBounds);
        }
        committed := RailArgs(ad, SettingsOnly(args.rail));
      }
      if ad !in rails {
        return Err(if ad in roster then GuardRailArchived else NoGuardRail);
      }
      return Ok(Terms(rails[ad].delay, rails[ad].window, committed));
    }

    method JudgeWholeAnnouncement(args: Args) returns (r: Result<Terms, Error>)
      ensures r == WholeAnnouncement(Rows(), args)
    {
      if roster == [] {
        return Err(NoGuardRail);
      }
      var timelock := FindTimelock(rails, roster, None);
      if timelock.Err? {
        return Err(timelock.error);
      }
      return Ok(Terms(timelock.value.0, timelock.value.1, args));
    }

    /** An announcement on an ad: an action of another scope, another shape or another ad is refused. */
    method JudgeOnAd(ad: AdId, fn: Fn, args: Args) returns (r: Result<Terms, Error>)
      ensures r == Announcement(Rows(), Ad(ad), fn, args)
    {
      var named := DecodeAdCall(fn, args);
      if named.Err? {
        return Err(named.error);
      }
      r := JudgeAdAnnouncement(ad, named.value.0, fn, args);
    }

    method JudgeOnWhole(fn: Fn, args: Args) returns (r: Result<Terms, Error>)
      ensures r == Announcement(Rows(), Whole, fn, args)
    {
      var shape := CheckAccountCall(fn, args);
      if shape.Err? {
        return Err(shape.error);
      }
      r := JudgeWholeAnnouncement(args);
    }

    /** Announce a delayed call and start its clock; a new announcement replaces the pending one. */
    method Announce(scope: Scope, fn: Fn, args: Args, now: u64) returns (r: Result<(), Error>)
      modifies this
      ensures r.Ok? <==> Accepted(old(Rows()), DoSchedule(scope, fn, args), now)
      ensures Rows() == Step(old(Rows()), DoSchedule(scope, fn, args), now)
    {
      ScheduleStep(Rows(), scope, fn, args, now);
      var judged;
      if scope.Ad? {
        judged := JudgeOnAd(scope.ad, fn, args);
      } else {
        judged := JudgeOnWhole(fn, args);
      }
      if judged.Err? {
        return Err(judged.error);
      }
      var Terms(delay, window, committed) := judged.value;
      if now + delay > U64_MAX || now + delay + window > U64_MAX {
        return Err(BadGuardRail);
      }
      schedules := schedules[Row(scope, fn) := Schedule(committed, now + delay, now + delay + window)];
      announced := announced[Row(scope, fn) := now];
      return Ok(());
    }

    method Cancel(row: Row, now: u64) returns (r: Result<(), Error>)
      modifies this
      ensures r.Ok? <==> Accepted(old(Rows()), DoCancel(row), now)
      ensures Rows() == Step(old(Rows()), DoCancel(row), now)
    {
      if row !in schedules {
        return Err(NotScheduled);
      }
      schedules := schedules - {row};
      return Ok(());
    }

    method RevokeAgent(agent: AgentId, now: u64) returns (r: Result<(), Error>)
      modifies this
      ensures r.Ok? <==> Accepted(old(Rows()), DoRevokeAgent(agent), now)
      ensures Rows() == Step(old(Rows()), DoRevokeAgent(agent), now)
    {
      if agent !in policies {
        return Err(NoPolicyForAgent);
      }
      if policies[agent].revoked {
        assert policies[agent := policies[agent].(revoked := true)] == policies;
        return Ok(());
      }
      policies := policies[agent := policies[agent].(revoked := true)];
      return Ok(());
    }

    method Upgrade(hash: int, now: u64) returns (r: Result<(), Error>)
      modifies this
      ensures r.Ok? <==> Accepted(old(Rows()), DoUpgrade(hash), now)
      ensures Rows() == Step(old(Rows()), DoUpgrade(hash), now)
    {
      r := Ok(());
      if roster != [] {
        r := Spend(Row(Whole, Fn.Upgrade), UpgradeArgs(hash), now);
      }
    }

    method Sweep(asset: Address, to: Address, amount: u128, done: bool, now: u64) returns (r: Result<(), Error>)
      modifies this
      ensures r.Ok? <==> Accepted(old(Rows()), DoSweep(asset, to, amount, done), now)
      ensures Rows() == Step(old(Rows()), DoSweep(asset, to, amount, done), now)
    {
      var was := schedules;
      if roster != [] {
        r := Spend(Row(Whole, Fn.Sweep), SweepArgs(asset, to, amount), now);
        if r.Err? {
          return;
        }
      }
      if amount > I128_MAX || !done {
        schedules := was;
        return Err(CallFailed);
      }
      return Ok(());
    }

    /** `check_owner_call`: the guard rail on the owner's escrow calls. It writes: it spends an
        announcement, or draws on the ad's bucket. */
    method CheckOwnerCall(fn: Fn, args: Args, now: u64) returns (r: Result<(), Error>)
      modifies this`schedules, this`rails
      ensures r.Ok? <==> CallAccepted(old(Rows()), fn, args, now)
      ensures Rows() == if r.Ok? then CallLeaves(old(Rows()), fn, args, now) else old(Rows())
    {
      if IsTokenFunction(fn) {
        return Err(FunctionNotAllowed);
      }
      if fn == Fn.ResumeSettlement {
        r := CheckResume(args, now);
        return;
      }
      if Extractive(fn) {
        r := CheckExtractive(fn, args, now);
        return;
      }
      PlainCall(Rows(), fn, args, now);
      if roster != [] && fn !in INSTANT_CALLS {
        return Err(FunctionNotAllowed);
      }
      return Ok(());
    }

    /** Its account-scoped branch: resuming settlement waits for the account's delay. */
    method CheckResume(args: Args, now: u64) returns (r: Result<(), Error>)
      modifies this`schedules
      ensures r.Ok? <==> CallAccepted(old(Rows()), Fn.ResumeSettlement, args, now)
      ensures Rows() == if r.Ok? then CallLeaves(old(Rows()), Fn.ResumeSettlement, args, now) else old(Rows())
    {
      r := CheckAccountCall(Fn.ResumeSettlement, args);
      if r.Ok? && roster != [] {
        r := Spend(Row(Whole, Fn.ResumeSettlement), args, now);
      }
    }

    /** Its extractive branch: announced over the ad's threshold, drawn from its bucket within it. */
    method CheckExtractive(fn: Fn, args: Args, now: u64) returns (r: Result<(), Error>)
      requires Extractive(fn)
      modifies this`schedules, this`rails
      ensures r.Ok? <==> CallAccepted(old(Rows()), fn, args, now)
      ensures Rows() == if r.Ok? then CallLeaves(old(Rows()), fn, args, now) else old(Rows())
    {
      var decoded := DecodeAdCall(fn, args);
      if decoded.Err? {
        return Err(decoded.error);
      }
      var (ad, amount) := decoded.value;
      if ad !in roster {
        return Ok(());
      }
      if ad !in rails {
        return Err(GuardRailArchived);
      }
      var g := rails[ad];
      if OverThreshold(g, fn, amount) {
        r := Spend(Row(Ad(ad), fn), args, now);
        return;
      }
      r := Draw(ad, amount, now);
    }

    /** A sub-threshold amount out of a guarded ad's bucket, or nothing. */
    method Draw(ad: AdId, amount: u128, now: u64) returns (r: Result<(), Error>)
      requires ad in rails
      modifies this`rails
      ensures var g := old(rails[ad]);
              var left := TrySpend(g.rate, g.bucket, amount, now);
              && (r.Ok? <==> left.Some?)
              && rails == if left.Some? then old(rails)[ad := g.(bucket := left.value)] else old(rails)
    {
      var g := rails[ad];
      var next := TrySpend(g.rate, g.bucket, amount, now);
      if next.None? {
        return Err(VolumeExceeded);
      }
      rails := rails[ad := g.(bucket := next.value)];
      return Ok(());
    }

    /** `call`: a pinned escrow, the guard rail, then the call itself (`done`), which undoes all of
        it when it fails. */
    method Call(target: Address, fn: Fn, args: Args, done: bool, now: u64) returns (r: Result<(), Error>)
      modifies this
      ensures r.Ok? <==> Accepted(old(Rows()), DoCall(target, fn, args, done), now)
      ensures Rows() == Step(old(Rows()), DoCall(target, fn, args, done), now)
    {
      CallStep(Rows(), target, fn, args, done, now);
      if target !in targets {
        return Err(TargetNotAllowed);
      }
      var was := (schedules, rails);
      r := CheckOwnerCall(fn, args, now);
      if r.Ok? && !done {
        schedules, rails := was.0, was.1;
        r := Err(CallFailed);
      }
    }

    /** `check_contract_call`: reach, then size, then rate, so a lock with two faults is refused for
        the earlier one; a lock that does not decode is refused before any of them. Both buckets are
        checked before either is written. */
    method CheckContractCall(p: AgentPolicy, c: Context, now: u64) returns (r: Result<AgentPolicy, Error>)
      modifies this`volumes
      ensures var charged := LockOnce(self, targets, p, old(volumes), c, now);
              && (r.Ok? <==> charged.Some?)
              && (r.Ok? ==> (r.value, volumes) == charged.value)
              && (r.Err? ==> volumes == old(volumes))
      ensures r.Err? && Reaches(self, targets, p, c) ==>
                r.error in {BadArgs, CapExceeded, NoVolumeLimit, VolumeExceeded}
                && (Sized(p, c.args) <==> r.error in {NoVolumeLimit, VolumeExceeded})
      ensures r.Err? && r.error in {CapExceeded, NoVolumeLimit, VolumeExceeded} ==> Reaches(self, targets, p, c)
    {
      if c.OtherContext? {
        return Err(UnsupportedContext);
      }
      if c.target !in targets {
        return Err(TargetNotAllowed);
      }
      if c.fn != p.allowedAction {
        return Err(ActionNotAllowed);
      }
      if !c.args.LockArgs? || c.args.reach.None? {
        return Err(BadArgs);
      }
      var reach := c.args.reach.value;
      if reach.adCreator != self || reach.settlementSigner != p.settlementSigner {
        return Err(SettlementSignerMismatch);
      }
      var row := LimitFor(p.adTokens, reach.adToken);
      if row.None? || reach.orderToken !in p.orderTokens {
        return Err(TokenNotAllowed);
      }
      if !AdInScope(p, c.args.ad) {
        return Err(AdNotAllowed);
      }
      var amount := LockAmount(c.args);
      if amount.Err? || amount.value == 0 {
        return Err(BadArgs);
      }
      if amount.value > row.value.maxPerOrder {
        return Err(CapExceeded);
      }
      var agentBucket := AgentBucket(p, reach.adToken, now);
      if reach.adToken !in volumes {
        return Err(NoVolumeLimit);
      }
      var account := volumes[reach.adToken];
      var nextAgent := TrySpend(row.value.rate, agentBucket, amount.value, now);
      if nextAgent.None? {
        return Err(VolumeExceeded);
      }
      var nextAccount := TrySpend(account.limit, account.bucket, amount.value, now);
      if nextAccount.None? {
        return Err(VolumeExceeded);
      }
      var buckets := PutBucket(p.buckets, reach.adToken, nextAgent.value);
      volumes := volumes[reach.adToken := AccountVolume(account.limit, nextAccount.value)];
      return Ok(p.(buckets := buckets));
    }

    /** `__check_auth`: every context judged and charged in turn against one policy in memory, which
        is stored once at the end; the account's rows are written as they go. */
    method CheckAuth(agent: AgentId, contexts: seq<Context>, now: u64) returns (r: Result<(), Error>)
      modifies this
      ensures r.Ok? <==> Accepted(old(Rows()), DoCheckAuth(agent, contexts), now)
      ensures Rows() == Step(old(Rows()), DoCheckAuth(agent, contexts), now)
    {
      if agent !in policies {
        return Err(NoPolicyForAgent);
      }
      var p := policies[agent];
      if p.revoked {
        return Err(AgentRevoked);
      }
      if p.validUntil != 0 && now >= p.validUntil {
        return Err(PolicyExpired);
      }
      if contexts == [] {
        return Err(UnsupportedContext);
      }
      var was, stored := volumes, p;
      for i := 0 to |contexts|
        invariant Rows() == old(Rows()).(volumes := volumes)
        invariant LockAll(self, targets, p, volumes, contexts[i..], now)
               == LockAll(self, targets, stored, was, contexts, now)
      {
        assert contexts[i..][1..] == contexts[i + 1..];
        var charged := CheckContractCall(p, contexts[i], now);
        if charged.Err? {
          volumes := was;
          return Err(charged.error);
        }
        p := charged.value;
      }
      policies := policies[agent := p];
      return Ok(());
    }
  }
}
