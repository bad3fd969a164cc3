/** What the invariant of the announced calls means for an owner, and for whoever holds the
    owner's key. */
module TimelockTheorems {
  import opened Numbers
  import opened Wrappers
  import opened RateLimit
  import opened Account
  import opened Policies
  import opened Timelock
  import opened TimelockInvariants
  import opened GuardedCalls

  predicate Listed(s: State, row: Row) {
    row.scope.Ad? ==> row.scope.ad in s.rails
  }

  /** The delay in force now where a row applies. */
  function DelayFor(s: State, row: Row): u64
    requires Listed(s, row)
  {
    if row.scope.Ad? then s.rails[row.scope.ad].delay else DelayOf(s)
  }

  /** Every delayed call that succeeds was announced with these arguments at least the delay in
      force now before, and spends its announcement. */
  lemma SpentWasAnnounced(s: State, act: Action, now: u64)
    requires Inv(s, now) && Accepted(s, act, now) && Delayed(s, act).Some?
    ensures var (row, args) := Delayed(s, act).value;
            && row in s.schedules && s.schedules[row].args == args && row in s.announced && Listed(s, row)
            && s.announced[row] + DelayFor(s, row) <= now
            && row !in Step(s, act, now).schedules
  {
    var (row, args) := Delayed(s, act).value;
    assert RowInv(s.rails, row, s.schedules[row], s.announced[row]);
    if row.scope.Whole? {
      AccountRowsHonour(s, now, row);
    }
    OnlyAnnouncingAdds(s, act, now, row);
  }

  /** The table of announcements after a call, its own announcement spent. */
  function TableAfter(w: State, act: Action, now: u64): Schedules
    requires Permitted(w, act, now)
  {
    match act
    case DoSetGuardRail(ad, rail) =>
      if rail.Some? && !Loosens(w, ad, rail) then Retimed(w, ad, Armed(w, ad, rail.value, now), now)
      else ClearedAll(w.schedules, ad)
    case DoDisarmClosedAd(_, ad, _) => ClearedAll(w.schedules, ad)
    case DoSchedule(scope, fn, args) =>
      var a := Announcement(w, scope, fn, args).value;
      w.schedules[Row(scope, fn) := Schedule(a.committed, now + a.delay, now + a.delay + a.window)]
    case DoCancel(row) => w.schedules - {row}
    case _ => w.schedules
  }

  lemma TableMoves(s: State, act: Action, now: u64)
    requires Accepted(s, act, now)
    ensures var w := Without(s, Delayed(s, act));
            && Permitted(w, act, now) && Step(s, act, now).schedules == TableAfter(w, act, now)
            && Step(s, act, now).announced
               == (if act.DoSchedule? then s.announced[Row(act.scope, act.fn) := now] else s.announced)
  {
    SpendingPermits(s, act, now);
    EffectOnTable(Without(s, Delayed(s, act)), act, now);
  }

  lemma EffectOnTable(w: State, act: Action, now: u64)
    requires Permitted(w, act, now)
    ensures Effect(w, act, now).schedules == TableAfter(w, act, now)
    ensures Effect(w, act, now).announced
         == (if act.DoSchedule? then w.announced[Row(act.scope, act.fn) := now] else w.announced)
  {
    if act.DoSetGuardRail? {
      RailOnTable(w, act.ad, act.rail, now);
    } else if act.DoCall? {
      CallOnTable(w, act.fn, act.args, now);
    }
  }

  lemma RailOnTable(w: State, ad: AdId, rail: Option<GuardRail>, now: u64)
    requires RailPermitted(w, ad, rail, now)
    ensures var n := if rail.Some? then RailSet(w, ad, rail.value, now) else Disarmed(w, ad);
            && n.announced == w.announced
            && n.schedules
               == (if rail.Some? && !Loosens(w, ad, rail) then Retimed(w, ad, Armed(w, ad, rail.value, now), now)
                   else ClearedAll(w.schedules, ad))
  {
  }

  lemma CallOnTable(w: State, fn: Fn, args: Args, now: u64)
    ensures Called(w, fn, args, now).schedules == w.schedules && Called(w, fn, args, now).announced == w.announced
  {
  }

  lemma TableAdds(w: State, act: Action, now: u64, row: Row)
    requires Permitted(w, act, now) && row in TableAfter(w, act, now)
    ensures row in w.schedules || (act.DoSchedule? && row == Row(act.scope, act.fn))
  {
    if act.DoSetGuardRail? && act.rail.Some? && !Loosens(w, act.ad, act.rail) {
      assert Retimed(w, act.ad, Armed(w, act.ad, act.rail.value, now), now).Keys == w.schedules.Keys;
    }
  }

  /** A row is in the table after a call only if it was there and not spent, or was announced by it. */
  lemma OnlyAnnouncingAdds(s: State, act: Action, now: u64, row: Row)
    requires Accepted(s, act, now)
    ensures row in Step(s, act, now).schedules ==>
      (act.DoSchedule? && row == Row(act.scope, act.fn))
      || (row in s.schedules && !(Delayed(s, act).Some? && Delayed(s, act).value.0 == row))
  {
    TableMoves(s, act, now);
    if row in Step(s, act, now).schedules {
      TableAdds(Without(s, Delayed(s, act)), act, now, row);
    }
  }

  /** Until it is announced anew, a pending row keeps its arguments and its announcement, and its
      opening never moves earlier: no call by anyone hurries it. */
  lemma RowNeverHurried(s: State, act: Action, now: u64, row: Row)
    requires Inv(s, now) && row in s.schedules && row in Step(s, act, now).schedules
    requires !(act.DoSchedule? && row == Row(act.scope, act.fn))
    ensures var n := Step(s, act, now);
            && n.schedules[row].args == s.schedules[row].args
            && row in n.announced && n.announced[row] == s.announced[row]
            && s.schedules[row].readyAt <= n.schedules[row].readyAt
  {
    if Accepted(s, act, now) {
      TableMoves(s, act, now);
      assert RowInv(s.rails, row, s.schedules[row], s.announced[row]);
      TableKeepsRow(Without(s, Delayed(s, act)), act, now, row);
    }
  }

  lemma TableKeepsRow(w: State, act: Action, now: u64, row: Row)
    requires Permitted(w, act, now) && row in TableAfter(w, act, now) && row.fn in ActionsFor(row.scope)
    requires !(act.DoSchedule? && row == Row(act.scope, act.fn))
    ensures row in w.schedules
    ensures var x := TableAfter(w, act, now)[row];
            x.args == w.schedules[row].args && w.schedules[row].readyAt <= x.readyAt
  {
    if act.DoSetGuardRail? && act.rail.Some? && !Loosens(w, act.ad, act.rail) {
      TableAdds(w, act, now, row);
      RetimedKeepsRow(w, act.ad, Armed(w, act.ad, act.rail.value, now), now, row);
    } else {
      OthersKeepRow(w, act, now, row);
    }
  }

  lemma RetimedKeepsRow(w: State, ad: AdId, armed: GuardRail, now: u64, row: Row)
    requires ClockFits(w, ad, armed.delay, now) && row in w.schedules && row.fn in ActionsFor(row.scope)
    ensures var t := Retimed(w, ad, armed, now);
            row in t && t[row].args == w.schedules[row].args && w.schedules[row].readyAt <= t[row].readyAt
  {
    RetimedAt(w, ad, armed, now, row);
  }

  lemma OthersKeepRow(w: State, act: Action, now: u64, row: Row)
    requires Permitted(w, act, now) && row in TableAfter(w, act, now)
    requires !(act.DoSchedule? && row == Row(act.scope, act.fn))
    requires !(act.DoSetGuardRail? && act.rail.Some? && !Loosens(w, act.ad, act.rail))
    ensures row in w.schedules && TableAfter(w, act, now)[row] == w.schedules[row]
  {
  }

  // ---- the account's timelock weakens only through a spent announcement ----

  /** Rails that only grow stricter, on a roster that only grows, impose no less. */
  lemma StricterImposesMore(s: State, n: State, now: u64)
    requires Inv(s, now) && Inv(n, now) && s.roster != []
    requires RailsNoLaxer(s, n)
    ensures n.roster != [] && DelayOf(s) <= DelayOf(n) && WindowOf(n) <= WindowOf(s)
  {
    assert s.roster[0] in n.roster;
    TimelockTotal(s, now);
    TimelockTotal(n, now);
    TimelockBounds(s.rails, s.roster, None, 0, U64_MAX);
    TimelockBounds(n.rails, n.roster, None, 0, U64_MAX);
  }

  /** Does the call loosen or drop a live ad's rail? */
  predicate LoosensSome(s: State, act: Action) {
    act.DoSetGuardRail? && Loosens(s, act.ad, act.rail)
  }

  /** A loosening is always a delayed call. */
  lemma LooseningIsDelayed(s: State, act: Action)
    ensures LoosensSome(s, act) <==> Delayed(s, act).Some? && Delayed(s, act).value.0.fn == SetGuardRail
  {
  }

  /** No other call, of any kind, makes the account's delay shorter, its window longer, or its
      roster empty. */
  lemma NoInstantWeakening(s: State, act: Action, now: u64)
    requires Inv(s, now) && s.roster != [] && !LoosensSome(s, act)
    ensures var n := Step(s, act, now);
            n.roster != [] && DelayOf(s) <= DelayOf(n) && WindowOf(n) <= WindowOf(s)
  {
    StepInv(s, act, now);
    if Accepted(s, act, now) {
      match act {
        case DoDisarmClosedAd(_, ad, _) => ClosedDisarmKeeps(s, ad, now);
        case DoCall(_, _, _, _) => CallKeepsRails(s, act, now); StricterImposesMore(s, Step(s, act, now), now);
        case _ => RailsKeep(s, act, now); StricterImposesMore(s, Step(s, act, now), now);
      }
    }
  }

  /** No rail loosens or goes. */
  predicate RailsNoLaxer(s: State, n: State) {
    forall a :: a in s.rails ==>
      a in n.rails && s.rails[a].delay <= n.rails[a].delay && n.rails[a].window <= s.rails[a].window
  }

  lemma CallKeepsRails(s: State, act: Action, now: u64)
    requires Inv(s, now) && act.DoCall? && Accepted(s, act, now)
    ensures RailsNoLaxer(s, Step(s, act, now))
  {
    SpendingPermits(s, act, now);
    if Delayed(s, act).Some? {
      FewerRowsInv(s, {Delayed(s, act).value.0}, now);
    }
    CalledInv(Without(s, Delayed(s, act)), act.fn, act.args, now);
  }

  lemma RailsKeep(s: State, act: Action, now: u64)
    requires Inv(s, now) && Accepted(s, act, now) && !LoosensSome(s, act)
    requires !act.DoDisarmClosedAd? && !act.DoCall?
    ensures RailsNoLaxer(s, Step(s, act, now))
  {
    SpendingPermits(s, act, now);
  }

  /** Taking the rail off a closed ad at once leaves the account's timelock no weaker. */
  lemma ClosedDisarmKeeps(s: State, ad: AdId, now: u64)
    requires Inv(s, now) && s.roster != []
    requires var all, without := TimelockWithout(s.rails, s.roster, None), TimelockWithout(s.rails, s.roster, Some(ad));
             all.Ok? && without.Ok? && without.value.0 >= all.value.0 && without.value.1 <= all.value.1
    ensures var n := Disarmed(s, ad);
            n.roster != [] && DelayOf(s) <= DelayOf(n) && WindowOf(n) <= WindowOf(s)
  {
    WithoutIsAfter(s.rails, s.roster, ad, 0, U64_MAX);
    TimelockBounds(s.rails, s.roster, None, 0, U64_MAX);
    assert BoundsOk(s.rails[s.roster[0]]);
  }

  // ---- runs ----

  datatype Call = Call(now: u64, act: Action)

  predicate Timed(from: u64, calls: seq<Call>)
    decreases calls
  {
    calls == [] || (from <= calls[0].now && Timed(calls[0].now, calls[1..]))
  }

  function EndTime(from: u64, calls: seq<Call>): u64
    decreases calls
  {
    if calls == [] then from else EndTime(calls[0].now, calls[1..])
  }

  function Run(s: State, calls: seq<Call>): State
    decreases calls
  {
    if calls == [] then s else Run(Step(s, calls[0].act, calls[0].now), calls[1..])
  }

  function NewAccount(self: Address, targets: seq<Address>): State {
    State(self, targets, map[], map[], map[], [], map[], map[])
  }

  /** Every run keeps the invariant. */
  lemma {:induction false} RunInv(s: State, from: u64, calls: seq<Call>)
    requires Inv(s, from) && Timed(from, calls)
    ensures Inv(Run(s, calls), EndTime(from, calls))
    decreases calls
  {
    if calls != [] {
      ClockInv(s, from, calls[0].now);
      StepInv(s, calls[0].act, calls[0].now);
      RunInv(Step(s, calls[0].act, calls[0].now), calls[0].now, calls[1..]);
    }
  }

  /** Every state a new account can reach has the invariant. */
  lemma ReachableInv(self: Address, targets: seq<Address>, from: u64, calls: seq<Call>)
    requires Timed(from, calls)
    ensures Inv(Run(NewAccount(self, targets), calls), EndTime(from, calls))
  {
    RunInv(NewAccount(self, targets), from, calls);
  }

  /** How often a run spends a row, and how often it announces it. */
  function Spends(s: State, calls: seq<Call>, row: Row): nat
    decreases calls
  {
    if calls == [] then 0
    else
      var c := calls[0];
      (if Accepted(s, c.act, c.now) && Delayed(s, c.act).Some? && Delayed(s, c.act).value.0 == row then 1 else 0)
      + Spends(Step(s, c.act, c.now), calls[1..], row)
  }

  function Announces(s: State, calls: seq<Call>, row: Row): nat
    decreases calls
  {
    if calls == [] then 0
    else
      var c := calls[0];
      (if Accepted(s, c.act, c.now) && c.act.DoSchedule? && Row(c.act.scope, c.act.fn) == row then 1 else 0)
      + Announces(Step(s, c.act, c.now), calls[1..], row)
  }

  /** Each announcement is used at most once, over any run. */
  lemma {:induction false} UsedOnce(s: State, calls: seq<Call>, row: Row)
    ensures Spends(s, calls, row) + (if row in Run(s, calls).schedules then 1 else 0)
         <= Announces(s, calls, row) + (if row in s.schedules then 1 else 0)
    decreases calls
  {
    if calls != [] {
      var c := calls[0];
      UsedOnce(Step(s, c.act, c.now), calls[1..], row);
      if Accepted(s, c.act, c.now) {
        OnlyAnnouncingAdds(s, c.act, c.now, row);
      }
    }
  }

  // ---- nothing delayed happens before the delay ----

  /** An account guarded by at least `d`, with nothing announced before `t0`. */
  ghost predicate Quiet(s: State, t0: u64, d: u64, now: u64) {
    && Inv(s, now) && s.roster != [] && d <= DelayOf(s)
    && forall r :: r in s.schedules ==> t0 <= s.announced[r]
  }

  /** A call that had to be announced, for the account or for an ad as strict as `d`. */
  predicate DelayedBy(s: State, act: Action, d: u64) {
    Delayed(s, act).Some?
    && (var row := Delayed(s, act).value.0;
        row.scope.Whole? || (row.scope.ad in s.rails && d <= s.rails[row.scope.ad].delay))
  }

  /** Loosening a rail laxer than `d` leaves the account's delay at `d` or more. */
  lemma LaxerRailGoes(s: State, act: Action, now: u64, d: u64)
    requires Inv(s, now) && s.roster != [] && d <= DelayOf(s) && LoosensSome(s, act) && Accepted(s, act, now)
    requires s.rails[act.ad].delay < d
    ensures var n := Step(s, act, now); n.roster != [] && d <= DelayOf(n)
  {
    StepInv(s, act, now);
    SpendingPermits(s, act, now);
    var n := Step(s, act, now);
    TimelockTotal(s, now);
    TimelockBounds(s.rails, s.roster, None, 0, U64_MAX);
    var a :| a in s.roster && s.rails[a].delay == DelayOf(s);
    assert a != act.ad;
    OthersExactly(s.roster, act.ad);
    assert a in n.roster && n.rails[a] == s.rails[a];
    TimelockTotal(n, now);
    TimelockBounds(n.rails, n.roster, None, 0, U64_MAX);
  }

  lemma QuietStep(s: State, t0: u64, d: u64, act: Action, now: u64)
    requires Quiet(s, t0, d, now) && t0 <= now < t0 + d
    ensures Accepted(s, act, now) ==> !DelayedBy(s, act, d)
    ensures Quiet(Step(s, act, now), t0, d, now)
  {
    StepInv(s, act, now);
    if Accepted(s, act, now) {
      if Delayed(s, act).Some? {
        SpentWasAnnounced(s, act, now);
      }
      if LoosensSome(s, act) {
        LaxerRailGoes(s, act, now, d);
      } else {
        NoInstantWeakening(s, act, now);
      }
      forall r | r in Step(s, act, now).schedules ensures t0 <= Step(s, act, now).announced[r] {
        NoOlderRow(s, t0, act, now, r);
      }
    }
  }

  lemma NoOlderRow(s: State, t0: u64, act: Action, now: u64, r: Row)
    requires Inv(s, now) && Accepted(s, act, now) && t0 <= now && r in Step(s, act, now).schedules
    requires forall x :: x in s.schedules ==> t0 <= s.announced[x]
    ensures r in Step(s, act, now).announced && t0 <= Step(s, act, now).announced[r]
  {
    OnlyAnnouncingAdds(s, act, now, r);
    if act.DoSchedule? && r == Row(act.scope, act.fn) {
      TableMoves(s, act, now);
    } else {
      RowNeverHurried(s, act, now, r);
    }
  }

  /** A call that must wait, for the account or for an ad as strict as `d`. */
  predicate MustWaitFor(s: State, act: Action, d: u64) {
    MustWait(s, act)
    && (var scope := MustAnnounce(act).0.scope;
        scope.Ad? ==> scope.ad in s.rails && d <= s.rails[scope.ad].delay)
  }

  /** A call that must wait, and is accepted, waited: it was announced with its own arguments at least the
      delay in force now before, its window has not closed, and its announcement is used up. */
  lemma GuardedCallsWaited(s: State, act: Action, now: u64)
    requires Inv(s, now) && s.roster != [] && MustWait(s, act) && Accepted(s, act, now)
    ensures var (row, args) := MustAnnounce(act);
            && row in s.schedules && s.schedules[row].args == args && now < s.schedules[row].expiresAt
            && row in s.announced && Listed(s, row) && s.announced[row] + DelayFor(s, row) <= now
            && row !in Step(s, act, now).schedules
  {
    GuardedCallsAreAnnounced(s, act, now);
    SpentWasAnnounced(s, act, now);
  }

  /** The theorem: from the moment nothing is pending, whoever holds the owner's key can, before the
      account's delay has passed, make no call that must wait, for the account or on an ad as strict:
      no sweep, upgrade or resume, no new target, wider limit or wider policy, no relaxed rail, no close,
      signer change or over-threshold move; whatever sequence of calls is tried. And the delay itself
      stands throughout. */
  lemma {:induction false} NothingBeforeTheDelay(s: State, t0: u64, d: u64, from: u64, calls: seq<Call>, i: nat)
    requires Quiet(s, t0, d, from) && t0 <= from && Timed(from, calls) && EndTime(from, calls) < t0 + d
    requires i < |calls|
    ensures var before := Run(s, calls[..i]);
            && before.roster != [] && d <= DelayOf(before)
            && (Accepted(before, calls[i].act, calls[i].now) ==> !MustWaitFor(before, calls[i].act, d))
    decreases calls
  {
    var c := calls[0];
    TimedEnds(c.now, calls[1..]);
    ClockInv(s, from, c.now);
    QuietStep(s, t0, d, c.act, c.now);
    if i == 0 {
      assert calls[..0] == [];
      if MustWait(s, c.act) && Accepted(s, c.act, c.now) {
        WaitsByRule(s, c.act, c.now, d);
      }
    } else {
      assert calls[..i][1..] == calls[1..][..i - 1];
      NothingBeforeTheDelay(Step(s, c.act, c.now), t0, d, c.now, calls[1..], i - 1);
    }
  }

  lemma WaitsByRule(s: State, act: Action, now: u64, d: u64)
    requires s.roster != [] && Accepted(s, act, now) && MustWait(s, act)
    ensures MustWaitFor(s, act, d) ==> DelayedBy(s, act, d)
  {
    GuardedCallsAreAnnounced(s, act, now);
  }

  lemma {:induction false} TimedEnds(from: u64, calls: seq<Call>)
    requires Timed(from, calls)
    ensures from <= EndTime(from, calls)
    decreases calls
  {
    if calls != [] {
      TimedEnds(calls[0].now, calls[1..]);
    }
  }
}
