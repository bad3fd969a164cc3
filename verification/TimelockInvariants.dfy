/** What the account's timelock keeps over every run: pending announcements honour the delay and
    window in force now, the timelock weakens only through a spent announcement, and nothing
    delayed happens before the delay has passed. */
module TimelockInvariants {
  import opened Numbers
  import opened Wrappers
  import opened RateLimit
  import opened Account
  import opened Policies
  import opened Timelock

  // ---- the longest delay and the shortest window ----

  /** A folded timelock bounds every rail it covers, and each end is some rail's or the start. */
  lemma {:induction false} TimelockBounds(
    rails: Rails, ads: seq<AdId>, skip: Option<AdId>, delay: u64, window: u64)
    requires TimelockFrom(rails, ads, skip, delay, window).Ok?
    ensures var r := TimelockFrom(rails, ads, skip, delay, window).value;
            && delay <= r.0 && r.1 <= window
            && (forall a :: a in ads && Some(a) != skip ==> a in rails && rails[a].delay <= r.0 && r.1 <= rails[a].window)
            && (r.0 == delay || exists a :: a in ads && Some(a) != skip && a in rails && rails[a].delay == r.0)
            && (r.1 == window || exists a :: a in ads && Some(a) != skip && a in rails && rails[a].window == r.1)
  {
    if ads != [] {
      var a := ads[0];
      assert forall x :: x in ads <==> x == a || x in ads[1..];
      if skip == Some(a) {
        TimelockBounds(rails, ads[1..], skip, delay, window);
      } else {
        TimelockBounds(rails, ads[1..], skip, Max(delay, rails[a].delay), Min(window, rails[a].window));
      }
    }
  }

  lemma {:induction false} TimelockDefined(rails: Rails, ads: seq<AdId>, skip: Option<AdId>, delay: u64, window: u64)
    requires forall a :: a in ads && Some(a) != skip ==> a in rails
    ensures TimelockFrom(rails, ads, skip, delay, window).Ok?
  {
    if ads != [] {
      if skip == Some(ads[0]) {
        TimelockDefined(rails, ads[1..], skip, delay, window);
      } else {
        assert ads[0] in rails;
        TimelockDefined(rails, ads[1..], skip, Max(delay, rails[ads[0]].delay), Min(window, rails[ads[0]].window));
      }
    }
  }

  /** What a disarm is judged by is what it leaves. */
  lemma {:induction false} WithoutIsAfter(rails: Rails, ads: seq<AdId>, ad: AdId, delay: u64, window: u64)
    ensures TimelockFrom(rails, ads, Some(ad), delay, window)
         == TimelockFrom(rails - {ad}, Others(ads, ad), None, delay, window)
  {
    if ads != [] {
      var rest := Others(ads[1..], ad);
      if ads[0] == ad {
        assert Others(ads, ad) == rest;
        WithoutIsAfter(rails, ads[1..], ad, delay, window);
      } else {
        assert Others(ads, ad)[0] == ads[0] && Others(ads, ad)[1..] == rest;
        if ads[0] in rails {
          WithoutIsAfter(rails, ads[1..], ad, Max(delay, rails[ads[0]].delay), Min(window, rails[ads[0]].window));
        }
      }
    }
  }

  lemma {:induction false} OthersExactly(ads: seq<AdId>, ad: AdId)
    ensures forall x :: x in Others(ads, ad) <==> x in ads && x != ad
    ensures |Others(ads, ad)| <= |ads|
  {
    if ads != [] {
      OthersExactly(ads[1..], ad);
      assert forall x :: x in ads <==> x == ads[0] || x in ads[1..];
    }
  }

  // ---- the invariant ----

  /** The roster is exactly the guarded ads, each within bounds. */
  ghost predicate RosterInv(rails: Rails, roster: seq<AdId>) {
    && (forall a :: a in roster <==> a in rails)
    && (forall a :: a in rails ==> BoundsOk(rails[a]))
  }

  /** A pending row opens no earlier than the delay after its announcement, and closes within the
      window of its opening. */
  predicate HonoursRail(x: Schedule, at: u64, g: GuardRail) {
    at + g.delay <= x.readyAt && x.expiresAt <= x.readyAt + g.window
  }

  ghost predicate RowInv(rails: Rails, row: Row, x: Schedule, at: u64) {
    && row.fn in ActionsFor(row.scope)
    && match row.scope
       case Ad(ad) => ad in rails && HonoursRail(x, at, rails[ad])
       case Whole => rails != map[] && forall a :: a in rails ==> HonoursRail(x, at, rails[a])
  }

  ghost predicate TableInv(rails: Rails, t: Schedules, announced: map<Row, u64>, now: u64) {
    forall r :: r in t ==> r in announced && announced[r] <= now && RowInv(rails, r, t[r], announced[r])
  }

  ghost predicate Inv(s: State, now: u64) {
    RosterInv(s.rails, s.roster) && TableInv(s.rails, s.schedules, s.announced, now)
  }

  lemma TimelockTotal(s: State, now: u64)
    requires Inv(s, now) && s.roster != []
    ensures AccountTimelock(s.rails, s.roster).Ok?
  {
    TimelockDefined(s.rails, s.roster, None, 0, U64_MAX);
  }

  /** The longest delay and the shortest window of the account. */
  function DelayOf(s: State): u64 {
    TimelockOr(s.rails, s.roster).0
  }

  function WindowOf(s: State): u64 {
    TimelockOr(s.rails, s.roster).1
  }

  /** The account-wide rows honour the account's own pair: the longest delay, the shortest window. */
  lemma AccountRowsHonour(s: State, now: u64, row: Row)
    requires Inv(s, now) && row in s.schedules && row.scope.Whole?
    ensures s.roster != []
    ensures s.announced[row] + DelayOf(s) <= s.schedules[row].readyAt
    ensures s.schedules[row].expiresAt <= s.schedules[row].readyAt + WindowOf(s)
  {
    var a :| a in s.rails;
    assert a in s.roster;
    TimelockTotal(s, now);
    TimelockBounds(s.rails, s.roster, None, 0, U64_MAX);
  }

  /** A re-timed row, by scope: what happens to the ad's own rows, to the account's, to another ad's. */
  function RetimedRow(s: State, ad: AdId, armed: GuardRail, now: u64, row: Row): Schedule
    requires row in s.schedules
    requires ClockFits(s, ad, armed.delay, now)
  {
    var x := s.schedules[row];
    if row.scope == Ad(ad) then
      var y := if armed.delay > DelayBefore(s, ad) then Later(x, now + armed.delay) else x;
      if armed.window < WindowBefore(s, ad) then Sooner(y, armed.window) else y
    else if row.scope == Whole then
      var y := if armed.delay > DelayOf(s) then Later(x, now + armed.delay) else x;
      var after := AccountTimelock(s.rails[ad := armed], RosterWith(s.roster, ad));
      if after.Ok? && after.value.1 < WindowOf(s) then Sooner(y, after.value.1) else y
    else x
  }

  lemma RetimedAt(s: State, ad: AdId, armed: GuardRail, now: u64, row: Row)
    requires ClockFits(s, ad, armed.delay, now)
    requires row in s.schedules && row.fn in ActionsFor(row.scope)
    ensures var t := Retimed(s, ad, armed, now);
            t.Keys == s.schedules.Keys && t[row] == RetimedRow(s, ad, armed, now, row)
  {
    var before := TimelockOr(s.rails, s.roster);
    var raised := DelaysRaised(s.schedules, ad, armed, DelayBefore(s, ad), before.0, now);
    RaisedAt(s.schedules, ad, armed, DelayBefore(s, ad), before.0, now, row);
    assert raised.Keys == s.schedules.Keys;
  }

  /** A row after its own scope's delay rose. */
  lemma RaisedAt(t: Schedules, ad: AdId, armed: GuardRail, adDelay: u64, accountDelay: u64, now: u64, row: Row)
    requires armed.delay > adDelay || armed.delay > accountDelay ==> now + armed.delay <= U64_MAX
    requires row in t && row.fn in ActionsFor(row.scope)
    ensures var r := DelaysRaised(t, ad, armed, adDelay, accountDelay, now);
            && r.Keys == t.Keys
            && r[row] == (if (row.scope == Ad(ad) && armed.delay > adDelay) || (row.scope.Whole? && armed.delay > accountDelay)
                          then Later(t[row], now + armed.delay) else t[row])
  {
  }

  // ---- each way the rails change ----

  /** An ad row after arming or tightening some ad. */
  lemma AdRowKept(s: State, ad: AdId, armed: GuardRail, now: u64, row: Row)
    requires row in s.schedules && row in s.announced && s.announced[row] <= now && row.scope.Ad?
    requires RowInv(s.rails, row, s.schedules[row], s.announced[row])
    requires ClockFits(s, ad, armed.delay, now) && (ad in s.rails ==> RailTightening(s.rails[ad], armed))
    ensures RowInv(s.rails[ad := armed], row, RetimedRow(s, ad, armed, now, row), s.announced[row])
  {
  }

  /** What an account-wide row owes one rail, before and after. */
  lemma WholeRowKept(
    x: Schedule, at: u64, now: u64, armed: GuardRail, delay: u64, window: u64, after: u64, g: GuardRail)
    requires at <= now && (armed.delay > delay ==> now + armed.delay <= U64_MAX)
    requires at + delay <= x.readyAt && x.expiresAt <= x.readyAt + window
    requires g == armed || HonoursRail(x, at, g)
    requires after <= armed.window
    ensures var y := if armed.delay > delay then Later(x, now + armed.delay) else x;
            HonoursRail(if after < window then Sooner(y, after) else y, at, g)
  {
  }

  lemma ArmedKeepsWhole(s: State, ad: AdId, armed: GuardRail, now: u64, row: Row)
    requires Inv(s, now) && ClockFits(s, ad, armed.delay, now) && row in s.schedules && row.scope.Whole?
    ensures RowInv(s.rails[ad := armed], row, RetimedRow(s, ad, armed, now, row), s.announced[row])
  {
    var x, at, rails := s.schedules[row], s.announced[row], s.rails[ad := armed];
    assert RowInv(s.rails, row, x, at);
    AccountRowsHonour(s, now, row);
    TimelockAfterArming(s, ad, armed, now);
    var after := AccountTimelock(rails, RosterWith(s.roster, ad)).value.1;
    forall a | a in rails ensures HonoursRail(RetimedRow(s, ad, armed, now, row), at, rails[a]) {
      WholeRowKept(x, at, now, armed, DelayOf(s), WindowOf(s), after, rails[a]);
    }
    assert ad in rails;
  }

  /** The window after a rail is written is within every rail's, the new one's included. */
  lemma TimelockAfterArming(s: State, ad: AdId, armed: GuardRail, now: u64)
    requires Inv(s, now)
    ensures var after := AccountTimelock(s.rails[ad := armed], RosterWith(s.roster, ad));
            after.Ok? && after.value.1 <= armed.window && armed.delay <= after.value.0
  {
    var rails, roster := s.rails[ad := armed], RosterWith(s.roster, ad);
    assert ad in roster;
    TimelockDefined(rails, roster, None, 0, U64_MAX);
    TimelockBounds(rails, roster, None, 0, U64_MAX);
  }

  lemma RetimedInv(s: State, ad: AdId, armed: GuardRail, now: u64)
    requires Inv(s, now) && ClockFits(s, ad, armed.delay, now)
    requires ad in s.rails ==> RailTightening(s.rails[ad], armed)
    ensures TableInv(s.rails[ad := armed], Retimed(s, ad, armed, now), s.announced, now)
  {
    var t := Retimed(s, ad, armed, now);
    forall r | r in t
      ensures r in s.announced && s.announced[r] <= now && RowInv(s.rails[ad := armed], r, t[r], s.announced[r])
    {
      assert r in s.schedules;
      assert RowInv(s.rails, r, s.schedules[r], s.announced[r]);
      RetimedAt(s, ad, armed, now, r);
      if r.scope.Whole? {
        ArmedKeepsWhole(s, ad, armed, now, r);
      } else {
        AdRowKept(s, ad, armed, now, r);
      }
    }
  }

  lemma RailSetInv(s: State, ad: AdId, g: GuardRail, now: u64)
    requires Inv(s, now) && RailPermitted(s, ad, Some(g), now)
    ensures Inv(RailSet(s, ad, g, now), now)
  {
    var armed, n := Armed(s, ad, g, now), RailSet(s, ad, g, now);
    if Loosens(s, ad, Some(g)) {
      ClearedKeeps(s, ad, n.rails, now);
    } else {
      RetimedInv(s, ad, armed, now);
    }
  }

  /** Clearing an ad's rows and the account's leaves only other ads' rows, whose rails are untouched. */
  lemma ClearedKeeps(s: State, ad: AdId, rails: Rails, now: u64)
    requires Inv(s, now)
    requires forall a :: a in s.rails && a != ad ==> a in rails && rails[a] == s.rails[a]
    ensures TableInv(rails, ClearedAll(s.schedules, ad), s.announced, now)
  {
    var t := ClearedAll(s.schedules, ad);
    forall r | r in t
      ensures r in s.announced && s.announced[r] <= now && RowInv(rails, r, t[r], s.announced[r])
    {
      assert RowInv(s.rails, r, s.schedules[r], s.announced[r]);
      assert r.scope != Ad(ad) && r.scope != Whole;
    }
  }

  lemma DisarmedInv(s: State, ad: AdId, now: u64)
    requires Inv(s, now)
    ensures Inv(Disarmed(s, ad), now)
  {
    OthersExactly(s.roster, ad);
    ClearedKeeps(s, ad, s.rails - {ad}, now);
  }

  lemma AnnouncedInv(s: State, scope: Scope, fn: Fn, args: Args, now: u64)
    requires Inv(s, now) && CanAnnounce(s, scope, fn, args, now)
    ensures Inv(Effect(s, DoSchedule(scope, fn, args), now), now)
  {
    OnlyListedActions(fn, args);
    if scope.Whole? {
      TimelockBounds(s.rails, s.roster, None, 0, U64_MAX);
      assert s.roster[0] in s.rails;
    }
    var n := Effect(s, DoSchedule(scope, fn, args), now);
    forall r | r in n.schedules
      ensures r in n.announced && n.announced[r] <= now && RowInv(n.rails, r, n.schedules[r], n.announced[r])
    {
      if r != Row(scope, fn) {
        assert RowInv(s.rails, r, s.schedules[r], s.announced[r]);
      }
    }
  }

  /** A row removed, or a rail's bucket drawn on, disturbs no other row. */
  lemma FewerRowsInv(s: State, rows: set<Row>, now: u64)
    requires Inv(s, now)
    ensures Inv(s.(schedules := s.schedules - rows), now)
  {
    forall r | r in s.schedules - rows ensures RowInv(s.rails, r, s.schedules[r], s.announced[r]) {
    }
  }

  lemma CalledInv(s: State, fn: Fn, args: Args, now: u64)
    requires Inv(s, now)
    ensures Inv(Called(s, fn, args, now), now)
    ensures Called(s, fn, args, now).roster == s.roster
    ensures forall a :: a in s.rails ==>
              Called(s, fn, args, now).rails[a].(bucket := s.rails[a].bucket) == s.rails[a]
  {
    var n := Called(s, fn, args, now);
    assert n.schedules == s.schedules && n.announced == s.announced;
    forall r | r in s.schedules ensures RowInv(n.rails, r, s.schedules[r], s.announced[r]) {
      assert RowInv(s.rails, r, s.schedules[r], s.announced[r]);
    }
  }

  /** Every call keeps the invariant: arming, tightening, loosening, disarming, announcing,
      spending, cancelling, and all the calls that leave the table alone. */
  lemma StepInv(s: State, act: Action, now: u64)
    requires Inv(s, now)
    ensures Inv(Step(s, act, now), now)
  {
    if Accepted(s, act, now) {
      var d := Delayed(s, act);
      if d.Some? {
        FewerRowsInv(s, {d.value.0}, now);
      }
      SpendingPermits(s, act, now);
      EffectInv(Without(s, d), act, now);
    }
  }

  lemma EffectInv(s: State, act: Action, now: u64)
    requires Inv(s, now) && Permitted(s, act, now)
    ensures Inv(Effect(s, act, now), now)
  {
    match act {
      case DoSetGuardRail(ad, rail) =>
        if rail.Some? {
          RailSetInv(s, ad, rail.value, now);
        } else {
          DisarmedInv(s, ad, now);
        }
      case DoDisarmClosedAd(_, ad, _) => DisarmedInv(s, ad, now);
      case DoSchedule(scope, fn, args) => AnnouncedInv(s, scope, fn, args, now);
      case DoCancel(row) => FewerRowsInv(s, {row}, now);
      case DoCall(_, fn, args, _) => CalledInv(s, fn, args, now);
      case _ =>
    }
  }

  lemma ClockInv(s: State, now: u64, later: u64)
    requires Inv(s, now) && now <= later
    ensures Inv(s, later)
  {
  }
}
