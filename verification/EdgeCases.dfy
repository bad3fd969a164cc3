/** Where the contracts do less than their descriptions say, each with an input and the exact condition. */
module EdgeCases {
  import opened Numbers
  import opened Wrappers
  import opened Orders
  import E = Escrow
  import C = EscrowClocks
  import M = EscrowMoney
  import ET = EscrowTheorems
  import D = Disputes
  import I = DisputeInvariants
  import DT = DisputeTheorems
  import A = Account
  import L = Timelock
  import TI = TimelockInvariants
  import X = GraceExample

  // ---- the escrow's own money: exact while nothing strays (`EscrowTheorems.HoldingsAccountedFor`) ----

  const TO_ITSELF: E.Action := E.WithdrawFromAd(1, 400, X.ESCROW)

  lemma FundedWithdraws()
    ensures E.CanWithdraw(X.FUNDED.escrow, 1, 400, X.YES)
    ensures ET.Stray(X.FUNDED.escrow, TO_ITSELF, 3) == 400
    ensures E.Get(E.Step(X.FUNDED.escrow, TO_ITSELF, X.YES, X.START).money.holdings, 3) == 1000
    ensures E.Get(X.FUNDED.escrow.money.surplus, 3) == 0 && X.FUNDED.escrow.wNative == 7
  {
  }

  /** A maker may withdraw to the escrow itself: out of an ad of 1000, 400 leave its balance and nothing
      leaves the escrow, which then holds 1000 and owes 600. */
  lemma SelfWithdrawalStrays()
    ensures X.Good(X.FUNDED, X.START) && E.Accepted(X.FUNDED.escrow, TO_ITSELF, X.YES, X.START)
    ensures var n := E.Step(X.FUNDED.escrow, TO_ITSELF, X.YES, X.START);
            && E.Get(n.money.holdings, 3) == 1000
            && M.Balances(n.book.ads, n.wNative, 3) + M.Credits(n.money, n.wNative, 3) == 600
  {
    X.AdIsFunded();
    FundedWithdraws();
    ET.SurplusMoves(X.FUNDED.escrow, TO_ITSELF, X.YES, X.START, 3);
    M.StepInv(X.FUNDED.escrow, TO_ITSELF, X.YES, X.START);
    var n := E.Step(X.FUNDED.escrow, TO_ITSELF, X.YES, X.START);
    assert M.Conserved(n.book.ads, n.money, n.wNative, 3);
  }

  // ---- the dispute module's: exact while nothing strays (`DisputeTheorems.HoldingsAccountedFor`) ----

  const MODULE: Address := ContractAddress(200)
  const FILER: Address := AccountAddress(32)
  const ROUTE: D.Params := D.Params(3600, 50)

  const FILING: D.Action := D.Open(X.ESCROW, X.ORDER, X.CHAIN, FILER, 1, X.DEADLINE, 1800, 3, 1000, Some(50))
  const SETTLING: D.Action := D.Settle(X.ESCROW, X.ORDER, BridgerForfeit, true, false, true)

  /** A module whose fee pool is itself, with one bond of 50 filed by the order's recipient. */
  const CALLS: seq<DT.Call> := [
    DT.Call(X.START, D.Initialize(7)),
    DT.Call(X.START, D.SetEscrow(X.ESCROW, true)),
    DT.Call(X.START, D.SetParams(X.CHAIN, ROUTE)),
    DT.Call(X.START, D.SetFeePool(MODULE)),
    DT.Call(X.START, FILING),
    DT.Call(X.START, SETTLING)]

  const SET_UP: D.State :=
    D.State(MODULE, D.Settings({X.ESCROW}, None, Some(MODULE), map[X.CHAIN := ROUTE], map[]), map[], map[],
            D.Money(Some(7), map[], map[], map[], map[]))

  const FILED: D.State :=
    SET_UP.(disputes := map[X.ORDER := D.Dispute(FILER, 50, 6400, 1, D.NO_EVIDENCE, NoRuling, X.ESCROW, X.DEADLINE, 1800, 7)],
            money := SET_UP.money.(holdings := map[7 := 50]))

  lemma Unrolls(s: D.State, i: nat, token: Asset)
    requires i < |CALLS|
    ensures var n := D.Step(s, CALLS[i].act, CALLS[i].now);
            && DT.Run(s, CALLS[i..]) == DT.Run(n, CALLS[i + 1..])
            && (DT.NoneStrays(s, CALLS[i..], token) <==>
                  !(D.Accepted(s, CALLS[i].act, CALLS[i].now) && DT.Strays(s, CALLS[i].act, token))
                  && DT.NoneStrays(n, CALLS[i + 1..], token))
  {
    assert CALLS[i..][0] == CALLS[i] && CALLS[i..][1..] == CALLS[i + 1..];
  }

  lemma SetUpSteps()
    ensures var s1 := D.Step(D.New(MODULE), D.Initialize(7), X.START);
            var s2 := D.Step(s1, D.SetEscrow(X.ESCROW, true), X.START);
            var s3 := D.Step(s2, D.SetParams(X.CHAIN, ROUTE), X.START);
            D.Step(s3, D.SetFeePool(MODULE), X.START) == SET_UP
  {
  }

  lemma SetUpIsReached()
    ensures DT.Run(D.New(MODULE), CALLS) == DT.Run(SET_UP, CALLS[4..])
    ensures DT.NoneStrays(D.New(MODULE), CALLS, 7) ==> DT.NoneStrays(SET_UP, CALLS[4..], 7)
  {
    SetUpSteps();
    var s1 := D.Step(D.New(MODULE), CALLS[0].act, X.START);
    var s2 := D.Step(s1, CALLS[1].act, X.START);
    var s3 := D.Step(s2, CALLS[2].act, X.START);
    assert CALLS[0..] == CALLS;
    Unrolls(D.New(MODULE), 0, 7);
    Unrolls(s1, 1, 7);
    Unrolls(s2, 2, 7);
    Unrolls(s3, 3, 7);
  }

  lemma BondIsFiled()
    ensures D.Accepted(SET_UP, FILING, X.START) && D.Step(SET_UP, FILING, X.START) == FILED
  {
  }

  lemma BondStays()
    ensures D.Accepted(FILED, SETTLING, X.START) && DT.Strays(FILED, SETTLING, 7)
    ensures var n := D.Step(FILED, SETTLING, X.START);
            n.settings == SET_UP.settings && n.self == MODULE && n.disputes == map[] && n.money.holdings == map[7 := 50]
  {
  }

  /** A fee pool that is the module itself breaks exact conservation at the first bond it is paid: the
      token moves nothing, so the module then holds 50 that it owes nobody. */
  lemma PoolIsItself()
    ensures var s := DT.Run(D.New(MODULE), CALLS);
            && s.settings.feePool == Some(s.self) && X.ORDER !in s.disputes
            && D.Get(s.money.holdings, 7) == 50
            && D.Get(s.money.holdings, 7) != I.OpenBonds(s, 7) + I.Credits(s.money, 7)
  {
    SetUpIsReached();
    BondIsFiled();
    BondStays();
    DT.HoldingsAccountedFor(MODULE, CALLS, 7);
    Unrolls(SET_UP, 4, 7);
    Unrolls(FILED, 5, 7);
  }

  // ---- a verifier gap within the lock's own second ----

  /** A call that wires a chain's verifier anew, or unwires it. */
  predicate Rewires(act: E.Action, chain: ChainId) {
    match act
    case Admin(RootVerifier(c, _)) => c == chain
    case Admin(UnsetRootVerifier(c)) => c == chain
    case _ => false
  }

  predicate RewiredAfter(calls: seq<ET.Call>, chain: ChainId, second: u64) {
    calls != [] && ((Rewires(calls[0].act, chain) && second < calls[0].now) || RewiredAfter(calls[1..], chain, second))
  }

  lemma SettingStamps(w: E.Wiring, g: E.Setting, now: u64, chain: ChainId)
    ensures E.ChangedAt(E.Set(w, g, now), chain)
         == if Rewires(E.Admin(g), chain) then now else E.ChangedAt(w, chain)
  {
  }

  lemma RewiringStamps(s: E.State, act: E.Action, x: E.Answers, now: u64, chain: ChainId)
    ensures E.ChangedAt(E.Step(s, act, x, now).wiring, chain)
         == if Rewires(act, chain) then now else E.ChangedAt(s.wiring, chain)
  {
    if act.Admin? {
      SettingStamps(s.wiring, act.setting, now, chain);
    }
  }

  /** Over any run, the verifier denies an order locked by `from` exactly when its chain has none now, or
      was rewired in a later second than the lock. Not when it was missing at the lock and every rewiring
      came in the lock's own second. */
  lemma {:induction false} VerifierDeniesExactly(
    s: E.State, from: u64, calls: seq<ET.Call>, chain: ChainId, lockedAt: u64)
    requires C.WiringInv(s.wiring, from) && ET.Timed(from, calls) && lockedAt <= from
    ensures var w := ET.Run(s, calls).wiring;
            E.VerifierDenies(w, chain, lockedAt)
            <==> chain !in w.verifiers || E.ChangedAt(s.wiring, chain) > lockedAt || RewiredAfter(calls, chain, lockedAt)
    decreases calls
  {
    if calls != [] {
      var c := calls[0];
      C.StepWiring(s, c.act, c.x, c.now);
      RewiringStamps(s, c.act, c.x, c.now, chain);
      VerifierDeniesExactly(E.Step(s, c.act, c.x, c.now), c.now, calls[1..], chain, lockedAt);
    }
  }

  /** An order locked while its chain has no verifier, which is wired within that second. At its lock it
      is denied; after, it is not, and nothing shows that it was. */
  lemma SameSecondGapIsForgotten()
    ensures X.Good(X.BARE, X.START) && E.RecordOf(X.BARE.escrow.book, X.ORDER).lockedAt == X.START
    ensures E.Step(X.BARE.escrow, E.Admin(E.RootVerifier(X.CHAIN, ContractAddress(50))), X.YES, X.START) == X.LOCKED.escrow
    ensures E.Denied(X.BARE.escrow, AccountAddress(X.MAKER), X.ORDER, X.DEADLINE, X.YES)
    ensures !E.Denied(X.LOCKED.escrow, AccountAddress(X.MAKER), X.ORDER, X.DEADLINE, X.YES)
  {
    X.OrderIsLocked();
    X.VerifierLeaves();
  }

  // ---- disarming an ad that was never guarded ----

  lemma {:induction false} NobodyLeft(roster: seq<A.AdId>, ad: A.AdId)
    requires ad !in roster
    ensures L.Others(roster, ad) == roster
  {
    if roster != [] {
      NobodyLeft(roster[1..], ad);
    }
  }

  /** A disarm needs no announcement exactly when the ad has no rail, and is then refused exactly when
      the roster still names it; with a rail, it needs exactly its matured announcement. */
  lemma DisarmIsInstantExactly(s: L.State, ad: A.AdId, now: u64)
    ensures var act := L.DoSetGuardRail(ad, None);
            && (L.Delayed(s, act).None? <==> ad !in s.rails)
            && (ad !in s.rails ==> (L.Accepted(s, act, now) <==> ad !in s.roster))
            && (ad in s.rails ==>
                  (L.Accepted(s, act, now)
                   <==> L.CanSpend(s.schedules, A.Row(A.Ad(ad), A.SetGuardRail), A.RailArgs(ad, None), now)))
  {
  }

  /** So naming any ad that was never guarded drops every account-wide announcement at once, and only
      those: no other row, rail, bucket or limit changes. */
  lemma DisarmingNothingClears(s: L.State, ad: A.AdId, now: u64)
    requires TI.Inv(s, now) && ad !in s.rails
    ensures var n := L.Step(s, L.DoSetGuardRail(ad, None), now);
            && L.Accepted(s, L.DoSetGuardRail(ad, None), now) && L.Delayed(s, L.DoSetGuardRail(ad, None)).None?
            && n == s.(schedules := n.schedules)
            && (forall row :: row in n.schedules <==> row in s.schedules && !row.scope.Whole?)
            && (forall row :: row in n.schedules ==> n.schedules[row] == s.schedules[row])
  {
    DisarmIsInstantExactly(s, ad, now);
    NobodyLeft(s.roster, ad);
    var t := L.ClearedAll(s.schedules, ad);
    forall row ensures row in t <==> row in s.schedules && !row.scope.Whole? {
      if row in s.schedules {
        assert TI.RowInv(s.rails, row, s.schedules[row], s.announced[row]);
      }
    }
    assert s.rails - {ad} == s.rails;
    assert L.Step(s, L.DoSetGuardRail(ad, None), now) == L.Disarmed(s, ad);
  }
}
