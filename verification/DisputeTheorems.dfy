/** What a dispute's parties can rely on, over every run of the module. */
module DisputeTheorems {
  import opened Numbers
  import opened Wrappers
  import opened Orders
  import opened Disputes
  import opened DisputeInvariants

  // ---- the bond always has an exit, and takes it once ----

  /** The escrow that opened a dispute can always close it: no token, pool or ledger can strand a bond. */
  lemma BondHasAnExit(s: State, o: Order, outcome: Outcome, filerIsBridger: bool, returnToFiler: bool, pays: bool, now: u64)
    requires Inv(s) && o in s.disputes
    ensures Accepted(s, Settle(s.disputes[o].escrow, o, outcome, filerIsBridger, returnToFiler, pays), now)
  {
    EachIsHeld(s, o, BondTo(s, o, outcome, filerIsBridger, returnToFiler), s.disputes[o].bondToken);
    assert Conserved(s, s.disputes[o].bondToken);
  }

  /** A settlement closes the record and gives the whole bond to one party, the filer or the pool, by
      transfer or by credit, and changes nothing owed to anyone else. */
  lemma SettleRoutesTheBond(s: State, act: Action, now: u64, who: Address, token: Asset)
    requires Inv(s) && act.Settle? && Accepted(s, act, now)
    ensures var d, to := s.disputes[act.order], BondTo(s, act.order, act.outcome, act.filerIsBridger, act.returnToFiler);
            var n := Step(s, act, now);
            && act.order !in n.disputes
            && (to == d.initiator || Some(to) == s.settings.feePool)
            && Owed(n.money, who, token) - Owed(s.money, who, token)
               == (if who == to && token == d.bondToken && !act.pays then d.bond else 0)
            && Get(n.money.holdings, token) - Get(s.money.holdings, token)
               == (if token == d.bondToken && act.pays && to != s.self then 0 - d.bond else 0)
  {
    var d := s.disputes[act.order];
    EachIsHeld(s, act.order, who, d.bondToken);
    assert RecordInv(s.self, d, RuledAt(s, act.order));
    assert Settled(s, act.order, BondTo(s, act.order, act.outcome, act.filerIsBridger, act.returnToFiler), act.pays)
        == Step(s, act, now);
  }

  /** A credit can always be drawn in full by its owner, is then gone, and no one else's moves. */
  lemma ClaimPaysTheCredit(s: State, who: Address, token: Asset, other: Address, otherToken: Asset, now: u64)
    requires Inv(s) && 0 < Owed(s.money, who, token)
    ensures var n := Step(s, ClaimToken(who, token, true), now);
            && Accepted(s, ClaimToken(who, token, true), now)
            && Owed(n.money, other, otherToken)
               == (if (other, otherToken) == (who, token) then 0 else Owed(s.money, other, otherToken))
            && (who != s.self ==>
                  Get(n.money.holdings, token) == Get(s.money.holdings, token) - Owed(s.money, who, token))
  {
    Solvent(s, token);
    CreditHeld(s, who, token);
  }

  lemma CreditHeld(s: State, who: Address, token: Asset)
    requires Inv(s)
    ensures Owed(s.money, who, token) <= Get(s.money.holdings, token)
  {
    if o :| o in s.disputes {
      EachIsHeld(s, o, who, token);
    } else {
      var any := Order(0, 0, 0, 0, 0, 0, 0, 0, 0, 0, 0, 0, 0, 0, 0, 0, 0);
      EachIsHeld(s, any, who, token);
    }
  }

  // ---- runs ----

  datatype Call = Call(now: u64, act: Action)

  function Run(s: State, calls: seq<Call>): State
    decreases calls
  {
    if calls == [] then s else Run(Step(s, calls[0].act, calls[0].now), calls[1..])
  }

  lemma {:induction false} RunInv(s: State, calls: seq<Call>)
    requires Inv(s)
    ensures Inv(Run(s, calls))
    decreases calls
  {
    if calls != [] {
      StepInv(s, calls[0].act, calls[0].now);
      RunInv(Step(s, calls[0].act, calls[0].now), calls[1..]);
    }
  }

  function Filings(s: State, calls: seq<Call>, o: Order): nat
    decreases calls
  {
    if calls == [] then 0
    else
      var c := calls[0];
      (if c.act.Open? && c.act.order == o && Accepted(s, c.act, c.now) then 1 else 0)
      + Filings(Step(s, c.act, c.now), calls[1..], o)
  }

  function Settlements(s: State, calls: seq<Call>, o: Order): nat
    decreases calls
  {
    if calls == [] then 0
    else
      var c := calls[0];
      (if c.act.Settle? && c.act.order == o && Accepted(s, c.act, c.now) then 1 else 0)
      + Settlements(Step(s, c.act, c.now), calls[1..], o)
  }

  /** Every bond leaves at most once, and a record is open exactly while its bond has not left. */
  lemma {:induction false} BondLeavesOnce(s: State, calls: seq<Call>, o: Order)
    ensures Filings(s, calls, o) + (if o in s.disputes then 1 else 0)
         == Settlements(s, calls, o) + (if o in Run(s, calls).disputes then 1 else 0)
    decreases calls
  {
    if calls != [] {
      BondLeavesOnce(Step(s, calls[0].act, calls[0].now), calls[1..], o);
      RecordMoves(s, calls[0].act, calls[0].now, o);
    }
  }

  /** Only a filing opens a record and only a settlement closes it; in between, the filer, the bond,
      the escrow, the order's own clock and a recorded response stand. */
  lemma RecordMoves(s: State, act: Action, now: u64, o: Order)
    ensures var n := Step(s, act, now);
            && (o in n.disputes <==>
                  (act.Open? && act.order == o && Accepted(s, act, now))
                  || (o in s.disputes && !(act.Settle? && act.order == o && Accepted(s, act, now))))
            && (o in s.disputes && o in n.disputes ==> Stands(s.disputes[o], n.disputes[o]))
            && (act.Open? && Accepted(s, act, now) ==> act.order !in s.disputes)
            && (act.Settle? && Accepted(s, act, now) ==> act.order in s.disputes)
  {
  }

  /** What no call changes in an open record. */
  predicate Stands(was: Dispute, later: Dispute) {
    && later.initiator == was.initiator && later.bond == was.bond && later.bondToken == was.bondToken
    && later.escrow == was.escrow && later.initiatorEvidence == was.initiatorEvidence
    && later.orderDeadline == was.orderDeadline && later.buffer == was.buffer
    && (was.responderEvidence != NO_EVIDENCE ==> later.responderEvidence == was.responderEvidence)
  }

  /** A recorded response is never overwritten, whatever is called, until the dispute is settled. */
  lemma {:induction false} ResponseStands(s: State, calls: seq<Call>, o: Order)
    requires o in s.disputes && Settlements(s, calls, o) == 0
    ensures o in Run(s, calls).disputes && Stands(s.disputes[o], Run(s, calls).disputes[o])
    decreases calls
  {
    if calls != [] {
      RecordMoves(s, calls[0].act, calls[0].now, o);
      ResponseStands(Step(s, calls[0].act, calls[0].now), calls[1..], o);
    }
  }

  /** No deadline is early: an open dispute cannot be over before the order's own deadline and buffer,
      nor, once ruled, before its last ruling and buffer; and only evidence means the trade proceeds. */
  lemma NoEarlyDeadline(s: State, calls: seq<Call>, o: Order)
    requires Inv(s) && o in Run(s, calls).disputes
    ensures var n := Run(s, calls);
            var d := n.disputes[o];
            && d.orderDeadline + d.buffer <= d.challengeDeadline
            && (d.ruling != NoRuling ==> o in n.ruledAt && n.ruledAt[o] + d.buffer <= d.challengeDeadline)
            && !d.ruling.TradeProceeds?
  {
    RunInv(s, calls);
  }

  // ---- what is owed to nobody ----

  /** What a call leaves the module holding that it owes nobody: a gift, or what it was owed for and
      sent to itself. */
  function Stray(s: State, act: Action, token: Asset): int {
    match act
    case Donate(t, gift) => if t == token then gift else 0
    case Settle(_, o, out, fb, rf, pays) =>
      if o in s.disputes && s.disputes[o].bondToken == token && Pays(s, o, pays) && BondTo(s, o, out, fb, rf) == s.self
      then s.disputes[o].bond else 0
    case Claim(who, _) => if who == s.self && s.money.wNative == Some(token) then Owed(s.money, who, token) else 0
    case ClaimToken(who, t, _) => if who == s.self && t == token then Owed(s.money, who, token) else 0
    case _ => 0
  }

  /** The calls that do, by what a caller sees before them: a gift of something, a settlement whose
      party is the module itself (only a fee pool can be) and that the token lets through, a claim for
      the module itself. */
  predicate Strays(s: State, act: Action, token: Asset) {
    match act
    case Donate(t, gift) => t == token && gift > 0
    case Settle(_, o, out, fb, rf, pays) =>
      && o in s.disputes && s.disputes[o].bondToken == token && pays
      && s.settings.feePool == Some(s.self) && !BondReturns(out, fb, rf)
    case Claim(who, _) => who == s.self && s.money.wNative == Some(token)
    case ClaimToken(who, t, _) => who == s.self && t == token
    case _ => false
  }

  lemma SettledSurplus(s: State, o: Order, to: Address, pays: bool, token: Asset)
    requires Inv(s) && o in s.disputes
    ensures Get(Settled(s, o, to, pays).money.surplus, token)
         == Get(s.money.surplus, token)
            + (if Pays(s, o, pays) && to == s.self && s.disputes[o].bondToken == token then s.disputes[o].bond else 0)
    ensures Pays(s, o, pays) == pays && s.disputes[o].bond > 0 && s.disputes[o].initiator != s.self
  {
    assert RecordInv(s.self, s.disputes[o], RuledAt(s, o));
    EachIsHeld(s, o, to, token);
  }

  /** The surplus moves by exactly what a call strays, which is something exactly for those calls. */
  lemma SurplusMoves(s: State, act: Action, now: u64, token: Asset)
    requires Inv(s) && Accepted(s, act, now)
    ensures Get(Step(s, act, now).money.surplus, token) == Get(s.money.surplus, token) + Stray(s, act, token)
    ensures 0 <= Stray(s, act, token) && (0 < Stray(s, act, token) <==> Strays(s, act, token))
  {
    if act.Settle? {
      SettledSurplus(s, act.order, BondTo(s, act.order, act.outcome, act.filerIsBridger, act.returnToFiler), act.pays, token);
    }
  }

  function StrayInRun(s: State, calls: seq<Call>, token: Asset): int
    decreases calls
  {
    if calls == [] then 0
    else
      var c := calls[0];
      (if Accepted(s, c.act, c.now) then Stray(s, c.act, token) else 0)
      + StrayInRun(Step(s, c.act, c.now), calls[1..], token)
  }

  /** No accepted call of the run strays. */
  predicate NoneStrays(s: State, calls: seq<Call>, token: Asset)
    decreases calls
  {
    calls == []
    || (!(Accepted(s, calls[0].act, calls[0].now) && Strays(s, calls[0].act, token))
        && NoneStrays(Step(s, calls[0].act, calls[0].now), calls[1..], token))
  }

  lemma {:induction false} SurplusIsStray(s: State, calls: seq<Call>, token: Asset)
    requires Inv(s)
    ensures Get(Run(s, calls).money.surplus, token) == Get(s.money.surplus, token) + StrayInRun(s, calls, token)
    ensures 0 <= StrayInRun(s, calls, token) && (StrayInRun(s, calls, token) == 0 <==> NoneStrays(s, calls, token))
    decreases calls
  {
    if calls != [] {
      var c := calls[0];
      StepInv(s, c.act, c.now);
      if Accepted(s, c.act, c.now) {
        SurplusMoves(s, c.act, c.now, token);
      }
      SurplusIsStray(Step(s, c.act, c.now), calls[1..], token);
    }
  }

  /** Bond conservation over a new module's whole life: what it holds of a token is its open bonds and
      its credits in it and exactly what strayed. So holdings are the bonds and credits to the unit if
      and only if no accepted call of the run was a gift or paid the module itself. */
  lemma HoldingsAccountedFor(self: Address, calls: seq<Call>, token: Asset)
    ensures var s := Run(New(self), calls);
            && Get(s.money.holdings, token)
               == OpenBonds(s, token) + Credits(s.money, token) + StrayInRun(New(self), calls, token)
            && (Get(s.money.holdings, token) == OpenBonds(s, token) + Credits(s.money, token)
                <==> NoneStrays(New(self), calls, token))
  {
    NewInv(self);
    RunInv(New(self), calls);
    SurplusIsStray(New(self), calls, token);
    assert Conserved(Run(New(self), calls), token);
  }
}
