/** What the arbiter's word does, over runs of the escrow with its dispute modules: the ruling a dispute
    ends on is the arbiter's last since it was filed, and it alone says who gets the lock and the bond. */
module Verdicts {
  import opened Numbers
  import opened Wrappers
  import opened Orders
  import opened Arbitration
  import E = Escrow
  import B = EscrowBook
  import C = EscrowClocks
  import M = EscrowMoney
  import ER = EscrowRules
  import EO = EscrowOutcomes
  import T = EscrowTheorems
  import D = Disputes
  import I = DisputeInvariants
  import DO = DisputeOutcomes

  /** An order's ruling after a step: none once filed, the arbiter's when it rules at the module the order
      was filed with, else what it was. */
  function RulingStep(sys: System, e: Event, now: u64, o: Order, ruling: Outcome): Outcome {
    match e
    case OnModule(at, call) =>
      if o in sys.escrow.modules && at == sys.escrow.modules[o] && call.Resolve? && call.order == o
         && D.Accepted(ModuleAt(sys, at), call, now)
      then call.outcome else ruling
    case OnEscrow(act, x, _, _, _) =>
      if act.Dispute? && act.order == o && E.Accepted(sys.escrow, act, x, now) then NoRuling else ruling
  }

  /** The ruling on file of a disputed order. */
  predicate RuledAs(sys: System, o: Order, ruling: Outcome) {
    E.StatusOf(sys.escrow.book, o).Disputed? && o in sys.escrow.modules && o in FiledWith(sys, o).disputes ==>
      FiledWith(sys, o).disputes[o].ruling == ruling
  }

  /** A module call on a record already there: only an accepted ruling of it changes its ruling. */
  lemma RecordRules(m: D.State, call: D.Action, now: u64, o: Order)
    requires o in m.disputes && o in D.Step(m, call, now).disputes
    ensures D.Step(m, call, now).disputes[o].ruling
         == if call.Resolve? && call.order == o && D.Accepted(m, call, now) then call.outcome else m.disputes[o].ruling
  {
    DO.OnlyTheArbiterRules(m, call, now, o, m.disputes[o].ruling);
  }

  lemma FiledAfter(sys: System, at: Address, call: D.Action, now: u64, o: Order)
    requires o in sys.escrow.modules
    ensures FiledWith(WithCall(sys, at, call, now), o)
         == if at == sys.escrow.modules[o] then D.Step(FiledWith(sys, o), call, now) else FiledWith(sys, o)
  {
  }

  lemma ModuleRules(sys: System, at: Address, call: D.Action, now: u64, o: Order, ruling: Outcome)
    requires FileInv(sys, o) && RuledAs(sys, o, ruling)
    ensures RuledAs(WithCall(sys, at, call, now), o, RulingStep(sys, OnModule(at, call), now, o, ruling))
  {
    if E.StatusOf(sys.escrow.book, o).Disputed? {
      FiledAfter(sys, at, call, now, o);
      if at == sys.escrow.modules[o] && o in D.Step(FiledWith(sys, o), call, now).disputes {
        RecordRules(FiledWith(sys, o), call, now, o);
      }
    }
  }

  lemma FilingUnruled(sys: System, e: Event, now: u64, o: Order)
    requires Inv(sys, now) && Honest(sys, e, now) && e.OnEscrow? && e.act.Dispute? && e.act.order == o
    requires E.Accepted(sys.escrow, e.act, e.x, now)
    ensures RuledAs(Step(sys, e, now), o, NoRuling)
  {
    var at := sys.escrow.wiring.disputeManager.value;
    FilingMarks(sys.escrow, o, e.act.filer, e.x, now);
    ModuleInv(sys, at);
    DO.FilingRecords(ModuleAt(sys, at), Filing(sys, o, e.act.filer, e), now);
  }

  /** The escrow's calls about other orders rule nothing. */
  lemma EscrowRulesNothing(sys: System, e: Event, now: u64, o: Order, ruling: Outcome)
    requires Inv(sys, now) && Honest(sys, e, now) && e.OnEscrow? && RuledAs(sys, o, ruling)
    requires !(e.act.Dispute? && e.act.order == o && E.Accepted(sys.escrow, e.act, e.x, now))
    ensures RuledAs(Step(sys, e, now), o, ruling)
  {
    EscrowKeepsFile(sys, e, now, o);
    var n := sys.(escrow := E.Step(sys.escrow, e.act, e.x, now));
    if E.StatusOf(n.escrow.book, o).Disputed? {
      ModulesMove(sys.escrow, e.act, e.x, now, o);
      assert FileInv(sys, o);
      assert RuledAs(n, o, ruling);
      SecondHalf(sys, n, e, now, o, ruling);
    } else {
      SameEscrow(sys, e, now);
    }
  }

  lemma SameEscrow(sys: System, e: Event, now: u64)
    requires e.OnEscrow?
    ensures Step(sys, e, now).escrow == E.Step(sys.escrow, e.act, e.x, now)
  {
  }

  /** The module's half of a call of the escrow about another order. */
  lemma SecondHalf(sys: System, n: System, e: Event, now: u64, o: Order, ruling: Outcome)
    requires e.OnEscrow? && n == sys.(escrow := E.Step(sys.escrow, e.act, e.x, now)) && FileInv(n, o) && RuledAs(n, o, ruling)
    requires E.Accepted(sys.escrow, e.act, e.x, now) ==> !Closes(e.act, o) && !(e.act.Dispute? && e.act.order == o)
    requires E.StatusOf(n.escrow.book, o).Disputed?
    ensures RuledAs(Step(sys, e, now), o, ruling)
  {
    var c := ModuleCall(sys, e);
    if E.Accepted(sys.escrow, e.act, e.x, now) && c.Some? {
      CallIsAnothers(sys, e, o);
      FiledAfter(n, c.value.0, c.value.1, now, o);
      if c.value.0 == n.escrow.modules[o] {
        CallRulesNothing(FiledWith(n, o), c.value.1, now, o);
      }
    }
  }

  lemma CallIsAnothers(sys: System, e: Event, o: Order)
    requires e.OnEscrow? && ModuleCall(sys, e).Some? && !Closes(e.act, o) && !(e.act.Dispute? && e.act.order == o)
    ensures var call := ModuleCall(sys, e).value.1; (call.Open? || call.Settle?) && call.order != o
  {
  }

  lemma CallRulesNothing(m: D.State, call: D.Action, now: u64, o: Order)
    requires (call.Open? || call.Settle?) && call.order != o && o in m.disputes
    ensures o in D.Step(m, call, now).disputes && D.Step(m, call, now).disputes[o] == m.disputes[o]
  {
  }

  lemma StepRules(sys: System, e: Event, now: u64, o: Order, ruling: Outcome)
    requires Inv(sys, now) && Honest(sys, e, now) && RuledAs(sys, o, ruling)
    ensures RuledAs(Step(sys, e, now), o, RulingStep(sys, e, now, o, ruling))
  {
    match e {
      case OnModule(at, call) =>
        assert FileInv(sys, o);
        ModuleRules(sys, at, call, now, o, ruling);
      case OnEscrow(act, x, _, _, _) =>
        if act.Dispute? && act.order == o && E.Accepted(sys.escrow, act, x, now) {
          FilingUnruled(sys, e, now, o);
        } else {
          EscrowRulesNothing(sys, e, now, o, ruling);
        }
    }
  }

  /** The arbiter's last ruling of an order in a run since its filing, from what stood before. */
  function LastRuling(sys: System, events: seq<Timed>, o: Order, ruling: Outcome): Outcome
    decreases events
  {
    if events == [] then ruling
    else
      var e := events[0];
      LastRuling(Step(sys, e.e, e.now), events[1..], o, RulingStep(sys, e.e, e.now, o, ruling))
  }

  lemma {:induction false} RunRules(sys: System, from: u64, events: seq<Timed>, o: Order, ruling: Outcome)
    requires Inv(sys, from) && Fair(sys, from, events) && RuledAs(sys, o, ruling)
    ensures Inv(Run(sys, events), EndTime(from, events)) && from <= EndTime(from, events)
    ensures RuledAs(Run(sys, events), o, LastRuling(sys, events, o, ruling))
    decreases events
  {
    if events != [] {
      var e := events[0];
      C.ClockInv(sys.escrow, from, e.now);
      StepInv(sys, e.e, e.now);
      StepRules(sys, e.e, e.now, o, ruling);
      RunRules(Step(sys, e.e, e.now), e.now, events[1..], o, RulingStep(sys, e.e, e.now, o, ruling));
    }
  }

  /** The arbiter decides, and nobody else. Over any run of a new escrow with its modules, a dispute that
      ends was ruled as the arbiter last ruled it since its filing: it pays the order's recipient if that
      was against the maker, and gives the lock back otherwise, an unruled dispute included; and it leaves
      a FORFEIT leaf if that was against the bridger, a CANCEL leaf otherwise. */
  lemma TheArbiterDecides(self: Address, w: Asset, from: u64, events: seq<Timed>, e: Event, now: u64, o: Order)
    requires Fair(New(self, w), from, events) && EndTime(from, events) <= now
    requires e.OnEscrow? && e.act == E.FinalizeDispute(o) && Honest(Run(New(self, w), events), e, now)
    requires E.Accepted(Run(New(self, w), events).escrow, e.act, e.x, now)
    ensures var verdict := LastRuling(New(self, w), events, o, NoRuling);
            var s := Run(New(self, w), events).escrow;
            var n := E.Step(s, e.act, e.x, now);
            && e.x.ruling == verdict
            && n.book.log == s.book.log + [E.Leaf(o, if verdict == BridgerForfeit then E.ForfeitLeaf else E.CancelLeaf)]
            && o.adId in s.book.ads
            && n.book.ads[o.adId].balance
               == s.book.ads[o.adId].balance - (if verdict == MakerForfeit then E.Amount(o) else 0)
            && n.book.ads[o.adId].locked == s.book.ads[o.adId].locked - E.Amount(o)
            && (verdict != MakerForfeit ==> n.money == s.money)
  {
    var sys := Run(New(self, w), events);
    NewInv(self, w, from);
    RunRules(New(self, w), from, events, o, NoRuling);
    C.ClockInv(sys.escrow, EndTime(from, events), now);
    FiledClock(sys, now, o);
    EO.DoorBook(sys.escrow, e.act, e.x, now, o);
    EO.DoorMoney(sys.escrow, e.act, e.x, now, o);
    EO.TermsOf(o, true);
  }

  // ---- the bond ----

  /** Whether the filer's side won: the bond comes back when nobody was ruled against, when the arbiter
      ruled against the other side, or when a proof ended the trade of a bridger who had been denied it. */
  predicate FilerWins(sys: System, e: Event, o: Order)
    requires e.OnEscrow? && Closes(e.act, o) && OnFile(sys, o) && o.adId in sys.escrow.book.ads
    requires o in sys.escrow.book.orders && sys.escrow.book.orders[o].registryEpoch as nat in sys.escrow.wiring.registryAt
  {
    var byBridger := FiledWith(sys, o).disputes[o].initiator != sys.escrow.book.ads[o.adId].maker;
    if e.act.FinalizeDispute? then
      match e.x.ruling
      case MakerForfeit => byBridger
      case BridgerForfeit => !byBridger
      case TradeProceeds => false
      case _ => true
    else
      var t := E.OrderTiming(sys.escrow.wiring, sys.escrow.book, o).value;
      byBridger && ER.LeverPulled(sys.escrow, o, Max(Min(o.deadline + t.buffer, U64_MAX) - t.margin, 0), e.x)
  }

  /** Who gets the bond of a dispute the escrow ends: the filer when its side won, else the module's fee
      pool, or the filer again if there is none; the record is closed and no other bond or credit moves. */
  lemma BondFollowsTheVerdict(sys: System, e: Event, now: u64, o: Order, who: Address, token: Asset)
    requires Inv(sys, now) && T.Inv(sys.escrow, now) && Honest(sys, e, now) && e.OnEscrow? && Closes(e.act, o)
    requires E.StatusOf(sys.escrow.book, o).Disputed? && E.Accepted(sys.escrow, e.act, e.x, now)
    ensures OnFile(sys, o) && o.adId in sys.escrow.book.ads && o in sys.escrow.book.orders
    ensures sys.escrow.book.orders[o].registryEpoch as nat in sys.escrow.wiring.registryAt
    ensures var m, n := FiledWith(sys, o), ModuleAt(Step(sys, e, now), sys.escrow.modules[o]);
            var d := m.disputes[o];
            var to := if FilerWins(sys, e, o) || m.settings.feePool.None? then d.initiator else m.settings.feePool.value;
            && n.disputes == m.disputes - {o}
            && D.Owed(n.money, who, token) == D.Owed(m.money, who, token)
               + (if !e.bondPays && who == to && token == d.bondToken then d.bond else 0)
            && D.Get(n.money.holdings, token) == D.Get(m.money.holdings, token)
               - (if e.bondPays && to != m.self && token == d.bondToken then d.bond else 0)
  {
    FiledClock(sys, now, o);
    ER.LiveRows(sys.escrow, now, o);
    ModuleInv(sys, sys.escrow.modules[o]);
    SettlementIs(sys, e, now, o);
    ModuleNeverRefuses(sys, e, now, o);
    DO.BondIsSettled(FiledWith(sys, o), Settlement(sys, o, e), now, who, token);
    EscrowSettles(sys, e, now, o);
  }

  lemma EscrowSettles(sys: System, e: Event, now: u64, o: Order)
    requires e.OnEscrow? && Closes(e.act, o) && OnFile(sys, o) && o.adId in sys.escrow.book.ads
    requires E.Accepted(sys.escrow, e.act, e.x, now)
    ensures ModuleAt(Step(sys, e, now), sys.escrow.modules[o])
         == D.Step(FiledWith(sys, o), Settlement(sys, o, e), now)
  {
  }

  /** The settlement the escrow makes says just that. */
  lemma SettlementIs(sys: System, e: Event, now: u64, o: Order)
    requires T.Inv(sys.escrow, now) && e.OnEscrow? && Closes(e.act, o) && OnFile(sys, o)
    requires E.StatusOf(sys.escrow.book, o).Disputed? && (e.act.FinalizeDispute? ==> e.x.ruling != TradeProceeds)
    ensures o.adId in sys.escrow.book.ads && o in sys.escrow.book.orders
    ensures sys.escrow.book.orders[o].registryEpoch as nat in sys.escrow.wiring.registryAt
    ensures var c, m := Settlement(sys, o, e), FiledWith(sys, o);
            && c.order == o && c.pays == e.bondPays
            && DO.BondGoesTo(m, m.disputes[o], c.outcome, c.filerIsBridger, c.returnToFiler)
               == (if FilerWins(sys, e, o) || m.settings.feePool.None? then m.disputes[o].initiator
                   else m.settings.feePool.value)
  {
    ER.LiveRows(sys.escrow, now, o);
    var t := E.OrderTiming(sys.escrow.wiring, sys.escrow.book, o).value;
    C.CutoffIsTheLocks(sys.escrow, now, o);
    ER.DeniedIsLevered(sys.escrow, now, o, E.Cutoff(sys.escrow.book, o, t), e.x);
  }
}
