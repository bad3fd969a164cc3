/** The escrow and the dispute modules it files with, run together: no dispute ends early, evidence
    beats arbitration, and no order is stranded in a dispute.

    A step is a call on the escrow or on any module, in any order, by anyone; the escrow's own calls
    into a module are part of its step, and only the escrow makes them. Every answer the escrow gets
    from elsewhere, the registries included, is arbitrary. */
module Arbitration {
  import opened Numbers
  import opened Wrappers
  import opened Orders
  import opened Scaling
  import E = Escrow
  import B = EscrowBook
  import C = EscrowClocks
  import M = EscrowMoney
  import T = EscrowTheorems
  import D = Disputes
  import I = DisputeInvariants
  import DT = DisputeTheorems

  datatype System = System(escrow: E.State, modules: map<Address, D.State>)

  datatype Event =
    /** `arrives`, `bondPays`: what the bond's token does with the filer's transfer, and with a payout. */
    | OnEscrow(act: E.Action, x: E.Answers, evidence: D.Evidence, arrives: Option<nat>, bondPays: bool)
    | OnModule(at: Address, call: D.Action)

  function ModuleAt(sys: System, at: Address): D.State {
    if at in sys.modules then sys.modules[at] else D.New(at)
  }

  /** The module an order was filed with. */
  function FiledWith(sys: System, o: Order): D.State
    requires o in sys.escrow.modules
  {
    ModuleAt(sys, sys.escrow.modules[o])
  }

  /** The ad-chain amount is a u128. */
  function BondAmount(o: Order): u128 {
    AmountFits(o);
    E.Amount(o)
  }

  lemma AmountFits(o: Order)
    ensures E.Amount(o) <= U128_MAX
  {
    if AdAmount(o).Ok? {
      ScaleIsExact(o.amount, o.orderDecimals, o.adDecimals, AdAmount(o).value);
    }
  }

  /** The filing the escrow makes: it vouches for the order's deadline and its own version's buffer. */
  function Filing(sys: System, o: Order, filer: Address, e: Event): D.Action
    requires e.OnEscrow? && o.adId in sys.escrow.book.ads
    requires E.OrderTiming(sys.escrow.wiring, sys.escrow.book, o).Some?
  {
    D.Open(sys.escrow.self, o, o.orderChainId, filer, e.evidence, o.deadline,
           E.OrderTiming(sys.escrow.wiring, sys.escrow.book, o).value.buffer,
           AssetOf(sys.escrow.book.ads[o.adId].token, sys.escrow.wNative), BondAmount(o), e.arrives)
  }

  /** "Not the maker" is "the bridger": only the order's two parties may file. */
  predicate FilerIsBridger(sys: System, o: Order)
    requires o in sys.escrow.modules && o in FiledWith(sys, o).disputes && o.adId in sys.escrow.book.ads
  {
    FiledWith(sys, o).disputes[o].initiator != sys.escrow.book.ads[o.adId].maker
  }

  /** The settlement of a dispute the escrow has just ended, by its clock or by evidence. By evidence the
      trade proceeds, and a bridger who filed while the maker denied the payout gets its bond back. */
  function Settlement(sys: System, o: Order, e: Event): D.Action
    requires e.OnEscrow? && o in sys.escrow.modules && o in FiledWith(sys, o).disputes && o.adId in sys.escrow.book.ads
  {
    var bridger := FilerIsBridger(sys, o);
    if e.act.FinalizeDispute?
    then D.Settle(sys.escrow.self, o, E.SettledOutcome(e.x.ruling), bridger, false, e.bondPays)
    else
      var t := E.OrderTiming(sys.escrow.wiring, sys.escrow.book, o);
      var denied := t.Some? && E.Denied(sys.escrow, sys.escrow.book.ads[o.adId].maker, o,
                                        E.Cutoff(sys.escrow.book, o, t.value), e.x);
      D.Settle(sys.escrow.self, o, TradeProceeds, bridger, bridger && denied, e.bondPays)
  }

  /** The escrow's calls that end a dispute. */
  predicate Closes(act: E.Action, o: Order) {
    (act.Unlock? || act.PresentSettled? || act.FinalizeDispute?) && act.order == o
  }

  /** What the module answers the escrow. */
  predicate Honest(sys: System, e: Event, now: u64) {
    match e
    case OnModule(_, call) =>
      // only the escrow files and settles in its own name
      (call.Open? || call.Settle?) ==> call.escrow != sys.escrow.self
    case OnEscrow(act, x, _, _, _) =>
      match act
      case Dispute(o, filer) =>
        o.adId in sys.escrow.book.ads && E.OrderTiming(sys.escrow.wiring, sys.escrow.book, o).Some?
        && sys.escrow.wiring.disputeManager.Some? ==>
          (x.moduleOk <==>
             D.Accepted(ModuleAt(sys, sys.escrow.wiring.disputeManager.value), Filing(sys, o, filer, e), now))
      case Unlock(o, _) => HonestClose(sys, e, o, now)
      case PresentSettled(o) => HonestClose(sys, e, o, now)
      case FinalizeDispute(o) => HonestClose(sys, e, o, now)
      case _ => true
  }

  predicate HonestClose(sys: System, e: Event, o: Order, now: u64)
    requires e.OnEscrow?
  {
    o in sys.escrow.modules && o.adId in sys.escrow.book.ads ==>
      var m := FiledWith(sys, o);
      if o in m.disputes then
        && e.x.filer == Some(m.disputes[o].initiator) && e.x.ruling == m.disputes[o].ruling
        && e.x.challengeDeadline == m.disputes[o].challengeDeadline
        && e.x.windowOver == (m.disputes[o].challengeDeadline <= now)
        && (e.x.moduleOk <==> D.Accepted(m, Settlement(sys, o, e), now))
      else
        // nothing on file: nothing to settle by evidence, nothing to finalize
        e.x.filer.None? && !e.x.windowOver && (e.x.moduleOk <==> !e.act.FinalizeDispute?)
  }

  /** The module call that goes with an accepted call of the escrow, and where. */
  function ModuleCall(sys: System, e: Event): Option<(Address, D.Action)>
    requires e.OnEscrow?
  {
    match e.act
    case Dispute(o, filer) =>
      if o.adId in sys.escrow.book.ads && E.OrderTiming(sys.escrow.wiring, sys.escrow.book, o).Some?
         && sys.escrow.wiring.disputeManager.Some?
      then Some((sys.escrow.wiring.disputeManager.value, Filing(sys, o, filer, e))) else None
    case Unlock(o, _) => CloseCall(sys, e, o)
    case PresentSettled(o) => CloseCall(sys, e, o)
    case FinalizeDispute(o) => CloseCall(sys, e, o)
    case _ => None
  }

  function CloseCall(sys: System, e: Event, o: Order): Option<(Address, D.Action)>
    requires e.OnEscrow?
  {
    if o in sys.escrow.modules && o in FiledWith(sys, o).disputes && o.adId in sys.escrow.book.ads
    then Some((sys.escrow.modules[o], Settlement(sys, o, e))) else None
  }

  function WithCall(sys: System, at: Address, call: D.Action, now: u64): System {
    sys.(modules := sys.modules[at := D.Step(ModuleAt(sys, at), call, now)])
  }

  function Step(sys: System, e: Event, now: u64): System {
    match e
    case OnModule(at, call) => WithCall(sys, at, call, now)
    case OnEscrow(act, x, _, _, _) =>
      var n := sys.(escrow := E.Step(sys.escrow, act, x, now));
      if !E.Accepted(sys.escrow, act, x, now) then n
      else
        match ModuleCall(sys, e)
        case None => n
        case Some(c) => WithCall(n, c.0, c.1, now)
  }

  // ---- the invariant ----

  /** A disputed order's record is on file where it was filed, in the escrow's name, on its own clock. */
  ghost predicate OnFile(sys: System, o: Order) {
    && o in sys.escrow.modules && o in FiledWith(sys, o).disputes
    && E.OrderTiming(sys.escrow.wiring, sys.escrow.book, o).Some?
    && var d := FiledWith(sys, o).disputes[o];
    && d.escrow == sys.escrow.self && d.orderDeadline == o.deadline
    && d.buffer == E.OrderTiming(sys.escrow.wiring, sys.escrow.book, o).value.buffer
  }

  ghost predicate FileInv(sys: System, o: Order) {
    var status := E.StatusOf(sys.escrow.book, o);
    && (status.Disputed? ==> OnFile(sys, o))
    && (status.Absent? || status.Open? || status.Claimed? ==> o !in sys.escrow.modules)
  }

  ghost predicate Inv(sys: System, now: u64) {
    && M.Inv(sys.escrow) && C.Inv(sys.escrow, now)
    && ModulesInv(sys.modules)
    && (forall o :: FileInv(sys, o))
  }

  function New(self: Address, w: Asset): System {
    System(E.New(self, w), map[])
  }

  lemma NewInv(self: Address, w: Asset, now: u64)
    ensures Inv(New(self, w), now)
  {
    M.NewInv(self, w);
    C.NewInv(self, w, now);
  }

  lemma ModuleInv(sys: System, at: Address)
    requires ModulesInv(sys.modules)
    ensures I.Inv(ModuleAt(sys, at))
  {
    I.NewInv(at);
  }

  /** A call another party makes on a module, or the escrow makes about another order, leaves the
      record on file. */
  lemma RecordStays(m: D.State, call: D.Action, now: u64, o: Order, self: Address)
    requires o in m.disputes && m.disputes[o].escrow == self
    requires call.Settle? && call.order == o ==> call.escrow != self
    ensures var n := D.Step(m, call, now);
            o in n.disputes && DT.Stands(m.disputes[o], n.disputes[o])
  {
    DT.RecordMoves(m, call, now, o);
  }

  lemma ModuleCallKeepsFile(sys: System, at: Address, call: D.Action, now: u64, o: Order)
    requires FileInv(sys, o) && (call.Settle? && call.order == o ==> call.escrow != sys.escrow.self)
    ensures FileInv(WithCall(sys, at, call, now), o)
  {
    if E.StatusOf(sys.escrow.book, o).Disputed? {
      RecordStays(FiledWith(sys, o), call, now, o, sys.escrow.self);
    }
  }

  /** An order's filing is its own: no call about another order touches it. */
  lemma ModulesMove(s: E.State, act: E.Action, x: E.Answers, now: u64, o: Order)
    ensures var n := E.Step(s, act, x, now);
            && (o in s.modules ==> o in n.modules)
            && (o in n.modules && o !in s.modules ==> act.Dispute? && act.order == o && E.Accepted(s, act, x, now))
            && (o in s.modules && !(act.Dispute? && act.order == o && E.Accepted(s, act, x, now)) ==>
                  n.modules[o] == s.modules[o])
  {
  }

  /** The escrow's own row and filing of an order, across one of its calls. */
  lemma EscrowKeepsFile(sys: System, e: Event, now: u64, o: Order)
    requires Inv(sys, now) && Honest(sys, e, now) && e.OnEscrow?
    requires !(e.act.Dispute? && e.act.order == o && E.Accepted(sys.escrow, e.act, e.x, now))
    ensures FileInv(sys.(escrow := E.Step(sys.escrow, e.act, e.x, now)), o)
    ensures E.StatusOf(E.Step(sys.escrow, e.act, e.x, now).book, o).Disputed? ==>
              E.StatusOf(sys.escrow.book, o).Disputed? && !(Closes(e.act, o) && E.Accepted(sys.escrow, e.act, e.x, now))
  {
    OnlyFilingDisputes(sys.escrow, e.act, e.x, now, o);
    var n := sys.(escrow := E.Step(sys.escrow, e.act, e.x, now));
    assert FileInv(n, o) by {
      assert FileInv(sys, o);
      ModulesMove(sys.escrow, e.act, e.x, now, o);
      if E.StatusOf(n.escrow.book, o).Disputed? {
        C.ClocksNeverMove(sys.escrow, e.act, e.x, now, o);
        StaysFiled(sys, n, o);
      } else {
        C.RowAfter(sys.escrow, e.act, e.x, now, o);
      }
    }
  }

  lemma StaysFiled(sys: System, n: System, o: Order)
    requires OnFile(sys, o) && n == sys.(escrow := n.escrow) && n.escrow.self == sys.escrow.self
    requires o in n.escrow.modules && n.escrow.modules[o] == sys.escrow.modules[o]
    requires E.OrderTiming(n.escrow.wiring, n.escrow.book, o) == E.OrderTiming(sys.escrow.wiring, sys.escrow.book, o)
    ensures OnFile(n, o)
  {
  }

  lemma OnlyFilingDisputes(s: E.State, act: E.Action, x: E.Answers, now: u64, o: Order)
    requires !(act.Dispute? && act.order == o && E.Accepted(s, act, x, now))
    ensures E.StatusOf(E.Step(s, act, x, now).book, o).Disputed? ==>
              E.StatusOf(s.book, o).Disputed? && !(Closes(act, o) && E.Accepted(s, act, x, now))
    ensures E.StatusOf(E.Step(s, act, x, now).book, o).Open? || E.StatusOf(E.Step(s, act, x, now).book, o).Claimed? ==>
              !E.Terminal(E.StatusOf(s.book, o)) && !E.StatusOf(s.book, o).Disputed?
  {
    if !C.Names(act, o) {
      C.OtherRow(s, act, x, now, o);
    }
  }

  /** What an accepted filing does on the escrow's side. */
  lemma FilingMarks(s: E.State, o: Order, filer: Address, x: E.Answers, now: u64)
    requires E.CanDispute(s, o, filer, x, now)
    ensures var n := E.Step(s, E.Dispute(o, filer), x, now);
            && E.StatusOf(n.book, o).Disputed? && n.self == s.self
            && o in n.modules && n.modules[o] == s.wiring.disputeManager.value
            && E.OrderTiming(n.wiring, n.book, o) == E.OrderTiming(s.wiring, s.book, o)
  {
  }

  /** A filing puts the record on file. */
  lemma FilingFiles(sys: System, e: Event, now: u64)
    requires Inv(sys, now) && Honest(sys, e, now) && e.OnEscrow? && e.act.Dispute?
    requires E.Accepted(sys.escrow, e.act, e.x, now)
    ensures FileInv(Step(sys, e, now), e.act.order)
  {
    var o, at := e.act.order, sys.escrow.wiring.disputeManager.value;
    FilingMarks(sys.escrow, o, e.act.filer, e.x, now);
    OpenRecords(ModuleAt(sys, at), Filing(sys, o, e.act.filer, e), now);
  }

  lemma OpenRecords(m: D.State, call: D.Action, now: u64)
    requires call.Open? && D.Accepted(m, call, now)
    ensures var n := D.Step(m, call, now);
            && call.order in n.disputes && n.disputes[call.order].escrow == call.escrow
            && n.disputes[call.order].orderDeadline == call.deadline && n.disputes[call.order].buffer == call.buffer
  {
  }

  lemma StepFile(sys: System, e: Event, now: u64, o: Order)
    requires Inv(sys, now) && Honest(sys, e, now)
    ensures FileInv(Step(sys, e, now), o)
  {
    match e {
      case OnModule(at, call) =>
        assert FileInv(sys, o);
        ModuleCallKeepsFile(sys, at, call, now, o);
      case OnEscrow(act, x, _, _, _) =>
        if act.Dispute? && act.order == o && E.Accepted(sys.escrow, act, x, now) {
          FilingFiles(sys, e, now);
        } else {
          EscrowKeepsFile(sys, e, now, o);
          OtherCallKeepsFile(sys, e, now, o);
        }
    }
  }

  lemma OtherCallKeepsFile(sys: System, e: Event, now: u64, o: Order)
    requires e.OnEscrow? && FileInv(sys.(escrow := E.Step(sys.escrow, e.act, e.x, now)), o)
    requires E.StatusOf(E.Step(sys.escrow, e.act, e.x, now).book, o).Disputed? ==>
               !(Closes(e.act, o) && E.Accepted(sys.escrow, e.act, e.x, now))
    ensures FileInv(Step(sys, e, now), o)
  {
    var n := sys.(escrow := E.Step(sys.escrow, e.act, e.x, now));
    var c := ModuleCall(sys, e);
    if E.Accepted(sys.escrow, e.act, e.x, now) && c.Some? {
      if E.StatusOf(n.escrow.book, o).Disputed? {
        ModuleCallKeepsFile(n, c.value.0, c.value.1, now, o);
      }
    }
  }

  ghost predicate ModulesInv(modules: map<Address, D.State>) {
    forall at :: at in modules ==> I.Inv(modules[at])
  }

  lemma WithCallInv(sys: System, at: Address, call: D.Action, now: u64)
    requires ModulesInv(sys.modules)
    ensures ModulesInv(WithCall(sys, at, call, now).modules)
  {
    ModuleInv(sys, at);
    I.StepInv(ModuleAt(sys, at), call, now);
  }

  lemma StepModules(sys: System, e: Event, now: u64)
    requires ModulesInv(sys.modules)
    ensures ModulesInv(Step(sys, e, now).modules)
  {
    match e {
      case OnModule(at, call) => WithCallInv(sys, at, call, now);
      case OnEscrow(act, x, _, _, _) =>
        if ModuleCall(sys, e).Some? {
          var c := ModuleCall(sys, e).value;
          WithCallInv(sys.(escrow := E.Step(sys.escrow, act, x, now)), c.0, c.1, now);
        }
    }
  }

  lemma StepInv(sys: System, e: Event, now: u64)
    requires Inv(sys, now) && Honest(sys, e, now)
    ensures Inv(Step(sys, e, now), now)
  {
    var n := Step(sys, e, now);
    if e.OnEscrow? {
      M.StepInv(sys.escrow, e.act, e.x, now);
      C.StepInv(sys.escrow, e.act, e.x, now);
    }
    StepModules(sys, e, now);
    forall o ensures FileInv(n, o) {
      StepFile(sys, e, now, o);
    }
  }

  // ---- runs ----

  datatype Timed = Timed(now: u64, e: Event)

  predicate Fair(sys: System, from: u64, events: seq<Timed>)
    decreases events
  {
    events == []
    || (from <= events[0].now && Honest(sys, events[0].e, events[0].now)
        && Fair(Step(sys, events[0].e, events[0].now), events[0].now, events[1..]))
  }

  function EndTime(from: u64, events: seq<Timed>): u64
    decreases events
  {
    if events == [] then from else EndTime(events[0].now, events[1..])
  }

  function Run(sys: System, events: seq<Timed>): System
    decreases events
  {
    if events == [] then sys else Run(Step(sys, events[0].e, events[0].now), events[1..])
  }

  lemma {:induction false} RunInv(sys: System, from: u64, events: seq<Timed>)
    requires Inv(sys, from) && Fair(sys, from, events)
    ensures Inv(Run(sys, events), EndTime(from, events))
    decreases events
  {
    if events != [] {
      C.ClockInv(sys.escrow, from, events[0].now);
      StepInv(sys, events[0].e, events[0].now);
      RunInv(Step(sys, events[0].e, events[0].now), events[0].now, events[1..]);
    }
  }

  // ---- what it means, in every reachable state ----

  /** The record on file cannot be over before the order's own window, nor before its last ruling and
      a buffer. */
  lemma FiledClock(sys: System, now: u64, o: Order)
    requires Inv(sys, now) && E.StatusOf(sys.escrow.book, o).Disputed?
    ensures OnFile(sys, o)
    ensures var t, m := E.OrderTiming(sys.escrow.wiring, sys.escrow.book, o).value, FiledWith(sys, o);
            && C.EndOf(o, t) <= m.disputes[o].challengeDeadline
            && (o in m.ruledAt ==> m.ruledAt[o] + t.buffer <= m.disputes[o].challengeDeadline)
  {
    assert FileInv(sys, o);
    ModuleInv(sys, sys.escrow.modules[o]);
    var m := FiledWith(sys, o);
    assert I.RecordInv(m.self, m.disputes[o], I.RuledAt(m, o));
  }

  lemma FinalizesAfterDeadline(s: E.State, o: Order, x: E.Answers, now: u64)
    requires E.CanFinalizeDispute(s, o, x, now)
    ensures x.challengeDeadline <= now
  {
  }

  /** No dispute ends early, and none in a second that still takes a co-signed payout: an accepted
      finalization comes at or after the order's own window end, and, once ruled, a buffer after the
      last ruling. */
  lemma NoDisputeEndsEarly(sys: System, e: Event, now: u64, o: Order, nullifier: Id, y: E.Answers)
    requires Inv(sys, now) && Honest(sys, e, now) && e.OnEscrow? && e.act == E.FinalizeDispute(o)
    requires E.Accepted(sys.escrow, e.act, e.x, now)
    ensures OnFile(sys, o)
    ensures var t, m := E.OrderTiming(sys.escrow.wiring, sys.escrow.book, o).value, FiledWith(sys, o);
            && C.EndOf(o, t) <= now
            && (o in m.ruledAt ==> m.ruledAt[o] + t.buffer <= now)
            && !E.CanUnlock(sys.escrow, o, nullifier, y, now)
  {
    FiledClock(sys, now, o);
    FinalizesAfterDeadline(sys.escrow, o, e.x, now);
    C.PayoutAndReleaseExclude(sys.escrow, now, o, nullifier, y);
  }

  /** The module an order was filed with always closes it for the escrow. */
  lemma ModuleNeverRefuses(sys: System, e: Event, now: u64, o: Order)
    requires Inv(sys, now) && Honest(sys, e, now) && e.OnEscrow? && Closes(e.act, o)
    requires E.Live(E.StatusOf(sys.escrow.book, o)) && o in sys.escrow.modules
    ensures OnFile(sys, o) && e.x.moduleOk
  {
    assert FileInv(sys, o);
    M.LiveToken(sys.escrow, o);
    ModuleInv(sys, sys.escrow.modules[o]);
    var c := Settlement(sys, o, e);
    DT.BondHasAnExit(FiledWith(sys, o), o, c.outcome, c.filerIsBridger, c.returnToFiler, c.pays, now);
  }

  /** Evidence beats arbitration: whatever is on file, ruled or not, an anchored and proved settlement
      of a live order always goes through. */
  lemma EvidenceBeatsArbitration(sys: System, e: Event, now: u64, o: Order)
    requires Inv(sys, now) && Honest(sys, e, now) && e.OnEscrow? && e.act == E.PresentSettled(o)
    requires E.Live(E.StatusOf(sys.escrow.book, o))
    ensures E.Accepted(sys.escrow, e.act, e.x, now)
        <==> sys.escrow.wiring.anchor.Some? && e.x.anchored && e.x.proofOk
  {
    if o in sys.escrow.modules {
      ModuleNeverRefuses(sys, e, now, o);
    }
    if sys.escrow.wiring.anchor.Some? && e.x.anchored && e.x.proofOk {
      T.EvidenceAlwaysPays(sys.escrow, o, e.x, now);
    }
  }

  /** With the module willing, an ended clock is all a finalization needs. */
  lemma ClockIsEnough(s: E.State, o: Order, x: E.Answers, now: u64)
    requires M.Inv(s) && E.StatusOf(s.book, o).Disputed? && o in s.modules && x.moduleOk && x.appended
    requires x.windowOver == (x.challengeDeadline <= now)
    ensures o.adId in s.book.ads
    ensures var end := E.DisputeEnd(s, s.book.ads[o.adId].maker, o, E.SettledOutcome(x.ruling), x);
            E.CanFinalizeDispute(s, o, x, now) <==> end.Some? && end.value <= now
  {
    B.LiveIsReserved(s.book, o);
    B.NoDoorUnderflows(s.book, o, 0, o.adId);
    T.PayoutNeverTraps(s, o, true, x);
    DeadlineFirst(s, s.book.ads[o.adId].maker, o, E.SettledOutcome(x.ruling), x);
  }

  lemma DeadlineFirst(s: E.State, maker: Address, o: Order, outcome: Outcome, x: E.Answers)
    ensures var end := E.DisputeEnd(s, maker, o, outcome, x); end.Some? ==> x.challengeDeadline <= end.value
  {
  }

  /** No order is stranded in a dispute: once its clock is over anyone can end it. */
  lemma DisputesAlwaysEnd(sys: System, e: Event, now: u64, o: Order)
    requires Inv(sys, now) && Honest(sys, e, now) && e.OnEscrow? && e.act == E.FinalizeDispute(o)
    requires E.StatusOf(sys.escrow.book, o).Disputed? && e.x.appended
    ensures o.adId in sys.escrow.book.ads
    ensures var end := E.DisputeEnd(sys.escrow, sys.escrow.book.ads[o.adId].maker, o, E.SettledOutcome(e.x.ruling), e.x);
            E.Accepted(sys.escrow, e.act, e.x, now) <==> end.Some? && end.value <= now
  {
    FiledClock(sys, now, o);
    ModuleNeverRefuses(sys, e, now, o);
    M.LiveToken(sys.escrow, o);
    ClockIsEnough(sys.escrow, o, e.x, now);
  }
}
