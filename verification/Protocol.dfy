/** The escrow, its key registries and its dispute modules, all run together: the evidence grace holds
    at both of the doors a clock opens, the cancel's and the dispute's.

    A step is a call on any of the contracts. Seen without the modules, the system is `Bridge`'s; seen
    without the registries, it is `Arbitration`'s; each step is a step of both, or of the one it
    concerns. */
module Protocol {
  import opened Numbers
  import opened Wrappers
  import opened Orders
  import E = Escrow
  import C = EscrowClocks
  import R = Registry
  import D = Disputes
  import K = Bridge
  import A = Arbitration
  import G = GraceTheorem

  datatype System = System(escrow: E.State, registries: map<Address, R.State>, modules: map<Address, D.State>)

  datatype Event =
    | OnEscrow(act: E.Action, x: E.Answers, evidence: D.Evidence, arrives: Option<nat>, bondPays: bool)
    | OnRegistry(at: Address, call: R.Action, others: set<K.GuardId>)
    | OnModule(module_: Address, filing: D.Action)

  // ---- the two systems it is ----

  function WithKeys(sys: System): K.System {
    K.System(sys.escrow, sys.registries)
  }

  function WithFiles(sys: System): A.System {
    A.System(sys.escrow, sys.modules)
  }

  function KeysEvent(e: Event): Option<K.Event> {
    match e
    case OnEscrow(act, x, _, _, _) => Some(K.OnEscrow(act, x))
    case OnRegistry(at, call, others) => Some(K.OnRegistry(at, call, others))
    case OnModule(_, _) => None
  }

  function FilesEvent(e: Event): Option<A.Event> {
    match e
    case OnEscrow(act, x, evidence, arrives, bondPays) => Some(A.OnEscrow(act, x, evidence, arrives, bondPays))
    case OnRegistry(_, _, _) => None
    case OnModule(at, call) => Some(A.OnModule(at, call))
  }

  /** Every answer is the answering contract's own. */
  predicate Honest(sys: System, e: Event, now: u64) {
    && (KeysEvent(e).Some? ==> K.Honest(WithKeys(sys), KeysEvent(e).value, now))
    && (FilesEvent(e).Some? ==> A.Honest(WithFiles(sys), FilesEvent(e).value, now))
  }

  function Step(sys: System, e: Event, now: u64): System {
    match e
    case OnEscrow(act, x, _, _, _) =>
      System(E.Step(sys.escrow, act, x, now), sys.registries, A.Step(WithFiles(sys), FilesEvent(e).value, now).modules)
    case OnRegistry(_, _, _) => sys.(registries := K.Step(WithKeys(sys), KeysEvent(e).value, now).registries)
    case OnModule(_, _) => sys.(modules := A.Step(WithFiles(sys), FilesEvent(e).value, now).modules)
  }

  /** A step is a step of each system it concerns, and leaves the other alone. */
  lemma StepIsBoth(sys: System, e: Event, now: u64)
    ensures WithKeys(Step(sys, e, now))
         == if KeysEvent(e).Some? then K.Step(WithKeys(sys), KeysEvent(e).value, now) else WithKeys(sys)
    ensures WithFiles(Step(sys, e, now))
         == if FilesEvent(e).Some? then A.Step(WithFiles(sys), FilesEvent(e).value, now) else WithFiles(sys)
  {
  }

  // ---- the invariant ----

  ghost predicate Inv(sys: System, now: u64) {
    K.Inv(WithKeys(sys), now) && A.Inv(WithFiles(sys), now)
  }

  function New(self: Address, w: Asset): System {
    System(E.New(self, w), map[], map[])
  }

  lemma NewInv(self: Address, w: Asset, now: u64)
    ensures Inv(New(self, w), now)
  {
    K.NewInv(self, w, now);
    A.NewInv(self, w, now);
  }

  lemma ClockInv(sys: System, now: u64, later: u64)
    requires Inv(sys, now) && now <= later
    ensures Inv(sys, later)
  {
    G.ClockInv(WithKeys(sys), now, later);
    C.ClockInv(sys.escrow, now, later);
  }

  lemma StepInv(sys: System, e: Event, now: u64)
    requires Inv(sys, now) && Honest(sys, e, now)
    ensures Inv(Step(sys, e, now), now)
  {
    StepIsBoth(sys, e, now);
    if KeysEvent(e).Some? {
      G.StepInv(WithKeys(sys), KeysEvent(e).value, now);
    }
    if FilesEvent(e).Some? {
      A.StepInv(WithFiles(sys), FilesEvent(e).value, now);
    }
  }

  // ---- runs ----

  datatype Timed = Timed(now: u64, e: Event)

  predicate Fair(sys: System, from: u64, events: seq<Timed>)
    decreases events
  {
    events == []
    || (from <= events[0].now && Honest(sys, events[0].e, events[0].now)
        && Fair(Step(sys, events[0].e, events[0].now), events[0].now, events[1..]))
  }

  function EndTime(from: u64, events: seq<Timed>): u64
    decreases events
  {
    if events == [] then from else EndTime(events[0].now, events[1..])
  }

  function Run(sys: System, events: seq<Timed>): System
    decreases events
  {
    if events == [] then sys else Run(Step(sys, events[0].e, events[0].now), events[1..])
  }

  /** The order is live before and after every event of the run. */
  predicate StaysLive(sys: System, events: seq<Timed>, o: Order)
    decreases events
  {
    E.Live(E.StatusOf(sys.escrow.book, o))
    && (events == [] || StaysLive(Step(sys, events[0].e, events[0].now), events[1..], o))
  }

  lemma {:induction false} RunInv(sys: System, from: u64, events: seq<Timed>)
    requires Inv(sys, from) && Fair(sys, from, events)
    ensures Inv(Run(sys, events), EndTime(from, events))
    ensures from <= EndTime(from, events)
    decreases events
  {
    if events != [] {
      ClockInv(sys, from, events[0].now);
      StepInv(sys, events[0].e, events[0].now);
      RunInv(Step(sys, events[0].e, events[0].now), events[0].now, events[1..]);
    }
  }

  /** What has to be known of an order to speak of its clocks. */
  predicate Known(sys: System, o: Order) {
    E.OrderTiming(sys.escrow.wiring, sys.escrow.book, o).Some? && o.adId in sys.escrow.book.ads
  }

  lemma LeverStays(sys: System, e: Event, now: u64, o: Order)
    requires Inv(sys, now) && Honest(sys, e, now) && Known(sys, o) && K.Levered(WithKeys(sys), o, now)
    requires E.Live(E.StatusOf(sys.escrow.book, o)) && E.Live(E.StatusOf(Step(sys, e, now).escrow.book, o))
    ensures Known(Step(sys, e, now), o) && K.Levered(WithKeys(Step(sys, e, now)), o, now)
    ensures K.Finish(WithKeys(Step(sys, e, now)), o) == K.Finish(WithKeys(sys), o)
  {
    StepIsBoth(sys, e, now);
    if KeysEvent(e).Some? {
      G.LeverStays(WithKeys(sys), KeysEvent(e).value, now, o);
      if e.OnEscrow? {
        G.EscrowKeepsLife(WithKeys(sys), e.act, e.x, now, o);
      }
    }
  }

  lemma LeverAges(sys: System, o: Order, now: u64, later: u64)
    requires Known(sys, o) && K.Levered(WithKeys(sys), o, now) && now <= later
    ensures K.Levered(WithKeys(sys), o, later)
  {
  }

  /** A pulled lever keeps showing, whatever is called on whichever contract. */
  lemma {:induction false} LeverLasts(sys: System, from: u64, events: seq<Timed>, o: Order)
    requires Inv(sys, from) && Fair(sys, from, events) && StaysLive(sys, events, o)
    requires Known(sys, o) && K.Levered(WithKeys(sys), o, from)
    ensures Known(Run(sys, events), o) && K.Levered(WithKeys(Run(sys, events)), o, EndTime(from, events))
    ensures K.Finish(WithKeys(Run(sys, events)), o) == K.Finish(WithKeys(sys), o)
    decreases events
  {
    if events != [] {
      var e := events[0];
      ClockInv(sys, from, e.now);
      LeverAges(sys, o, from, e.now);
      StepInv(sys, e.e, e.now);
      LeverStays(sys, e.e, e.now, o);
      LeverLasts(Step(sys, e.e, e.now), e.now, events[1..], o);
    }
  }

  // ---- the dispute's clock ----

  /** A lever that shows denies the payout up to any moment from the order's own window's end on. */
  lemma LeverDenies(sys: System, o: Order, x: E.Answers, until: nat, now: u64)
    requires K.Inv(WithKeys(sys), now) && E.Live(E.StatusOf(sys.escrow.book, o)) && Known(sys, o)
    requires x.expiredAt == K.PinExpiry(WithKeys(sys), o)
    requires K.Levered(WithKeys(sys), o, now) && now < K.Finish(WithKeys(sys), o)
    requires C.EndOf(o, K.TimingOf(WithKeys(sys), o)) <= until
    ensures E.Denied(sys.escrow, sys.escrow.book.ads[o.adId].maker, o, until, x)
  {
    C.CutoffIsTheLocks(sys.escrow, now, o);
    assert C.StampInv(sys.escrow.wiring, o, sys.escrow.book.orders[o], now);
  }

  /** A denied dispute with any outcome but the maker's forfeit waits the grace past its deadline. */
  lemma DeniedDisputeWaits(s: E.State, o: Order, t: E.Timing, x: E.Answers, now: u64)
    requires E.OrderTiming(s.wiring, s.book, o) == Some(t) && E.CanFinalizeDispute(s, o, x, now)
    requires !x.ruling.MakerForfeit? && C.EndOf(o, t) <= x.challengeDeadline
    requires E.Denied(s, s.book.ads[o.adId].maker, o, x.challengeDeadline, x)
    ensures Min(o.deadline + 2 * t.buffer + E.RecordOf(s.book, o).anchorDelay, U64_MAX) <= now
  {
    WaitAdds(o.deadline, t.buffer, x.challengeDeadline, E.RecordOf(s.book, o).anchorDelay,
             E.AnchorDelayNow(s.wiring, x).value);
  }

  lemma WaitAdds(deadline: u64, buffer: u64, until: u64, snapshot: u64, current: u64)
    requires SatAdd64(deadline, buffer) <= until
    ensures Min(deadline + 2 * buffer + snapshot, U64_MAX) <= SatAdd64(until, SatAdd64(Max(current, snapshot), buffer))
  {
  }

  lemma DisputeWaits(sys: System, e: Event, now: u64, o: Order)
    requires Inv(sys, now) && Honest(sys, e, now) && Known(sys, o) && K.Levered(WithKeys(sys), o, now)
    requires e.OnEscrow? && e.act == E.FinalizeDispute(o) && E.Accepted(sys.escrow, e.act, e.x, now)
    requires !e.x.ruling.MakerForfeit?
    ensures K.Finish(WithKeys(sys), o) <= now
  {
    if now < K.Finish(WithKeys(sys), o) {
      A.FiledClock(WithFiles(sys), now, o);
      LeverDenies(sys, o, e.x, e.x.challengeDeadline, now);
      DeniedDisputeWaits(sys.escrow, o, K.TimingOf(WithKeys(sys), o), e.x, now);
    }
  }

  /** The clocks' two doors back to the maker: a cancel, and a dispute that does not forfeit the maker. */
  predicate ReleasesByClock(act: E.Action, x: E.Answers, o: Order) {
    act == E.FinalizeCancel(o) || (act == E.FinalizeDispute(o) && !x.ruling.MakerForfeit?)
  }

  /** The evidence grace at every clock. Take any run of the escrow, its registries and its dispute
      modules, and any moment of an order's life at which a lever was pulled. However the run goes on,
      ruled or not, the order's lock goes back by a clock no earlier than its deadline, two buffers and
      the anchor delay stamped at its lock. */
  lemma EvidenceGraceAtEveryClock(sys: System, from: u64, events: seq<Timed>, o: Order, e: Event, now: u64)
    requires Inv(sys, from) && Fair(sys, from, events) && StaysLive(sys, events, o)
    requires Known(sys, o) && K.Pulled(WithKeys(sys), o, from)
    requires EndTime(from, events) <= now && Honest(Run(sys, events), e, now)
    requires e.OnEscrow? && ReleasesByClock(e.act, e.x, o) && E.Accepted(Run(sys, events).escrow, e.act, e.x, now)
    ensures K.Finish(WithKeys(sys), o) <= now
  {
    LeverLasts(sys, from, events, o);
    RunInv(sys, from, events);
    var n := Run(sys, events);
    ClockInv(n, EndTime(from, events), now);
    LeverAges(n, o, EndTime(from, events), now);
    if e.act.FinalizeCancel? {
      G.LeverWaits(WithKeys(n), o, e.x, now);
    } else {
      DisputeWaits(n, e, now, o);
    }
  }
}
