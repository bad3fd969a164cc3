/** The evidence grace holds over every run of the escrow with its registries: once the maker side
    has refused an order's co-signed payout, its clock release waits for the evidence. */
module GraceTheorem {
  import opened Numbers
  import opened Wrappers
  import opened Orders
  import opened Bridge
  import E = Escrow
  import B = EscrowBook
  import C = EscrowClocks
  import R = Registry
  import I = RegistryInvariants

  // ---- calls on the escrow ----

  /** An order that stays live keeps its clocks, its registry rows and, unless re-pinned, its pin. */
  lemma EscrowKeepsLife(sys: System, act: E.Action, x: E.Answers, now: u64, o: Order)
    requires Inv(sys, now) && E.Live(E.StatusOf(sys.escrow.book, o))
    requires E.Live(E.StatusOf(Step(sys, OnEscrow(act, x), now).escrow.book, o))
    ensures var n := Step(sys, OnEscrow(act, x), now);
            && E.OrderTiming(sys.escrow.wiring, sys.escrow.book, o).Some?
            && E.OrderTiming(n.escrow.wiring, n.escrow.book, o) == E.OrderTiming(sys.escrow.wiring, sys.escrow.book, o)
            && C.SameLock(E.RecordOf(sys.escrow.book, o), E.RecordOf(n.escrow.book, o))
            && SignerKeys(n, o) == SignerKeys(sys, o) && Finish(n, o) == Finish(sys, o)
  {
    assert OrderInv(sys, o, now);
    C.RowAfter(sys.escrow, act, x, now, o);
    C.ClocksNeverMove(sys.escrow, act, x, now, o);
    SameRegistry(sys, act, x, now, o);
  }

  /** The registry an order was locked under stays the one it is judged by, whatever is wired later. */
  lemma SameRegistry(sys: System, act: E.Action, x: E.Answers, now: u64, o: Order)
    requires Inv(sys, now) && E.Live(E.StatusOf(sys.escrow.book, o))
    requires E.RecordOf(E.Step(sys.escrow, act, x, now).book, o).registryEpoch
          == E.RecordOf(sys.escrow.book, o).registryEpoch
    ensures SignerKeys(Step(sys, OnEscrow(act, x), now), o) == SignerKeys(sys, o)
  {
    assert C.StampInv(sys.escrow.wiring, o, sys.escrow.book.orders[o], now);
    C.StepWiring(sys.escrow, act, x, now);
  }

  /** A lock pins a slot that is usable then. */
  lemma LockPins(sys: System, act: E.Action, x: E.Answers, now: u64, o: Order)
    requires Inv(sys, now) && Honest(sys, OnEscrow(act, x), now)
    requires act.LockForOrder? && act.order == o && E.CanLock(sys.escrow, o, x, now)
    ensures OrderInv(Step(sys, OnEscrow(act, x), now), o, now)
  {
    var n := Step(sys, OnEscrow(act, x), now);
    var at := sys.escrow.wiring.registry.value;
    LockReads(sys, act, x, now, o);
    RegistryInv(sys, at, now);
    I.EmptyInv(now);
    I.StopTime(SignerKeys(n, o), act.slot, now);
    C.StepInv(sys.escrow, act, x, now);
  }

  /** What a lock stamps, read back: this second, the wired registry, the pinned slot, current clocks. */
  lemma LockReads(sys: System, act: E.Action, x: E.Answers, now: u64, o: Order)
    requires Inv(sys, now) && Honest(sys, OnEscrow(act, x), now)
    requires act.LockForOrder? && act.order == o && E.CanLock(sys.escrow, o, x, now)
    ensures sys.escrow.wiring.registry.Some?
    ensures var n := Step(sys, OnEscrow(act, x), now);
            && E.OrderTiming(n.escrow.wiring, n.escrow.book, o).Some?
            && SignerKeys(n, o) == R.KeysOf(RegistryAt(sys, sys.escrow.wiring.registry.value), o.adSettlementSigner)
            && var r := E.RecordOf(n.escrow.book, o);
               r.lockedAt == now && r.pinnedSlot == act.slot && r.anchorDelay <= MAX_ANCHOR_DELAY && !r.repinned
  {
    assert E.Step(sys.escrow, act, x, now).book == E.Locked(sys.escrow.book, o, E.LockRecord(sys.escrow, o, act.slot, x, now));
    assert C.WiringInv(sys.escrow.wiring, now);
  }

  lemma EscrowKeepsOrder(sys: System, act: E.Action, x: E.Answers, now: u64, o: Order)
    requires Inv(sys, now) && Honest(sys, OnEscrow(act, x), now)
    requires E.Live(E.StatusOf(Step(sys, OnEscrow(act, x), now).escrow.book, o))
    ensures OrderInv(Step(sys, OnEscrow(act, x), now), o, now)
  {
    C.RowAfter(sys.escrow, act, x, now, o);
    if E.Live(E.StatusOf(sys.escrow.book, o)) {
      assert OrderInv(sys, o, now);
      EscrowKeepsLife(sys, act, x, now, o);
    } else {
      LockPins(sys, act, x, now, o);
    }
  }

  // ---- calls on a registry ----

  /** While an order is live its signer's registry cannot prune at once or be left: the escrow, being
      asked, reports it. */
  lemma EscrowReports(sys: System, at: Address, call: R.Action, others: set<GuardId>, now: u64, o: Order)
    requires Inv(sys, now) && E.Live(E.StatusOf(sys.escrow.book, o))
    requires R.OnAccount(call) && call.account == o.adSettlementSigner
    ensures !R.AtOnce(RegistryAt(sys, at), Reporting(sys, call, others))
  {
    RegistryInv(sys, at, now);
    B.LiveIsReserved(sys.escrow.book, o);
    assert RegistryAt(sys, at).guards != [] ==> sys.escrow.self.id in RegistryAt(sys, at).guards;
  }

  /** A registry call moves the rows of the orders locked under that registry, and no other's. */
  lemma KeysUnderCall(sys: System, at: Address, call: R.Action, others: set<GuardId>, now: u64, o: Order)
    ensures var n, epoch := Step(sys, OnRegistry(at, call, others), now), E.RecordOf(sys.escrow.book, o).registryEpoch as nat;
            SignerKeys(n, o)
            == if epoch in sys.escrow.wiring.registryAt && sys.escrow.wiring.registryAt[epoch] == at
               then R.KeysOf(R.Step(RegistryAt(sys, at), call, now, Reporting(sys, call, others)), o.adSettlementSigner)
               else SignerKeys(sys, o)
  {
  }

  /** What a registry call can do to a live order's pin: nothing before the moment it is made, nothing
      that delays a stop, and no forgetting before every clock of the order is over. */
  lemma RegistryMovesPin(sys: System, at: Address, call: R.Action, others: set<GuardId>, now: u64, o: Order)
    requires Inv(sys, now) && E.Live(E.StatusOf(sys.escrow.book, o))
    ensures var n := Step(sys, OnRegistry(at, call, others), now);
            var r := E.RecordOf(sys.escrow.book, o);
            && (r.repinned || Finish(sys, o) <= now
                || (r.pinnedSlot in SignerKeys(n, o).slots
                    && (PinExpiry(n, o) == 0 || r.lockedAt <= PinExpiry(n, o))
                    && (PinExpiry(sys, o) != 0 ==> 0 < PinExpiry(n, o) <= PinExpiry(sys, o))))
  {
    assert OrderInv(sys, o, now);
    assert C.StampInv(sys.escrow.wiring, o, sys.escrow.book.orders[o], now);
    var r := E.RecordOf(sys.escrow.book, o);
    KeysUnderCall(sys, at, call, others, now, o);
    if !r.repinned && now < Finish(sys, o)
       && sys.escrow.wiring.registryAt[r.registryEpoch as nat] == at {
      PinUnderCall(sys, at, call, others, now, o);
    }
  }

  lemma PinUnderCall(sys: System, at: Address, call: R.Action, others: set<GuardId>, now: u64, o: Order)
    requires Inv(sys, now) && E.Live(E.StatusOf(sys.escrow.book, o)) && OrderInv(sys, o, now)
    requires !E.RecordOf(sys.escrow.book, o).repinned && now < Finish(sys, o)
    requires var epoch := E.RecordOf(sys.escrow.book, o).registryEpoch as nat;
             epoch in sys.escrow.wiring.registryAt && sys.escrow.wiring.registryAt[epoch] == at
    requires E.RecordOf(sys.escrow.book, o).lockedAt <= now
    ensures var s, r := RegistryAt(sys, at), E.RecordOf(sys.escrow.book, o);
            var k := R.KeysOf(R.Step(s, call, now, Reporting(sys, call, others)), o.adSettlementSigner);
            && r.pinnedSlot in k.slots
            && (R.ExpiredAt(k, r.pinnedSlot) == 0 || r.lockedAt <= R.ExpiredAt(k, r.pinnedSlot))
            && (PinExpiry(sys, o) != 0 ==> 0 < R.ExpiredAt(k, r.pinnedSlot) <= PinExpiry(sys, o))
  {
    var s, r, signer := RegistryAt(sys, at), E.RecordOf(sys.escrow.book, o), o.adSettlementSigner;
    var open := Reporting(sys, call, others);
    RegistryInv(sys, at, now);
    if R.OnAccount(call) && call.account == signer {
      EscrowReports(sys, at, call, others, now, o);
    }
    if PinExpiry(sys, o) != 0 {
      I.StopSurvives(s, call, now, open, signer, r.pinnedSlot);
      if now > SatAdd64(PinExpiry(sys, o), R.GRACE_PERIOD) {
        RetentionOutlastsClocks(sys, o, now, PinExpiry(sys, o));
      }
    }
    SlotStays(s, call, now, open, signer, r.pinnedSlot);
    if r.pinnedSlot in R.KeysOf(R.Step(s, call, now, open), signer).slots {
      I.StopIsNotBackdated(s, call, now, open, signer, r.pinnedSlot);
    }
  }

  /** A slot with no stop is never dropped while an order is open on its account; and what was dropped
      reads as never stopped. */
  lemma SlotStays(s: R.State, call: R.Action, now: u64, open: set<GuardId>, a: R.Account, id: R.SlotId)
    requires I.Inv(s, now) && id in R.KeysOf(s, a).slots
    requires R.OnAccount(call) && call.account == a ==> !R.AtOnce(s, open)
    ensures var n := R.KeysOf(R.Step(s, call, now, open), a);
            id in n.slots || (R.ExpiredAt(R.KeysOf(s, a), id) != 0 && R.ExpiredAt(n, id) == 0)
  {
    I.EmptyInv(now);
    if id !in R.KeysOf(R.Step(s, call, now, open), a).slots {
      I.DroppedIsPast(s, call, now, open, a, id);
      I.StepOn(s, call, now, open, a);
    }
  }

  /** The wiring assumption is needed: with guards wired that leave the escrow out, and none of them
      reporting, an owner who leaves the registry makes a live order's kill read as no kill at once. */
  lemma UnwiredGuardsForget(sys: System, at: Address, nonce: u64, others: set<GuardId>, now: u64, o: Order)
    requires var epoch := E.RecordOf(sys.escrow.book, o).registryEpoch as nat;
             epoch in sys.escrow.wiring.registryAt && sys.escrow.wiring.registryAt[epoch] == at
    requires I.Inv(RegistryAt(sys, at), now)
    requires var s, call := RegistryAt(sys, at), R.Revoke(o.adSettlementSigner, nonce, true);
             && !s.paused && s.guards != [] && sys.escrow.self.id !in s.guards
             && (forall g :: g in s.guards ==> g !in others)
             && R.NonceOk(R.KeysOf(s, o.adSettlementSigner), nonce)
             && R.KeysOf(s, o.adSettlementSigner).generation < U64_MAX
    ensures PinExpiry(Step(sys, OnRegistry(at, R.Revoke(o.adSettlementSigner, nonce, true), others), now), o) == 0
  {
    I.EmptyInv(now);
    var s, call := RegistryAt(sys, at), R.Revoke(o.adSettlementSigner, nonce, true);
    I.StepOn(s, call, now, Reporting(sys, call, others), o.adSettlementSigner);
  }

  // ---- every step ----

  lemma StepOrder(sys: System, e: Event, now: u64, o: Order)
    requires Inv(sys, now) && Honest(sys, e, now)
    requires E.Live(E.StatusOf(Step(sys, e, now).escrow.book, o))
    ensures OrderInv(Step(sys, e, now), o, now)
  {
    match e {
      case OnEscrow(act, x) => EscrowKeepsOrder(sys, act, x, now, o);
      case OnRegistry(at, call, others) =>
        assert OrderInv(sys, o, now);
        RegistryMovesPin(sys, at, call, others, now, o);
    }
  }

  lemma StepRegistries(sys: System, e: Event, now: u64, at: Address)
    requires Inv(sys, now) && Honest(sys, e, now) && at in Step(sys, e, now).registries
    ensures I.Inv(Step(sys, e, now).registries[at], now)
    ensures GuardsInv(sys.escrow.self.id, Step(sys, e, now).registries[at])
  {
    RegistryInv(sys, at, now);
    if e.OnRegistry? {
      I.StepInv(RegistryAt(sys, at), e.call, now, Reporting(sys, e.call, e.others));
    }
  }

  lemma StepInv(sys: System, e: Event, now: u64)
    requires Inv(sys, now) && Honest(sys, e, now)
    ensures Inv(Step(sys, e, now), now)
  {
    var n := Step(sys, e, now);
    if e.OnEscrow? {
      B.StepInv(sys.escrow, e.act, e.x, now);
      C.StepInv(sys.escrow, e.act, e.x, now);
    }
    forall at | at in n.registries ensures I.Inv(n.registries[at], now) && GuardsInv(n.escrow.self.id, n.registries[at]) {
      StepRegistries(sys, e, now, at);
    }
    forall o | E.Live(E.StatusOf(n.escrow.book, o)) ensures OrderInv(n, o, now) {
      StepOrder(sys, e, now, o);
    }
  }

  lemma ClockInv(sys: System, now: u64, later: u64)
    requires Inv(sys, now) && now <= later
    ensures Inv(sys, later)
  {
    C.ClockInv(sys.escrow, now, later);
    forall at | at in sys.registries ensures I.Inv(sys.registries[at], later) {
      I.ClockInv(sys.registries[at], now, later);
    }
    forall o | E.Live(E.StatusOf(sys.escrow.book, o)) ensures OrderInv(sys, o, later) {
      assert OrderInv(sys, o, now);
    }
  }

  // ---- a pulled lever stays pulled ----

  /** An ad's maker never changes. */
  lemma MakerStays(s: E.State, act: E.Action, x: E.Answers, now: u64, id: AdId)
    requires id in s.book.ads
    ensures id in E.Step(s, act, x, now).book.ads
    ensures E.Step(s, act, x, now).book.ads[id].maker == s.book.ads[id].maker
  {
  }

  lemma HaltShows(s: E.State, act: E.Action, x: E.Answers, now: u64, maker: Address, lockedAt: u64)
    requires E.HaltDenies(s, maker, lockedAt) && lockedAt <= now
    ensures E.HaltDenies(E.Step(s, act, x, now), maker, lockedAt)
  {
  }

  lemma VerifierShows(s: E.State, act: E.Action, x: E.Answers, now: u64, chain: ChainId, lockedAt: u64)
    requires chain !in s.wiring.verifiers && lockedAt < now
    ensures var n := E.Step(s, act, x, now).wiring;
            chain !in n.verifiers || lockedAt < E.ChangedAt(n, chain)
  {
    if act.Admin? {
      SettingShows(s.wiring, act.setting, now, chain, lockedAt);
    }
  }

  /** A missing verifier can only come back by a set, which stamps its own second. */
  lemma SettingShows(w: E.Wiring, g: E.Setting, now: u64, chain: ChainId, lockedAt: u64)
    requires chain !in w.verifiers && lockedAt < now
    ensures chain !in E.Set(w, g, now).verifiers || lockedAt < E.ChangedAt(E.Set(w, g, now), chain)
  {
  }

  lemma EscrowKeepsLever(sys: System, act: E.Action, x: E.Answers, now: u64, o: Order)
    requires Inv(sys, now) && E.Live(E.StatusOf(sys.escrow.book, o))
    requires E.Live(E.StatusOf(Step(sys, OnEscrow(act, x), now).escrow.book, o))
    requires E.OrderTiming(sys.escrow.wiring, sys.escrow.book, o).Some? && o.adId in sys.escrow.book.ads
    requires Levered(sys, o, now)
    ensures var n := Step(sys, OnEscrow(act, x), now);
            && E.OrderTiming(n.escrow.wiring, n.escrow.book, o).Some? && o.adId in n.escrow.book.ads
            && Levered(n, o, now)
  {
    var n, r := Step(sys, OnEscrow(act, x), now), E.RecordOf(sys.escrow.book, o);
    EscrowKeepsLife(sys, act, x, now, o);
    MakerStays(sys.escrow, act, x, now, o.adId);
    C.StepWiring(sys.escrow, act, x, now);
    assert C.StampInv(sys.escrow.wiring, o, sys.escrow.book.orders[o], now);
    C.StepInv(sys.escrow, act, x, now);
    B.StepInv(sys.escrow, act, x, now);
    C.CutoffIsTheLocks(sys.escrow, now, o);
    C.CutoffIsTheLocks(n.escrow, now, o);
    if E.HaltDenies(sys.escrow, sys.escrow.book.ads[o.adId].maker, r.lockedAt) {
      HaltShows(sys.escrow, act, x, now, sys.escrow.book.ads[o.adId].maker, r.lockedAt);
    }
    if o.orderChainId !in sys.escrow.wiring.verifiers && r.lockedAt < now {
      VerifierShows(sys.escrow, act, x, now, o.orderChainId, r.lockedAt);
    }
  }

  lemma LeverStays(sys: System, e: Event, now: u64, o: Order)
    requires Inv(sys, now) && Honest(sys, e, now) && E.Live(E.StatusOf(sys.escrow.book, o))
    requires E.Live(E.StatusOf(Step(sys, e, now).escrow.book, o))
    requires E.OrderTiming(sys.escrow.wiring, sys.escrow.book, o).Some? && o.adId in sys.escrow.book.ads
    requires Levered(sys, o, now)
    ensures var n := Step(sys, e, now);
            && E.OrderTiming(n.escrow.wiring, n.escrow.book, o).Some? && o.adId in n.escrow.book.ads
            && Levered(n, o, now)
  {
    match e {
      case OnEscrow(act, x) => EscrowKeepsLever(sys, act, x, now, o);
      case OnRegistry(at, call, others) => RegistryMovesPin(sys, at, call, others, now, o);
    }
  }

  /** A lever that shows denies the co-signed payout, while the longest clock still runs. */
  lemma LeverDenies(sys: System, o: Order, x: E.Answers, now: u64)
    requires Inv(sys, now) && E.Live(E.StatusOf(sys.escrow.book, o)) && x.expiredAt == PinExpiry(sys, o)
    requires E.OrderTiming(sys.escrow.wiring, sys.escrow.book, o).Some? && o.adId in sys.escrow.book.ads
    requires Levered(sys, o, now) && now < Finish(sys, o)
    ensures E.Denied(sys.escrow, sys.escrow.book.ads[o.adId].maker, o, E.Cutoff(sys.escrow.book, o, TimingOf(sys, o)), x)
  {
    assert C.StampInv(sys.escrow.wiring, o, sys.escrow.book.orders[o], now);
  }

  /** A levered order's cancel is denied the early clock: it waits the grace. */
  lemma LeverWaits(sys: System, o: Order, x: E.Answers, now: u64)
    requires Inv(sys, now) && Honest(sys, OnEscrow(E.FinalizeCancel(o), x), now)
    requires E.OrderTiming(sys.escrow.wiring, sys.escrow.book, o).Some? && o.adId in sys.escrow.book.ads
    requires E.CanFinalizeCancel(sys.escrow, o, x, now) && Levered(sys, o, now)
    ensures Finish(sys, o) <= now
  {
    if now < Finish(sys, o) {
      LeverDenies(sys, o, x, now);
      C.CutoffIsTheLocks(sys.escrow, now, o);
      DeniedWaits(sys.escrow, o, TimingOf(sys, o), x, now);
    }
  }

  /** A denied cancel waits the window, a buffer more, and at least the anchor delay of the lock. */
  lemma DeniedWaits(s: E.State, o: Order, t: E.Timing, x: E.Answers, now: u64)
    requires E.OrderTiming(s.wiring, s.book, o) == Some(t) && E.CanFinalizeCancel(s, o, x, now)
    requires E.Denied(s, s.book.ads[o.adId].maker, o, E.Cutoff(s.book, o, t), x)
    requires E.WindowEnd(s.book, o, o.deadline, t.buffer) == SatAdd64(o.deadline, t.buffer)
    ensures Min(o.deadline + 2 * t.buffer + E.RecordOf(s.book, o).anchorDelay, U64_MAX) <= now
  {
    GraceAdds(o.deadline, t.buffer, E.RecordOf(s.book, o).anchorDelay, E.AnchorDelayNow(s.wiring, x).value);
  }

  lemma GraceAdds(deadline: u64, buffer: u64, snapshot: u64, current: u64)
    ensures Min(deadline + 2 * buffer + snapshot, U64_MAX)
         <= SatAdd64(SatAdd64(deadline, buffer), SatAdd64(Max(current, snapshot), buffer))
  {
  }

  // ---- runs ----

  datatype Timed = Timed(now: u64, e: Event)

  /** Ledger time never goes back, and every answer and wiring is as assumed. */
  predicate Fair(sys: System, from: u64, events: seq<Timed>)
    decreases events
  {
    events == []
    || (from <= events[0].now && Honest(sys, events[0].e, events[0].now)
        && Fair(Step(sys, events[0].e, events[0].now), events[0].now, events[1..]))
  }

  function EndTime(from: u64, events: seq<Timed>): u64
    decreases events
  {
    if events == [] then from else EndTime(events[0].now, events[1..])
  }

  function Run(sys: System, events: seq<Timed>): System
    decreases events
  {
    if events == [] then sys else Run(Step(sys, events[0].e, events[0].now), events[1..])
  }

  /** The order is live before and after every event of the run. */
  predicate StaysLive(sys: System, events: seq<Timed>, o: Order)
    decreases events
  {
    E.Live(E.StatusOf(sys.escrow.book, o))
    && (events == [] || StaysLive(Step(sys, events[0].e, events[0].now), events[1..], o))
  }

  lemma {:induction false} RunInv(sys: System, from: u64, events: seq<Timed>)
    requires Inv(sys, from) && Fair(sys, from, events)
    ensures Inv(Run(sys, events), EndTime(from, events))
    ensures from <= EndTime(from, events)
    decreases events
  {
    if events != [] {
      ClockInv(sys, from, events[0].now);
      StepInv(sys, events[0].e, events[0].now);
      RunInv(Step(sys, events[0].e, events[0].now), events[0].now, events[1..]);
    }
  }

  lemma {:induction false} LeverLasts(sys: System, from: u64, events: seq<Timed>, o: Order)
    requires Inv(sys, from) && Fair(sys, from, events) && StaysLive(sys, events, o)
    requires E.OrderTiming(sys.escrow.wiring, sys.escrow.book, o).Some? && o.adId in sys.escrow.book.ads
    requires Levered(sys, o, from)
    ensures var n := Run(sys, events);
            && E.OrderTiming(n.escrow.wiring, n.escrow.book, o).Some? && o.adId in n.escrow.book.ads
            && Levered(n, o, EndTime(from, events)) && Finish(n, o) == Finish(sys, o)
    decreases events
  {
    if events != [] {
      var e := events[0];
      var n := Step(sys, e.e, e.now);
      ClockInv(sys, from, e.now);
      StepInv(sys, e.e, e.now);
      LeverStays(sys, e.e, e.now, o);
      if e.e.OnEscrow? {
        EscrowKeepsLife(sys, e.e.act, e.e.x, e.now, o);
      }
      LeverLasts(n, e.now, events[1..], o);
    }
  }

  /** The evidence grace. Take any run of the escrow and its registries, and any moment of an order's
      life at which the maker's halt is in force, or the order has been re-pinned, or its chain's
      verifier has changed or is missing in a later second than its lock, or its pinned slot has been
      stopped no later than its presentation cutoff. However the run goes on, a cancel of the order
      succeeds no earlier than its deadline, two buffers and the anchor delay stamped at its lock. */
  lemma EvidenceGrace(sys: System, from: u64, events: seq<Timed>, o: Order, x: E.Answers, now: u64)
    requires Inv(sys, from) && Fair(sys, from, events) && StaysLive(sys, events, o)
    requires E.OrderTiming(sys.escrow.wiring, sys.escrow.book, o).Some? && o.adId in sys.escrow.book.ads
    requires Pulled(sys, o, from)
    requires EndTime(from, events) <= now && Honest(Run(sys, events), OnEscrow(E.FinalizeCancel(o), x), now)
    requires E.Accepted(Run(sys, events).escrow, E.FinalizeCancel(o), x, now)
    ensures Finish(sys, o) <= now
  {
    LeverLasts(sys, from, events, o);
    RunInv(sys, from, events);
    ClockInv(Run(sys, events), EndTime(from, events), now);
    LeverWaits(Run(sys, events), o, x, now);
  }
}
