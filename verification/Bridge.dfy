/** The escrow and the key registries it is wired to, run together: the evidence grace.

    A step is a call on the escrow or on any registry, in any order, by anyone. The escrow's reads of
    a registry are answered by that registry's rows at that moment; every other answer it gets, the
    dispute module's and the tokens' included, is arbitrary. Two things are assumed of the outside:
    a registry whose position guards are wired has the escrow among them, and the order chain's
    anchor delay is within the root anchor's own bound. */
module Bridge {
  import opened Numbers
  import opened Wrappers
  import opened Orders
  import E = Escrow
  import B = EscrowBook
  import C = EscrowClocks
  import R = Registry
  import I = RegistryInvariants

  const MAX_ANCHOR_DELAY: nat := 7 * 24 * 60 * 60

  type GuardId = int

  datatype System = System(escrow: E.State, registries: map<Address, R.State>)

  datatype Event =
    | OnEscrow(act: E.Action, x: E.Answers)
    /** `others`: which other guards report the account as having an open position. */
    | OnRegistry(at: Address, call: R.Action, others: set<GuardId>)

  function RegistryAt(sys: System, at: Address): R.State {
    if at in sys.registries then sys.registries[at] else R.EMPTY
  }

  /** The rows an order's signer is judged by: those of the registry the order was locked under. */
  function SignerKeys(sys: System, o: Order): R.Keys {
    var epoch := E.RecordOf(sys.escrow.book, o).registryEpoch as nat;
    if epoch in sys.escrow.wiring.registryAt
    then R.KeysOf(RegistryAt(sys, sys.escrow.wiring.registryAt[epoch]), o.adSettlementSigner)
    else R.FRESH
  }

  /** `expired_at` of the order's pinned slot. */
  function PinExpiry(sys: System, o: Order): u64 {
    R.ExpiredAt(SignerKeys(sys, o), E.RecordOf(sys.escrow.book, o).pinnedSlot)
  }

  /** The guards that report an open position: the escrow exactly while it counts one. */
  function Reporting(sys: System, call: R.Action, others: set<GuardId>): set<GuardId> {
    others - {sys.escrow.self.id}
    + (if R.OnAccount(call) && E.Get(sys.escrow.book.inFlight, call.account) > 0 then {sys.escrow.self.id} else {})
  }

  /** The answers the registries give the escrow, and the assumptions on the outside. */
  predicate Honest(sys: System, e: Event, now: u64) {
    match e
    case OnEscrow(act, x) =>
      && (x.anchorDelay.Some? ==> x.anchorDelay.value <= MAX_ANCHOR_DELAY)
      && (act.FinalizeCancel? || act.FinalizeDispute? ==> x.expiredAt == PinExpiry(sys, act.order))
      && (act.LockForOrder? && x.slotUsable && sys.escrow.wiring.registry.Some? ==>
            R.SlotUsable(R.KeysOf(RegistryAt(sys, sys.escrow.wiring.registry.value), act.order.adSettlementSigner),
                         act.slot, now))
    case OnRegistry(_, call, _) => call.SetGuards? ==> call.guards == [] || sys.escrow.self.id in call.guards
  }

  function Step(sys: System, e: Event, now: u64): System {
    match e
    case OnEscrow(act, x) => sys.(escrow := E.Step(sys.escrow, act, x, now))
    case OnRegistry(at, call, others) =>
      sys.(registries := sys.registries[at := R.Step(RegistryAt(sys, at), call, now, Reporting(sys, call, others))])
  }

  // ---- what holds of every live order ----

  /** The order's own clocks. */
  function TimingOf(sys: System, o: Order): E.Timing
    requires E.OrderTiming(sys.escrow.wiring, sys.escrow.book, o).Some?
  {
    E.OrderTiming(sys.escrow.wiring, sys.escrow.book, o).value
  }

  /** When the release of a denied order may happen at the earliest: its window's end, a buffer for
      presenting, and the anchor delay stamped at its lock. */
  function Finish(sys: System, o: Order): nat
    requires E.OrderTiming(sys.escrow.wiring, sys.escrow.book, o).Some?
  {
    Min(o.deadline + 2 * TimingOf(sys, o).buffer + E.RecordOf(sys.escrow.book, o).anchorDelay, U64_MAX)
  }

  /** The pinned slot is stored and has not stopped before the lock, or the order has been re-pinned,
      or its longest clock is already over. */
  predicate PinHolds(sys: System, o: Order, now: u64)
    requires E.OrderTiming(sys.escrow.wiring, sys.escrow.book, o).Some?
  {
    var r := E.RecordOf(sys.escrow.book, o);
    || r.repinned || Finish(sys, o) <= now
    || (r.pinnedSlot in SignerKeys(sys, o).slots
        && (PinExpiry(sys, o) == 0 || r.lockedAt <= PinExpiry(sys, o)))
  }

  ghost predicate OrderInv(sys: System, o: Order, now: u64) {
    E.OrderTiming(sys.escrow.wiring, sys.escrow.book, o).Some?
    && E.RecordOf(sys.escrow.book, o).anchorDelay <= MAX_ANCHOR_DELAY
    && PinHolds(sys, o, now)
  }

  ghost predicate GuardsInv(self: GuardId, s: R.State) {
    s.guards == [] || self in s.guards
  }

  ghost predicate Inv(sys: System, now: u64) {
    && B.Inv(sys.escrow.book) && C.Inv(sys.escrow, now)
    && (forall at :: at in sys.registries ==>
          I.Inv(sys.registries[at], now) && GuardsInv(sys.escrow.self.id, sys.registries[at]))
    && (forall o :: E.Live(E.StatusOf(sys.escrow.book, o)) ==> OrderInv(sys, o, now))
  }

  function New(self: Address, w: Asset): System {
    System(E.New(self, w), map[])
  }

  lemma NewInv(self: Address, w: Asset, now: u64)
    ensures Inv(New(self, w), now)
  {
    B.NewInv(self, w);
    C.NewInv(self, w, now);
  }

  lemma RegistryInv(sys: System, at: Address, now: u64)
    requires Inv(sys, now)
    ensures I.Inv(RegistryAt(sys, at), now) && GuardsInv(sys.escrow.self.id, RegistryAt(sys, at))
  {
    I.EmptyInv(now);
  }

  lemma KeysInv(sys: System, o: Order, now: u64)
    requires Inv(sys, now)
    ensures I.KeysInv(SignerKeys(sys, o), now)
  {
    I.EmptyInv(now);
    var epoch := E.RecordOf(sys.escrow.book, o).registryEpoch as nat;
    if epoch in sys.escrow.wiring.registryAt {
      RegistryInv(sys, sys.escrow.wiring.registryAt[epoch], now);
    }
  }

  /** The retention outlasts the longest clock: thirty days past a slot's stop, however late in its
      order's life it came, every clock of the order is over. */
  lemma RetentionOutlastsClocks(sys: System, o: Order, now: u64, stop: u64)
    requires Inv(sys, now) && E.Live(E.StatusOf(sys.escrow.book, o))
    requires E.RecordOf(sys.escrow.book, o).lockedAt <= stop && SatAdd64(stop, R.GRACE_PERIOD) < now
    ensures E.OrderTiming(sys.escrow.wiring, sys.escrow.book, o).Some? && Finish(sys, o) <= now
  {
    assert OrderInv(sys, o, now);
    C.CutoffIsTheLocks(sys.escrow, now, o);
    assert C.StampInv(sys.escrow.wiring, o, sys.escrow.book.orders[o], now);
  }

  // ---- the levers ----

  /** The maker side has refused the co-signed payout at some moment of the order's life, in a way
      that still shows; or the longest clock is over anyway. */
  predicate Levered(sys: System, o: Order, now: u64)
    requires E.OrderTiming(sys.escrow.wiring, sys.escrow.book, o).Some? && o.adId in sys.escrow.book.ads
  {
    var s, r := sys.escrow, E.RecordOf(sys.escrow.book, o);
    || Finish(sys, o) <= now
    || r.repinned
    || E.HaltDenies(s, s.book.ads[o.adId].maker, r.lockedAt)
    || E.ChangedAt(s.wiring, o.orderChainId) > r.lockedAt
    || (o.orderChainId !in s.wiring.verifiers && r.lockedAt < now)
    || (0 < PinExpiry(sys, o) <= E.Cutoff(s.book, o, TimingOf(sys, o)))
  }

  /** What the maker, or the admin's brake, can do to an order: the halt in force, the order re-pinned,
      its chain's verifier changed or missing in a later second than its lock, its pinned slot stopped
      no later than its presentation cutoff. */
  predicate Pulled(sys: System, o: Order, now: u64)
    requires E.OrderTiming(sys.escrow.wiring, sys.escrow.book, o).Some? && o.adId in sys.escrow.book.ads
  {
    var s, r := sys.escrow, E.RecordOf(sys.escrow.book, o);
    || E.IsHalted(s, s.book.ads[o.adId].maker)
    || r.repinned
    || E.ChangedAt(s.wiring, o.orderChainId) > r.lockedAt
    || (o.orderChainId !in s.wiring.verifiers && r.lockedAt < now)
    || (0 < PinExpiry(sys, o) <= E.Cutoff(s.book, o, TimingOf(sys, o)))
  }
}
