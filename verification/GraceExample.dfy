/** The evidence grace is exact, and it is reached: a claimed order under a lever can be cancelled
    from the grace on and not before, and an order's life that gets there, call by call. */
module GraceExample {
  import opened Numbers
  import opened Wrappers
  import opened Orders
  import opened Bridge
  import G = GraceTheorem
  import E = Escrow
  import B = EscrowBook
  import C = EscrowClocks
  import M = EscrowMoney
  import T = EscrowTheorems
  import R = Registry

  /** A pulled lever denies the co-signed payout. */
  lemma PulledDenies(sys: System, o: Order, x: E.Answers, now: u64)
    requires C.Inv(sys.escrow, now) && E.Live(E.StatusOf(sys.escrow.book, o)) && x.expiredAt == PinExpiry(sys, o)
    requires E.OrderTiming(sys.escrow.wiring, sys.escrow.book, o).Some? && o.adId in sys.escrow.book.ads
    requires Pulled(sys, o, now)
    ensures E.Denied(sys.escrow, sys.escrow.book.ads[o.adId].maker, o, E.Cutoff(sys.escrow.book, o, TimingOf(sys, o)), x)
  {
    assert C.StampInv(sys.escrow.wiring, o, sys.escrow.book.orders[o], now);
  }

  /** A denied cancel goes through exactly from the grace on. */
  lemma DeniedCancels(s: E.State, o: Order, t: E.Timing, x: E.Answers, now: u64)
    requires M.Inv(s) && C.Inv(s, now) && E.StatusOf(s.book, o).Claimed? && x.appended
    requires E.OrderTiming(s.wiring, s.book, o) == Some(t) && o.adId in s.book.ads
    requires E.Denied(s, s.book.ads[o.adId].maker, o, E.Cutoff(s.book, o, t), x)
    requires E.AnchorDelayNow(s.wiring, x).Some?
    requires E.AnchorDelayNow(s.wiring, x).value <= E.RecordOf(s.book, o).anchorDelay
    ensures E.CanFinalizeCancel(s, o, x, now)
       <==> Min(o.deadline + 2 * t.buffer + E.RecordOf(s.book, o).anchorDelay, U64_MAX) <= now
  {
    T.CancelsWhenItsClockSays(s, o, x, now);
    C.CutoffIsTheLocks(s, now, o);
    Saturates(o.deadline, t.buffer, E.RecordOf(s.book, o).anchorDelay);
  }

  /** The grace is no longer than it must be: while the anchor's delay has not grown past the one
      stamped at the lock, a levered order's cancel goes through exactly from the grace on. */
  lemma GraceIsExact(sys: System, o: Order, x: E.Answers, now: u64)
    requires Inv(sys, now) && M.Inv(sys.escrow) && E.StatusOf(sys.escrow.book, o).Claimed?
    requires Honest(sys, OnEscrow(E.FinalizeCancel(o), x), now) && x.appended
    requires E.AnchorDelayNow(sys.escrow.wiring, x).Some?
    requires E.AnchorDelayNow(sys.escrow.wiring, x).value <= E.RecordOf(sys.escrow.book, o).anchorDelay
    ensures E.OrderTiming(sys.escrow.wiring, sys.escrow.book, o).Some? && o.adId in sys.escrow.book.ads
    ensures Pulled(sys, o, now) ==> (E.CanFinalizeCancel(sys.escrow, o, x, now) <==> Finish(sys, o) <= now)
  {
    C.CutoffIsTheLocks(sys.escrow, now, o);
    B.LiveIsReserved(sys.escrow.book, o);
    if Pulled(sys, o, now) {
      PulledDenies(sys, o, x, now);
      DeniedCancels(sys.escrow, o, TimingOf(sys, o), x, now);
    }
  }

  lemma Saturates(deadline: u64, buffer: u64, delay: u64)
    ensures SatAdd64(SatAdd64(deadline, buffer), SatAdd64(delay, buffer)) == Min(deadline + 2 * buffer + delay, U64_MAX)
  {
  }

  // ---- a life of an order ----

  const ESCROW: Address := ContractAddress(100)
  const REGISTRY: Address := ContractAddress(60)
  const MAKER: Account := 20
  const CHAIN: ChainId := 5
  const CLOCKS: E.Timing := E.Timing(3600, 1800, 600, 0)
  const START: u64 := 1000
  const DEADLINE: u64 := 4600
  const GRACE: u64 := 8200
  const ORDER: Order :=
    Order(4, 3, 1000, 31, CHAIN, 9, 32, 1, MAKER, 33, 0, 7, 7, DEADLINE, MAKER, 0, 0)

  /** Every other contract agrees to everything, and no anchor is wired. */
  const YES: E.Answers :=
    E.Answers(true, true, true, 0, (0, 0, 0), None, None, true, true, true, 7, Some(1000), true, true, true, None,
              NoRuling, true, 0, true)

  function Wired(w: E.Wiring): System {
    New(ESCROW, 7).(escrow := E.New(ESCROW, 7).(wiring := w))
  }

  const NO_WIRING: E.Wiring := E.New(ESCROW, 7).wiring

  const WIRING: E.Wiring :=
    E.Wiring(false, E.FeeConfig(None, 0, 0), map[CHAIN := 9], map[(3, CHAIN) := 4], map[CHAIN := ContractAddress(50)],
             map[CHAIN := START], Some(REGISTRY), 1, map[1 := REGISTRY], map[(CHAIN, 1) := CLOCKS], map[CHAIN := 1], None, None)

  /** The same before the chain's verifier was wired. */
  const UNVERIFIED: E.Wiring := WIRING.(verifiers := map[], verifierChangedAt := map[])

  const KEYS: R.Keys :=
    R.FRESH.(nextSlotId := 1, live := [0], slots := map[0 := R.KeySlot(77, 0, START)], used := {77},
             keySlots := map[77 := 0], nonce := 1)

  const REGISTRIES: map<Address, R.State> := map[REGISTRY := R.EMPTY.(accounts := map[MAKER := KEYS])]

  const AD: E.Ad := E.Ad(CHAIN, 33, AccountAddress(MAKER), 3, 1000, 0, true, 4, MAKER)

  const MONEY: E.Money := E.Money(map[], map[3 := 1000], map[])

  /** The system with the ad as given and these orders, claims, halts and counts. */
  function Life(
    w: E.Wiring, ad: E.Ad, orders: map<Order, E.OrderRecord>, claims: map<Order, E.ClaimRecord>, halts: map<Address, E.Halt>,
    inFlight: map<Account, int>, log: seq<E.Leaf>): System
  {
    System(E.State(ESCROW, 7, w, halts, map[], E.Book(map[1 := ad], orders, claims, inFlight, {}, {}, log), MONEY),
           REGISTRIES)
  }

  const LOCK: E.OrderRecord := E.OrderRecord(E.Open, START, 1, 1, 0, 0, false)
  const HALTS: map<Address, E.Halt> := map[AccountAddress(MAKER) := E.Halt(true, 0)]

  const FUNDED: System := Life(UNVERIFIED, AD, map[], map[], map[], map[], [])
  const BARE: System :=
    Life(UNVERIFIED, AD.(locked := 1000), map[ORDER := LOCK], map[], map[], map[MAKER := 1], [E.Leaf(ORDER, E.OrderLeaf)])
  const LOCKED: System :=
    Life(WIRING, AD.(locked := 1000), map[ORDER := LOCK], map[], map[], map[MAKER := 1], [E.Leaf(ORDER, E.OrderLeaf)])
  const HALTED: System :=
    Life(WIRING, AD.(locked := 1000), map[ORDER := LOCK], map[], HALTS, map[MAKER := 1], [E.Leaf(ORDER, E.OrderLeaf)])
  const CLAIMED: System :=
    Life(WIRING, AD.(locked := 1000), map[ORDER := LOCK.(status := E.Claimed)], map[ORDER := E.ClaimRecord(DEADLINE, 6400)],
         HALTS, map[MAKER := 1], [E.Leaf(ORDER, E.OrderLeaf)])

  /** What the escrow and its registries keep. */
  ghost predicate Good(sys: System, now: u64) {
    Inv(sys, now) && M.Inv(sys.escrow)
  }

  lemma GoodStep(sys: System, e: Event, now: u64)
    requires Good(sys, now) && Honest(sys, e, now)
    ensures Good(Step(sys, e, now), now)
  {
    G.StepInv(sys, e, now);
    if e.OnEscrow? {
      M.StepInv(sys.escrow, e.act, e.x, now);
    }
  }

  lemma Sets(w: E.Wiring, g: E.Setting, w': E.Wiring)
    requires Good(Wired(w), START) && E.SettingOk(w, g) && w' == E.Set(w, g, START)
    ensures Good(Wired(w'), START)
  {
    assert Step(Wired(w), OnEscrow(E.Admin(g), YES), START) == Wired(w');
    GoodStep(Wired(w), OnEscrow(E.Admin(g), YES), START);
  }

  const ROUTED: E.Wiring := NO_WIRING.(chains := map[CHAIN := 9], routes := map[(3, CHAIN) := 4])
  const TIMED: E.Wiring := ROUTED.(timings := map[(CHAIN, 1) := CLOCKS], timingVersion := map[CHAIN := 1])

  lemma RouteIsReached()
    ensures Good(Wired(ROUTED), START)
  {
    NewInv(ESCROW, 7, START);
    M.NewInv(ESCROW, 7);
    assert Wired(NO_WIRING) == New(ESCROW, 7);
    Sets(NO_WIRING, E.Chain(CHAIN, 9), NO_WIRING.(chains := map[CHAIN := 9]));
    Sets(NO_WIRING.(chains := map[CHAIN := 9]), E.TokenRoute(3, 4, CHAIN), ROUTED);
  }

  lemma TimingIsReached()
    ensures Good(Wired(TIMED), START)
  {
    RouteIsReached();
    Sets(ROUTED, E.RouteTiming(CHAIN, CLOCKS), TIMED);
  }

  lemma WiringIsReached()
    ensures Good(Wired(UNVERIFIED), START)
  {
    TimingIsReached();
    Sets(TIMED, E.KeyRegistryAt(REGISTRY), UNVERIFIED);
  }

  lemma RegisterLeaves()
    ensures R.Step(R.EMPTY, R.Register(MAKER, 77, 0, START, true), START, {}) == REGISTRIES[REGISTRY]
  {
    assert R.Added(R.FRESH, 77, START, false).(nonce := 1) == KEYS;
  }

  lemma KeyIsRegistered()
    ensures Good(Wired(UNVERIFIED).(registries := REGISTRIES), START)
  {
    WiringIsReached();
    var sys, call := Wired(UNVERIFIED), R.Register(MAKER, 77, 0, START, true);
    RegisterLeaves();
    assert Reporting(sys, call, {}) == {};
    assert Step(sys, OnRegistry(REGISTRY, call, {}), START) == sys.(registries := REGISTRIES);
    GoodStep(sys, OnRegistry(REGISTRY, call, {}), START);
  }

  lemma CreateLeaves(sys: System, act: E.Action)
    requires sys == Wired(UNVERIFIED).(registries := REGISTRIES)
    requires act == E.CreateAd(AccountAddress(MAKER), 1, 3, 1000, CHAIN, 33, MAKER)
    ensures Step(sys, OnEscrow(act, YES), START) == FUNDED
  {
    assert E.CanCreate(sys.escrow, act, YES);
  }

  lemma AdIsFunded()
    ensures Good(FUNDED, START)
  {
    KeyIsRegistered();
    var sys, act := Wired(UNVERIFIED).(registries := REGISTRIES), E.CreateAd(AccountAddress(MAKER), 1, 3, 1000, CHAIN, 33, MAKER);
    CreateLeaves(sys, act);
    GoodStep(sys, OnEscrow(act, YES), START);
  }

  lemma OrderFits()
    ensures E.Amount(ORDER) == 1000 && E.CanLock(FUNDED.escrow, ORDER, YES, START)
    ensures E.LockRecord(FUNDED.escrow, ORDER, 0, YES, START) == LOCK
  {
  }

  lemma LockLeaves()
    ensures Step(FUNDED, OnEscrow(E.LockForOrder(ORDER, 0), YES), START) == BARE
  {
    OrderFits();
    assert E.Locked(FUNDED.escrow.book, ORDER, LOCK) == BARE.escrow.book;
  }

  lemma OrderIsLocked()
    ensures Good(BARE, START)
  {
    AdIsFunded();
    LockLeaves();
    GoodStep(FUNDED, OnEscrow(E.LockForOrder(ORDER, 0), YES), START);
  }

  lemma VerifierLeaves()
    ensures Step(BARE, OnEscrow(E.Admin(E.RootVerifier(CHAIN, ContractAddress(50))), YES), START) == LOCKED
  {
    assert E.Set(UNVERIFIED, E.RootVerifier(CHAIN, ContractAddress(50)), START) == WIRING;
  }

  /** The chain's verifier is wired within the lock's own second. */
  lemma VerifierIsWired()
    ensures Good(LOCKED, START)
  {
    OrderIsLocked();
    VerifierLeaves();
    GoodStep(BARE, OnEscrow(E.Admin(E.RootVerifier(CHAIN, ContractAddress(50))), YES), START);
  }

  lemma HaltLeaves()
    ensures Step(LOCKED, OnEscrow(E.HaltSettlement(AccountAddress(MAKER)), YES), START) == HALTED
  {
  }

  lemma MakerHalts()
    ensures Good(HALTED, START)
  {
    VerifierIsWired();
    HaltLeaves();
    GoodStep(LOCKED, OnEscrow(E.HaltSettlement(AccountAddress(MAKER)), YES), START);
  }

  lemma ClaimLeaves()
    ensures Step(HALTED, OnEscrow(E.ClaimCancel(ORDER), YES), DEADLINE) == CLAIMED
  {
    assert E.BookAfter(HALTED.escrow, E.ClaimCancel(ORDER), YES, DEADLINE) == CLAIMED.escrow.book;
  }

  lemma OrderIsClaimed()
    ensures Good(CLAIMED, DEADLINE)
  {
    MakerHalts();
    G.ClockInv(HALTED, START, DEADLINE);
    ClaimLeaves();
    GoodStep(HALTED, OnEscrow(E.ClaimCancel(ORDER), YES), DEADLINE);
  }

  lemma FinishIsGrace(now: u64)
    ensures E.OrderTiming(CLAIMED.escrow.wiring, CLAIMED.escrow.book, ORDER) == Some(CLOCKS)
    ensures Finish(CLAIMED, ORDER) == GRACE && Pulled(CLAIMED, ORDER, now)
    ensures Honest(CLAIMED, OnEscrow(E.FinalizeCancel(ORDER), YES), now)
    ensures E.AnchorDelayNow(CLAIMED.escrow.wiring, YES) == Some(0)
    ensures E.StatusOf(CLAIMED.escrow.book, ORDER) == E.Claimed
  {
  }

  lemma RefusedBefore()
    ensures Good(CLAIMED, GRACE - 1) && Pulled(CLAIMED, ORDER, GRACE - 1)
    ensures !E.CanFinalizeCancel(CLAIMED.escrow, ORDER, YES, GRACE - 1)
  {
    OrderIsClaimed();
    FinishIsGrace(GRACE - 1);
    G.ClockInv(CLAIMED, DEADLINE, GRACE - 1);
    GraceIsExact(CLAIMED, ORDER, YES, GRACE - 1);
  }

  lemma AcceptedThen()
    ensures E.CanFinalizeCancel(CLAIMED.escrow, ORDER, YES, GRACE)
  {
    OrderIsClaimed();
    FinishIsGrace(GRACE);
    G.ClockInv(CLAIMED, DEADLINE, GRACE);
    GraceIsExact(CLAIMED, ORDER, YES, GRACE);
  }

  /** The claimed order's cancel is refused a second before the grace is over, and goes through then,
      1800 s after its own window's end. */
  lemma GraceIsReached()
    ensures Good(CLAIMED, GRACE - 1) && Pulled(CLAIMED, ORDER, GRACE - 1)
    ensures !E.CanFinalizeCancel(CLAIMED.escrow, ORDER, YES, GRACE - 1)
    ensures E.CanFinalizeCancel(CLAIMED.escrow, ORDER, YES, GRACE)
  {
    RefusedBefore();
    AcceptedThen();
  }
}
