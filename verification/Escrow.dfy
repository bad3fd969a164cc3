/** The ad-side escrow as a state machine (`ad-manager` over `proofbridge_core::escrow_ops` and
    `escrow_storage`): ads hold liquidity, orders lock part of it, and every lock leaves through
    one of four doors (a fifth cancels an order that was never locked).

    Each call happens at a ledger time and either takes effect or changes nothing. What the escrow
    reads of other contracts (registry, verifiers, anchor, dispute module, tokens) is an answer
    handed to the call; the calls' authorizations are taken as given, an admin setter included. */
module Escrow {
  import opened Numbers
  import opened Wrappers
  import opened Fees
  import opened Orders

  const MIN_BUFFER: nat := 30 * 60
  const MAX_BUFFER: nat := 24 * 60 * 60
  const MAX_ORDER_WINDOW: nat := 7 * 24 * 60 * 60
  const MAX_DECIMALS: nat := 30

  datatype Status = Absent | Open | Filled | Claimed | Cancelled | Disputed | Resolved

  datatype OrderRecord = OrderRecord(
    status: Status, lockedAt: u64, registryEpoch: u32, timingVersion: u32, anchorDelay: u32, pinnedSlot: u32,
    repinned: bool)

  datatype ClaimRecord = ClaimRecord(openedAt: u64, finalizeAt: u64)

  datatype Ad = Ad(
    orderChainId: ChainId, adRecipient: Account, maker: Address, token: Token, balance: int, locked: int,
    open: bool, orderChainToken: Token, settlementSigner: Account)

  datatype Timing = Timing(minWindow: u64, buffer: u64, margin: u64, claimStagger: u64)

  datatype Halt = Halt(halted: bool, lastResumedAt: u64)

  datatype Domain = OrderLeaf | CancelLeaf | ForfeitLeaf | SettledLeaf

  datatype Leaf = Leaf(order: Order, domain: Domain)

  /** Ads, orders and the append-only log. A missing order row reads as `Absent`. */
  datatype Book = Book(
    ads: map<AdId, Ad>,
    orders: map<Order, OrderRecord>,
    claims: map<Order, ClaimRecord>,
    inFlight: map<Account, int>,
    settled: set<Order>,
    nullifiers: set<Id>,
    log: seq<Leaf>)

  /** Credits, and the escrow's balance in each token's own ledger. `surplus` is history: what it
      holds that no ad and no credit is owed. */
  datatype Money = Money(credits: map<(Account, Token), int>, holdings: map<Asset, int>, surplus: map<Asset, int>)

  datatype FeeConfig = FeeConfig(pool: Option<Account>, lpBps: u32, protocolBps: u32)

  datatype Wiring = Wiring(
    paused: bool,
    fees: FeeConfig,
    chains: map<ChainId, Id>,
    routes: map<(Token, ChainId), Token>,
    verifiers: map<ChainId, Address>,
    verifierChangedAt: map<ChainId, u64>,
    registry: Option<Address>,
    epoch: nat,
    registryAt: map<nat, Address>,
    timings: map<(ChainId, nat), Timing>,
    timingVersion: map<ChainId, nat>,
    anchor: Option<Address>,
    disputeManager: Option<Address>)

  datatype State = State(
    self: Address,
    wNative: Asset,
    wiring: Wiring,
    halts: map<Address, Halt>,
    modules: map<Order, Address>,
    book: Book,
    money: Money)

  function New(self: Address, wNative: Asset): State {
    State(self, wNative,
          Wiring(false, FeeConfig(None, 0, 0), map[], map[], map[], map[], None, 0, map[], map[], map[], None, None),
          map[], map[], Book(map[], map[], map[], map[], {}, {}, []), Money(map[], map[], map[]))
  }

  /** What other contracts answer while a call runs. */
  datatype Answers = Answers(
    signerUsable: bool,
    makerApproved: bool,
    slotUsable: bool,
    expiredAt: u64,
    repin: (u32, u32, u64),
    verifierRegistry: Option<Address>,
    anchorDelay: Option<u64>,
    anchored: bool,
    rootValid: bool,
    proofOk: bool,
    decimals: u32,
    /** What a pull delivers, if the token lets it through. */
    pulled: Option<nat>,
    /** Whether the token lets a payout, and the protocol's fee, through. */
    pays: bool,
    paysPool: bool,
    moduleOk: bool,
    filer: Option<Address>,
    ruling: Outcome,
    windowOver: bool,
    challengeDeadline: u64,
    appended: bool)

  // ---- reading rows ----

  function Get<K(==)>(m: map<K, int>, k: K): int {
    if k in m then m[k] else 0
  }

  /** A zero row is written as a removal. */
  function Put<K(==)>(m: map<K, int>, k: K, v: int): map<K, int> {
    if v == 0 then m - {k} else m[k := v]
  }

  const NO_RECORD: OrderRecord := OrderRecord(Absent, 0, 0, 0, 0, 0, false)

  function RecordOf(b: Book, o: Order): OrderRecord {
    if o in b.orders then b.orders[o] else NO_RECORD
  }

  function StatusOf(b: Book, o: Order): Status {
    RecordOf(b, o).status
  }

  /** The lock is held. */
  predicate Live(status: Status) {
    status.Open? || status.Claimed? || status.Disputed?
  }

  predicate Terminal(status: Status) {
    status.Filled? || status.Cancelled? || status.Resolved?
  }

  /** The signed amount in ad-chain units, 0 when it does not scale. */
  function Amount(o: Order): nat {
    match AdAmount(o)
    case Ok(v) => v
    case Err(_) => 0
  }

  // ---- clocks ----

  predicate TimingOk(t: Timing) {
    && MIN_BUFFER <= t.buffer <= MAX_BUFFER && t.margin <= t.buffer / 2
    && (t.claimStagger != 0 ==> t.claimStagger < t.minWindow)
    && t.margin <= t.minWindow <= MAX_ORDER_WINDOW / 2
  }

  /** The clocks of the version the order was locked under, never the live ones. */
  function OrderTiming(w: Wiring, b: Book, o: Order): Option<Timing> {
    var k := (o.orderChainId, RecordOf(b, o).timingVersion as nat);
    if k in w.timings then Some(w.timings[k]) else None
  }

  function WindowEnd(b: Book, o: Order, deadline: u64, buffer: u64): nat {
    if StatusOf(b, o).Claimed? && o in b.claims then b.claims[o].finalizeAt else SatAdd64(deadline, buffer)
  }

  /** The first second the co-signed unlock is refused. */
  function Cutoff(b: Book, o: Order, t: Timing): nat {
    SatSub(WindowEnd(b, o, o.deadline, t.buffer), t.margin)
  }

  predicate IsHalted(s: State, maker: Address) {
    maker in s.halts && s.halts[maker].halted
  }

  /** The order chain's verifier reads a registry other than `expected`. */
  predicate RegistrySplit(w: Wiring, chain: ChainId, expected: Option<Address>, x: Answers) {
    chain in w.verifiers && x.verifierRegistry.Some? && x.verifierRegistry != expected
  }

  predicate HaltDenies(s: State, maker: Address, lockedAt: u64) {
    maker in s.halts && (s.halts[maker].halted || s.halts[maker].lastResumedAt >= lockedAt)
  }

  function ChangedAt(w: Wiring, chain: ChainId): u64 {
    if chain in w.verifierChangedAt then w.verifierChangedAt[chain] else 0
  }

  predicate VerifierDenies(w: Wiring, chain: ChainId, lockedAt: u64) {
    chain !in w.verifiers || ChangedAt(w, chain) > lockedAt
  }

  /** `co_sign_denied`: a maker-side lever refused the co-signed payout of this order. */
  predicate Denied(s: State, maker: Address, o: Order, until: nat, x: Answers) {
    var r := RecordOf(s.book, o);
    || r.repinned
    || HaltDenies(s, maker, r.lockedAt)
    || VerifierDenies(s.wiring, o.orderChainId, r.lockedAt)
    || (r.registryEpoch as nat in s.wiring.registryAt
        && (RegistrySplit(s.wiring, o.orderChainId, Some(s.wiring.registryAt[r.registryEpoch as nat]), x)
            || (x.expiredAt != 0 && x.expiredAt <= until)))
  }

  /** The order chain's anchor delay as wired now; unreadable refuses. */
  function AnchorDelayNow(w: Wiring, x: Answers): Option<u64> {
    if w.anchor.None? then Some(0) else x.anchorDelay
  }

  /** How long a denied order's release waits past its window. */
  function Grace(s: State, o: Order, buffer: u64, x: Answers): Option<nat> {
    match AnchorDelayNow(s.wiring, x)
    case None => None
    case Some(d) => Some(SatAdd64(Max(d, RecordOf(s.book, o).anchorDelay), buffer))
  }

  /** The one cancel clock. */
  function CancelEnd(s: State, maker: Address, o: Order, t: Timing, x: Answers): Option<nat> {
    var end := WindowEnd(s.book, o, o.deadline, t.buffer);
    if !Denied(s, maker, o, Cutoff(s.book, o, t), x) then Some(end)
    else
      match Grace(s, o, t.buffer, x)
      case None => None
      case Some(g) => Some(SatAdd64(end, g))
  }

  /** The one dispute clock. */
  function DisputeEnd(s: State, maker: Address, o: Order, outcome: Outcome, x: Answers): Option<nat> {
    var until := x.challengeDeadline;
    if outcome.MakerForfeit? || !Denied(s, maker, o, until, x) then Some(until)
    else
      match OrderTiming(s.wiring, s.book, o)
      case None => None
      case Some(t) =>
        match Grace(s, o, t.buffer, x)
        case None => None
        case Some(g) => Some(SatAdd64(until, g))
  }

  /** An unruled dispute ends as a mutual refund. */
  function SettledOutcome(ruling: Outcome): Outcome {
    if ruling.NoRuling? then MutualRefund else ruling
  }

  // ---- money ----

  function Received(m: Money, asset: Asset, amount: int): Money {
    m.(holdings := m.holdings[asset := Get(m.holdings, asset) + amount])
  }

  /** A transfer to another address takes the amount out; one to the escrow itself moves nothing, and
      what it was owed for becomes surplus. */
  function Sent(m: Money, toSelf: bool, asset: Asset, amount: int): Money {
    if toSelf then m.(surplus := m.surplus[asset := Get(m.surplus, asset) + amount])
    else Received(m, asset, -amount)
  }

  /** The token lets out no more than the escrow holds, and no more than an i128. */
  predicate CanSend(m: Money, asset: Asset, amount: int, lets: bool) {
    lets && amount <= Get(m.holdings, asset) && amount <= I128_MAX
  }

  /** Best effort to an account, then credit. */
  function PaidOrCredited(m: Money, wNative: Asset, who: Account, token: Token, amount: int, lets: bool): Money {
    if who != 0 && CanSend(m, AssetOf(token, wNative), amount, lets)
    then Received(m, AssetOf(token, wNative), -amount)
    else m.(credits := Put(m.credits, (who, token), Get(m.credits, (who, token)) + amount))
  }

  /** A released lock's fee: what stays in the ad, and the protocol's. */
  function LpFee(o: Order, forfeit: bool): nat {
    if forfeit then 0 else BpsOf(Amount(o), o.lpFeeBps)
  }

  function ProtocolFee(o: Order): nat {
    BpsOf(Amount(o), o.protocolFeeBps)
  }

  /** What is left for the recipient. */
  function Net(o: Order, forfeit: bool): int {
    Amount(o) - LpFee(o, forfeit) - ProtocolFee(o)
  }

  /** The recipient's net, then the protocol's fee to the pool. */
  function PaidBoth(
    m: Money, wNative: Asset, who: Account, token: Token, net: int, lets: bool, pool: Option<Account>, fee: int,
    letsPool: bool): Money
  {
    var paid := PaidOrCredited(m, wNative, who, token, net, lets);
    if fee != 0 && pool.Some? then PaidOrCredited(paid, wNative, pool.value, token, fee, letsPool) else paid
  }

  function PaidNet(s: State, o: Order, token: Token, forfeit: bool, x: Answers): Money {
    PaidBoth(s.money, s.wNative, o.orderRecipient, token, Net(o, forfeit), x.pays, s.wiring.fees.pool, ProtocolFee(o),
             x.paysPool)
  }

  // ---- doors ----

  function WithAd(b: Book, id: AdId, ad: Ad): Book {
    b.(ads := b.ads[id := ad])
  }

  /** A lock taken: the ad's amount reserved, the order opened, the signer counted in, the leaf appended. */
  function Locked(b: Book, o: Order, r: OrderRecord): Book
    requires o.adId in b.ads
  {
    var ad := b.ads[o.adId];
    b.(ads := b.ads[o.adId := ad.(locked := ad.locked + Amount(o))],
       orders := b.orders[o := r],
       inFlight := Put(b.inFlight, o.adSettlementSigner, Get(b.inFlight, o.adSettlementSigner) + 1),
       log := b.log + [Leaf(o, OrderLeaf)])
  }

  /** An order's row rewritten while its lock stays held. */
  function Rewritten(b: Book, o: Order, r: OrderRecord): Book {
    b.(orders := b.orders[o := r])
  }

  /** A lock released: the reservation gone, `paidOut` out of the ad's balance, the order ended, the
      window closed, the signer counted out. */
  function Ended(b: Book, o: Order, status: Status, paidOut: int): Book
    requires o.adId in b.ads
  {
    var ad := b.ads[o.adId];
    b.(ads := b.ads[o.adId := ad.(locked := ad.locked - Amount(o), balance := ad.balance - paidOut)],
       orders := b.orders[o := RecordOf(b, o).(status := status)],
       claims := b.claims - {o},
       inFlight := Put(b.inFlight, o.adSettlementSigner, Get(b.inFlight, o.adSettlementSigner) - 1))
  }

  function Appended(b: Book, o: Order, d: Domain): Book {
    b.(log := b.log + [Leaf(o, d)])
  }

  /** Checked subtraction traps: what a release takes must be there. Never false in a reachable state. */
  predicate ReleaseFits(b: Book, o: Order, paidOut: int) {
    o.adId in b.ads && Amount(o) <= b.ads[o.adId].locked && paidOut <= b.ads[o.adId].balance
    && 0 < Get(b.inFlight, o.adSettlementSigner)
  }

  // ---- calls ----

  datatype Setting =
    | Pause(paused: bool)
    | FeePool(pool: Account)
    | FeeBps(lpBps: u32, protocolBps: u32)
    | Chain(chain: ChainId, portal: Id)
    | RemoveChain(chain: ChainId)
    | TokenRoute(adToken: Token, orderToken: Token, chain: ChainId)
    | RemoveTokenRoute(adToken: Token, chain: ChainId)
    | RootVerifier(chain: ChainId, verifier: Address)
    | UnsetRootVerifier(chain: ChainId)
    | KeyRegistryAt(registry: Address)
    | RouteTiming(chain: ChainId, timing: Timing)
    | DisputeModule(manager: Address)
    | RootAnchor(anchor: Address)

  datatype Action =
    | Admin(setting: Setting)
    | CreateAd(creator: Address, id: AdId, token: Token, amount: u128, chain: ChainId, recipient: Account, signer: Account)
    | FundAd(id: AdId, amount: u128)
    | WithdrawFromAd(id: AdId, amount: u128, to: Address)
    | CloseAd(id: AdId, to: Address)
    | SetSettlementSigner(id: AdId, signer: Account)
    | HaltSettlement(maker: Address)
    | ResumeSettlement(maker: Address)
    | LockForOrder(order: Order, slot: u32)
    | Unlock(order: Order, nullifier: Id)
    | ClaimCancel(order: Order)
    | FinalizeCancel(order: Order)
    | Dispute(order: Order, filer: Address)
    | FinalizeDispute(order: Order)
    | CancelNeverLocked(order: Order)
    | RepinOrder(order: Order)
    | PresentSettled(order: Order)
    | RecordSettled(order: Order)
    | Claim(recipient: Account, token: Token)
    /** Anyone may send the escrow tokens it never asked for. */
    | Donate(asset: Asset, gift: nat)

  /** `require_registered`. */
  predicate Registered(w: Wiring, signer: Account, maker: Address, x: Answers) {
    w.registry.Some? && signer != 0 && x.signerUsable && (signer == maker.id || x.makerApproved)
  }

  /** A pull of exactly `amount`, or nothing: a non-native token's delivery is checked. */
  predicate PullOk(s: State, token: Token, amount: nat, x: Answers) {
    && x.pulled.Some? && (token == NATIVE || x.pulled.value == amount)
    && Get(s.money.holdings, AssetOf(token, s.wNative)) + amount <= I128_MAX
  }

  predicate SettingOk(w: Wiring, g: Setting) {
    match g
    case FeePool(p) => p != 0
    case FeeBps(lp, protocol) => FeesValid(lp, protocol, w.fees.pool.Some?)
    case Chain(_, portal) => portal != 0
    case TokenRoute(a, t, c) => a != 0 && t != 0 && c in w.chains
    case RouteTiming(_, t) => TimingOk(t)
    case KeyRegistryAt(_) => w.epoch < U32_MAX
    case _ => true
  }

  function VersionOf(w: Wiring, chain: ChainId): nat {
    if chain in w.timingVersion then w.timingVersion[chain] else 0
  }

  function Set(w: Wiring, g: Setting, now: u64): Wiring {
    match g
    case Pause(p) => w.(paused := p)
    case FeePool(p) => w.(fees := w.fees.(pool := Some(p)))
    case FeeBps(lp, protocol) => w.(fees := w.fees.(lpBps := lp, protocolBps := protocol))
    case Chain(c, portal) => w.(chains := w.chains[c := portal])
    case RemoveChain(c) => w.(chains := w.chains - {c})
    case TokenRoute(a, t, c) => w.(routes := w.routes[(a, c) := t])
    case RemoveTokenRoute(a, c) => w.(routes := w.routes - {(a, c)})
    case RootVerifier(c, v) =>
      w.(verifiers := w.verifiers[c := v], verifierChangedAt := w.verifierChangedAt[c := now])
    case UnsetRootVerifier(c) =>
      w.(verifiers := w.verifiers - {c}, verifierChangedAt := w.verifierChangedAt[c := now])
    case KeyRegistryAt(r) =>
      w.(registry := Some(r), epoch := w.epoch + 1, registryAt := w.registryAt[w.epoch + 1 := r])
    case RouteTiming(c, t) =>
      var v := VersionOf(w, c) + 1;
      w.(timings := w.timings[(c, v) := t], timingVersion := w.timingVersion[c := v])
    case DisputeModule(a) => w.(disputeManager := Some(a))
    case RootAnchor(a) => w.(anchor := Some(a))
  }

  /** `validate_order`: what every order carries from its lock. */
  predicate ValidOrder(w: Wiring, ad: Ad, o: Order) {
    && ad.open && o.amount != 0 && o.orderDecimals <= MAX_DECIMALS && o.adDecimals <= MAX_DECIMALS
    && o.bridger != 0 && o.orderRecipient != 0
    && o.orderRecipient != o.adCreator && o.orderRecipient != o.adSettlementSigner
    && o.orderChainId in w.chains && w.chains[o.orderChainId] == o.srcOrderPortal
    && o.orderChainId == ad.orderChainId && o.orderChainToken == ad.orderChainToken
    && (o.adChainToken, o.orderChainId) in w.routes
    && w.routes[(o.adChainToken, o.orderChainId)] == o.orderChainToken
    && o.adChainToken == ad.token && o.adRecipient == ad.adRecipient
    && o.adCreator == ad.maker.id && o.adSettlementSigner == ad.settlementSigner
  }

  /** `require_min_window`, against the current version. */
  predicate WindowOk(w: Wiring, chain: ChainId, deadline: u64, now: u64) {
    && (chain, VersionOf(w, chain)) in w.timings && VersionOf(w, chain) <= U32_MAX
    && now + w.timings[(chain, VersionOf(w, chain))].minWindow <= deadline
    && deadline <= now + MAX_ORDER_WINDOW <= U64_MAX
  }

  predicate CanLock(s: State, o: Order, x: Answers, now: u64) {
    && !s.wiring.paused && o.adId in s.book.ads
    && var ad := s.book.ads[o.adId];
    && ValidOrder(s.wiring, ad, o)
    && o.lpFeeBps == s.wiring.fees.lpBps && o.protocolFeeBps == s.wiring.fees.protocolBps
    && Registered(s.wiring, ad.settlementSigner, ad.maker, x) && x.slotUsable
    && x.decimals == o.adDecimals && WindowOk(s.wiring, o.orderChainId, o.deadline, now)
    && !RegistrySplit(s.wiring, o.orderChainId, s.wiring.registry, x)
    && AdAmount(o).Ok? && ad.locked <= ad.balance && Amount(o) <= ad.balance - ad.locked
    && StatusOf(s.book, o).Absent? && AnchorDelayNow(s.wiring, x).Some?
    && Get(s.book.inFlight, o.adSettlementSigner) < U64_MAX && s.wiring.epoch <= U32_MAX && x.appended
  }

  /** What the lock stamps. */
  function LockRecord(s: State, o: Order, slot: u32, x: Answers, now: u64): OrderRecord
    requires CanLock(s, o, x, now)
  {
    OrderRecord(Open, now, s.wiring.epoch, VersionOf(s.wiring, o.orderChainId),
                Min(AnchorDelayNow(s.wiring, x).value, U32_MAX), slot, false)
  }

  /** Evidence closes the dispute the order was filed with, if any. */
  predicate DisputeCloses(s: State, o: Order, x: Answers) {
    o in s.modules ==> x.moduleOk
  }

  /** What leaves the ad's balance when a lock pays its order. */
  function PaidOut(o: Order, forfeit: bool): int {
    Amount(o) - LpFee(o, forfeit)
  }

  /** A payment that cannot be sent must fit the ledger it is credited in. */
  predicate CreditFits(m: Money, wNative: Asset, who: Account, token: Token, amount: int, lets: bool) {
    (who != 0 && CanSend(m, AssetOf(token, wNative), amount, lets))
    || Get(m.credits, (who, token)) + amount <= U128_MAX
  }

  predicate NetFits(
    m: Money, wNative: Asset, who: Account, token: Token, net: int, lets: bool, pool: Option<Account>, fee: int,
    letsPool: bool)
  {
    && CreditFits(m, wNative, who, token, net, lets)
    && (fee != 0 && pool.Some? ==>
          CreditFits(PaidOrCredited(m, wNative, who, token, net, lets), wNative, pool.value, token, fee, letsPool))
  }

  /** The amounts a payout computes are in range. Never false of a live order in a reachable state. */
  predicate PayoutFits(s: State, o: Order, forfeit: bool, x: Answers) {
    && AdAmount(o).Ok? && ReleaseFits(s.book, o, PaidOut(o, forfeit))
    && LpFee(o, forfeit) + ProtocolFee(o) <= Amount(o)
    && NetFits(s.money, s.wNative, o.orderRecipient, if forfeit then o.adChainToken else s.book.ads[o.adId].token,
               Net(o, forfeit), x.pays, s.wiring.fees.pool, ProtocolFee(o), x.paysPool)
  }

  predicate CanUnlock(s: State, o: Order, nullifier: Id, x: Answers, now: u64) {
    && Live(StatusOf(s.book, o)) && nullifier !in s.book.nullifiers
    && OrderTiming(s.wiring, s.book, o).Some?
    && now < Cutoff(s.book, o, OrderTiming(s.wiring, s.book, o).value)
    && o.adId in s.book.ads && !IsHalted(s, s.book.ads[o.adId].maker)
    && o.orderChainId in s.wiring.verifiers && x.rootValid && x.proofOk
    && DisputeCloses(s, o, x) && PayoutFits(s, o, false, x)
  }

  predicate CanPresent(s: State, o: Order, x: Answers) {
    && Live(StatusOf(s.book, o)) && s.wiring.anchor.Some? && x.anchored && x.proofOk
    && DisputeCloses(s, o, x) && PayoutFits(s, o, false, x)
  }

  predicate CanFinalizeCancel(s: State, o: Order, x: Answers, now: u64) {
    && OrderTiming(s.wiring, s.book, o).Some?
    && var t := OrderTiming(s.wiring, s.book, o).value;
    && StatusOf(s.book, o).Claimed? && WindowEnd(s.book, o, 0, t.buffer) <= now
    && AdAmount(o).Ok? && ReleaseFits(s.book, o, 0)
    && var end := CancelEnd(s, s.book.ads[o.adId].maker, o, t, x);
    && end.Some? && end.value <= now && x.appended
  }

  predicate CanFinalizeDispute(s: State, o: Order, x: Answers, now: u64) {
    && StatusOf(s.book, o).Disputed? && o in s.modules && x.moduleOk && x.windowOver
    && AdAmount(o).Ok? && o.adId in s.book.ads
    && var outcome := SettledOutcome(x.ruling);
    && var end := DisputeEnd(s, s.book.ads[o.adId].maker, o, outcome, x);
    && end.Some? && end.value <= now && x.appended
    && (if outcome.MakerForfeit? then PayoutFits(s, o, true, x) else ReleaseFits(s.book, o, 0))
  }

  predicate IsParty(ad: Ad, o: Order, who: Address) {
    who == ad.maker || (o.orderRecipient != 0 && who == AccountAddress(o.orderRecipient))
  }

  predicate CanDispute(s: State, o: Order, filer: Address, x: Answers, now: u64) {
    && o.adId in s.book.ads && IsParty(s.book.ads[o.adId], o, filer) && AdAmount(o).Ok?
    && (StatusOf(s.book, o).Open? || StatusOf(s.book, o).Claimed?)
    && OrderTiming(s.wiring, s.book, o).Some?
    && now < WindowEnd(s.book, o, o.deadline, OrderTiming(s.wiring, s.book, o).value.buffer)
    && s.wiring.disputeManager.Some? && x.moduleOk
  }

  predicate CanRepin(s: State, o: Order, x: Answers, now: u64) {
    && StatusOf(s.book, o).Open? && OrderTiming(s.wiring, s.book, o).Some?
    && now <= SatSub(o.deadline, OrderTiming(s.wiring, s.book, o).value.claimStagger)
    && RecordOf(s.book, o).registryEpoch as nat in s.wiring.registryAt
    && x.repin.2 != 0 && x.repin.0 == RecordOf(s.book, o).pinnedSlot && x.slotUsable
  }

  predicate CanCancelNeverLocked(s: State, o: Order, x: Answers, now: u64) {
    && StatusOf(s.book, o).Absent? && o.deadline <= now && o.orderChainId in s.wiring.chains
    && (o.orderChainId, VersionOf(s.wiring, o.orderChainId)) in s.wiring.timings
    && s.wiring.anchor.Some? && x.anchored && x.proofOk && x.appended
  }

  predicate CanWithdraw(s: State, id: AdId, amount: u128, x: Answers) {
    && id in s.book.ads && amount != 0
    && var ad := s.book.ads[id];
    && ad.locked <= ad.balance && amount <= ad.balance - ad.locked
    && CanSend(s.money, AssetOf(ad.token, s.wNative), amount, x.pays)
  }

  predicate CanClose(s: State, id: AdId, x: Answers) {
    && id in s.book.ads && s.book.ads[id].locked == 0
    && (s.book.ads[id].balance > 0 ==>
          CanSend(s.money, AssetOf(s.book.ads[id].token, s.wNative), s.book.ads[id].balance, x.pays))
  }

  predicate CanCreate(s: State, act: Action, x: Answers)
    requires act.CreateAd?
  {
    && !s.wiring.paused && act.token != 0 && act.recipient != 0 && act.amount != 0
    && (act.token, act.chain) in s.wiring.routes && act.id !in s.book.ads
    // the escrow never authorizes a call as its own maker
    && act.creator != s.self
    && Registered(s.wiring, act.signer, act.creator, x) && PullOk(s, act.token, act.amount, x)
  }

  predicate CanFund(s: State, id: AdId, amount: u128, x: Answers) {
    && !s.wiring.paused && id in s.book.ads && s.book.ads[id].open && amount != 0
    && PullOk(s, s.book.ads[id].token, amount, x) && s.book.ads[id].balance + amount <= U128_MAX
  }

  predicate CanClaim(s: State, who: Account, token: Token, x: Answers) {
    && 0 < Get(s.money.credits, (who, token)) && who != 0
    && CanSend(s.money, AssetOf(token, s.wNative), Get(s.money.credits, (who, token)), x.pays)
  }

  predicate Accepted(s: State, act: Action, x: Answers, now: u64) {
    match act
    case Admin(g) => SettingOk(s.wiring, g)
    case CreateAd(_, _, _, _, _, _, _) => CanCreate(s, act, x)
    case FundAd(id, amount) => CanFund(s, id, amount, x)
    case WithdrawFromAd(id, amount, _) => CanWithdraw(s, id, amount, x)
    case CloseAd(id, _) => CanClose(s, id, x)
    case SetSettlementSigner(id, signer) => id in s.book.ads && Registered(s.wiring, signer, s.book.ads[id].maker, x)
    case HaltSettlement(_) => true
    case ResumeSettlement(m) => IsHalted(s, m)
    case LockForOrder(o, _) => CanLock(s, o, x, now)
    case Unlock(o, n) => CanUnlock(s, o, n, x, now)
    case ClaimCancel(o) =>
      StatusOf(s.book, o).Open? && o.deadline <= now && OrderTiming(s.wiring, s.book, o).Some?
    case FinalizeCancel(o) => CanFinalizeCancel(s, o, x, now)
    case Dispute(o, filer) => CanDispute(s, o, filer, x, now)
    case FinalizeDispute(o) => CanFinalizeDispute(s, o, x, now)
    case CancelNeverLocked(o) => CanCancelNeverLocked(s, o, x, now)
    case RepinOrder(o) => CanRepin(s, o, x, now)
    case PresentSettled(o) => CanPresent(s, o, x)
    case RecordSettled(o) => StatusOf(s.book, o).Filled? && o !in s.book.settled && x.appended
    case Claim(who, token) => CanClaim(s, who, token, x)
    case Donate(asset, gift) => Get(s.money.holdings, asset) + gift <= I128_MAX
  }

  /** The book after an accepted call. */
  function BookAfter(s: State, act: Action, x: Answers, now: u64): Book
    requires Accepted(s, act, x, now)
  {
    var b := s.book;
    match act
    case CreateAd(m, id, token, amount, chain, recipient, signer) =>
      WithAd(b, id, Ad(chain, recipient, m, token, amount, 0, true, s.wiring.routes[(token, chain)], signer))
    case FundAd(id, amount) => WithAd(b, id, b.ads[id].(balance := b.ads[id].balance + amount))
    case WithdrawFromAd(id, amount, _) => WithAd(b, id, b.ads[id].(balance := b.ads[id].balance - amount))
    case CloseAd(id, _) => WithAd(b, id, b.ads[id].(balance := 0, open := false))
    case SetSettlementSigner(id, signer) => WithAd(b, id, b.ads[id].(settlementSigner := signer))
    case LockForOrder(o, slot) => Locked(b, o, LockRecord(s, o, slot, x, now))
    case Unlock(o, n) => Ended(b, o, Filled, PaidOut(o, false)).(nullifiers := b.nullifiers + {n})
    case PresentSettled(o) => Ended(b, o, Filled, PaidOut(o, false))
    case ClaimCancel(o) =>
      var t := OrderTiming(s.wiring, b, o).value;
      Rewritten(b, o, RecordOf(b, o).(status := Status.Claimed))
        .(claims := b.claims[o := ClaimRecord(now, WindowEnd(b, o, o.deadline, t.buffer))])
    case FinalizeCancel(o) => Appended(Ended(b, o, Cancelled, 0), o, CancelLeaf)
    case Dispute(o, _) =>
      Rewritten(b, o, RecordOf(b, o).(status := Disputed)).(claims := b.claims - {o})
    case FinalizeDispute(o) =>
      var outcome := SettledOutcome(x.ruling);
      // filing already removed the claim
      Appended(Ended(b, o, Resolved, if outcome.MakerForfeit? then PaidOut(o, true) else 0).(claims := b.claims),
               o, if outcome.BridgerForfeit? then ForfeitLeaf else CancelLeaf)
    case CancelNeverLocked(o) => Appended(Rewritten(b, o, RecordOf(b, o).(status := Cancelled)), o, CancelLeaf)
    case RepinOrder(o) => Rewritten(b, o, RecordOf(b, o).(pinnedSlot := x.repin.1, repinned := true))
    case RecordSettled(o) => Appended(b, o, SettledLeaf).(settled := b.settled + {o})
    case _ => b
  }

  /** The money after an accepted call. */
  function MoneyAfter(s: State, act: Action, x: Answers, now: u64): Money
    requires Accepted(s, act, x, now)
  {
    var m := s.money;
    match act
    case CreateAd(_, _, token, amount, _, _, _) => Received(m, AssetOf(token, s.wNative), amount)
    case FundAd(id, amount) => Received(m, AssetOf(s.book.ads[id].token, s.wNative), amount)
    case WithdrawFromAd(id, amount, to) => Sent(m, to == s.self, AssetOf(s.book.ads[id].token, s.wNative), amount)
    case CloseAd(id, to) =>
      if s.book.ads[id].balance > 0
      then Sent(m, to == s.self, AssetOf(s.book.ads[id].token, s.wNative), s.book.ads[id].balance) else m
    case Unlock(o, _) => PaidNet(s, o, s.book.ads[o.adId].token, false, x)
    case PresentSettled(o) => PaidNet(s, o, s.book.ads[o.adId].token, false, x)
    case FinalizeDispute(o) =>
      if SettledOutcome(x.ruling).MakerForfeit? then PaidNet(s, o, o.adChainToken, true, x) else m
    case Claim(who, token) =>
      var amount := Get(m.credits, (who, token));
      Received(m.(credits := Put(m.credits, (who, token), 0)), AssetOf(token, s.wNative), -amount)
    case Donate(asset, gift) => Received(m, asset, gift).(surplus := m.surplus[asset := Get(m.surplus, asset) + gift])
    case _ => m
  }

  function HaltsAfter(s: State, act: Action, now: u64): map<Address, Halt> {
    match act
    case HaltSettlement(m) =>
      s.halts[m := Halt(true, if m in s.halts then s.halts[m].lastResumedAt else 0)]
    case ResumeSettlement(m) => s.halts[m := Halt(false, now)]
    case _ => s.halts
  }

  function ModulesAfter(s: State, act: Action): map<Order, Address> {
    if act.Dispute? && s.wiring.disputeManager.Some? then s.modules[act.order := s.wiring.disputeManager.value]
    else s.modules
  }

  /** One call at ledger time `now`; a refused one changes nothing. */
  function Step(s: State, act: Action, x: Answers, now: u64): State {
    if !Accepted(s, act, x, now) then s
    else
      State(s.self, s.wNative,
            if act.Admin? then Set(s.wiring, act.setting, now) else s.wiring,
            HaltsAfter(s, act, now), ModulesAfter(s, act), BookAfter(s, act, x, now), MoneyAfter(s, act, x, now))
  }

  // ---- single calls, unfolded ----

  lemma UnlockStep(s: State, o: Order, nullifier: Id, x: Answers, now: u64)
    ensures Accepted(s, Unlock(o, nullifier), x, now) <==> CanUnlock(s, o, nullifier, x, now)
    ensures Step(s, Unlock(o, nullifier), x, now)
         == if CanUnlock(s, o, nullifier, x, now)
            then s.(book := Ended(s.book, o, Filled, PaidOut(o, false)).(nullifiers := s.book.nullifiers + {nullifier}),
                    money := PaidNet(s, o, s.book.ads[o.adId].token, false, x))
            else s
  {
  }

  lemma PresentStep(s: State, o: Order, x: Answers, now: u64)
    ensures Accepted(s, PresentSettled(o), x, now) <==> CanPresent(s, o, x)
    ensures Step(s, PresentSettled(o), x, now)
         == if CanPresent(s, o, x)
            then s.(book := Ended(s.book, o, Filled, PaidOut(o, false)),
                    money := PaidNet(s, o, s.book.ads[o.adId].token, false, x))
            else s
  {
  }

  lemma DisputeStep(s: State, o: Order, filer: Address, x: Answers, now: u64)
    ensures Accepted(s, Dispute(o, filer), x, now) <==> CanDispute(s, o, filer, x, now)
    ensures Step(s, Dispute(o, filer), x, now)
         == if CanDispute(s, o, filer, x, now)
            then s.(modules := s.modules[o := s.wiring.disputeManager.value],
                    book := Rewritten(s.book, o, RecordOf(s.book, o).(status := Disputed)).(claims := s.book.claims - {o}))
            else s
  {
  }

  lemma FinalizeCancelStep(s: State, o: Order, x: Answers, now: u64)
    ensures Accepted(s, FinalizeCancel(o), x, now) <==> CanFinalizeCancel(s, o, x, now)
    ensures Step(s, FinalizeCancel(o), x, now)
         == if CanFinalizeCancel(s, o, x, now)
            then s.(book := Appended(Ended(s.book, o, Cancelled, 0), o, CancelLeaf)) else s
  {
  }

  lemma FinalizeDisputeStep(s: State, o: Order, x: Answers, now: u64)
    ensures Accepted(s, FinalizeDispute(o), x, now) <==> CanFinalizeDispute(s, o, x, now)
    ensures var outcome := SettledOutcome(x.ruling);
            Step(s, FinalizeDispute(o), x, now)
            == if CanFinalizeDispute(s, o, x, now)
               then s.(book := Appended(Ended(s.book, o, Resolved, if outcome.MakerForfeit? then PaidOut(o, true) else 0)
                                          .(claims := s.book.claims),
                                        o, if outcome.BridgerForfeit? then ForfeitLeaf else CancelLeaf),
                       money := if outcome.MakerForfeit? then PaidNet(s, o, o.adChainToken, true, x) else s.money)
               else s
  {
  }
}
