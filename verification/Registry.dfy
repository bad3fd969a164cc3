/** The BLS key registry as a state machine over its storage rows (`bls-key-registry`):
    slot lifecycle, shorten-only expiry, pruning, nonces, approvals.

    Every step happens at a ledger time and either takes effect or changes nothing. What the
    contract cannot decide from its own rows (owner signature, proof of possession, leaf proof,
    which position guards report an open order) is an input of the step. */
module Registry {
  import opened Numbers
  import opened Wrappers

  /** Ids are compared and looked up, never computed with. */
  type Account = int
  type Commitment = int
  type Address = int
  type OrderHash = int
  /** A slot's id, counted up from 0 as a u32. */
  type SlotId = int

  const MAX_ACTIVE_SLOTS: nat := 5
  /** Seconds a dead slot outlives its expiry while an order may still ask about it: 30 days. */
  const GRACE_PERIOD: nat := 30 * 24 * 60 * 60
  const MAX_REGISTER_TTL: nat := 7 * 24 * 3600

  /** `validUntil` 0 = no expiry; else usable while the ledger time is below it. */
  datatype KeySlot = KeySlot(commitment: Commitment, validUntil: u64, registeredAt: u64)

  datatype Approval = Approval(approved: bool, nonce: u64, generation: u64)

  datatype RepinConsent = RepinConsent(fromSlot: u32, toSlot: u32, nonce: u64)

  /** All rows of one account: the entry (`nextSlotId`, `live`), its slots and their recorded
      expiries, the used commitments and the slot each was put in, nonces and approvals. */
  datatype Keys = Keys(
    nextSlotId: u32,
    live: seq<SlotId>,
    slots: map<SlotId, KeySlot>,
    expired: map<SlotId, u64>,
    used: set<Commitment>,
    keySlots: map<Commitment, SlotId>,
    nonce: u64,
    approvals: map<Account, Approval>,
    generation: u64,
    repins: map<OrderHash, RepinConsent>)

  const FRESH: Keys := Keys(0, [], map[], map[], {}, map[], 0, map[], 0, map[])

  datatype ProofRegistration = ProofRegistration(sources: seq<Address>, enabled: bool)

  datatype State = State(
    paused: bool,
    guards: seq<Address>,
    proofReg: Option<ProofRegistration>,
    accounts: map<Account, Keys>)

  /** A missing row reads as its default. */
  function KeysOf(s: State, a: Account): Keys {
    if a in s.accounts then s.accounts[a] else FRESH
  }

  function WithKeys(s: State, a: Account, k: Keys): State {
    s.(accounts := s.accounts[a := k])
  }

  function ApprovalOf(k: Keys, maker: Account): Approval {
    if maker in k.approvals then k.approvals[maker] else Approval(false, 0, 0)
  }

  function RepinOf(k: Keys, order: OrderHash): RepinConsent {
    if order in k.repins then k.repins[order] else RepinConsent(0, 0, 0)
  }

  function RecordedExpiry(k: Keys, id: SlotId): u64 {
    if id in k.expired then k.expired[id] else 0
  }

  // ---- views ----

  /** `expired_at`: 0 while unbounded, else when the slot stopped being usable. */
  function ExpiredAt(k: Keys, id: SlotId): u64 {
    if id in k.slots && k.slots[id].validUntil != 0 then
      (if RecordedExpiry(k, id) == 0 then k.slots[id].validUntil else RecordedExpiry(k, id))
    else 0
  }

  /** `commitment_at` answers: the slot exists and is usable now. */
  predicate SlotUsable(k: Keys, id: SlotId, now: u64) {
    id in k.slots && (k.slots[id].validUntil == 0 || now < k.slots[id].validUntil)
  }

  predicate IsApprovedMaker(k: Keys, maker: Account) {
    ApprovalOf(k, maker).approved && ApprovalOf(k, maker).generation == k.generation
  }

  // ---- pruning and adding ----

  /** Some wired guard reports an open position for the account. */
  predicate HasOpen(s: State, open: set<Address>) {
    exists g :: g in s.guards && g in open
  }

  /** Dead slots go at once only with guards wired and none reporting. */
  predicate AtOnce(s: State, open: set<Address>) {
    s.guards != [] && !HasOpen(s, open)
  }

  /** Strictly past the stop, or past it by the grace period that outlives the evidence. */
  predicate Prunable(k: Keys, id: SlotId, now: u64, atOnce: bool) {
    id !in k.slots
    || (ExpiredAt(k, id) != 0
        && (if atOnce then now > ExpiredAt(k, id) else now > SatAdd64(ExpiredAt(k, id), GRACE_PERIOD)))
  }

  function Kept(k: Keys, live: seq<SlotId>, now: u64, atOnce: bool): (kept: seq<SlotId>)
    ensures forall id :: id in kept <==> id in live && !Prunable(k, id, now, atOnce)
  {
    if live == [] then []
    else
      var rest := Kept(k, live[1..], now, atOnce);
      if Prunable(k, live[0], now, atOnce) then rest else [live[0]] + rest
  }

  /** Keep only the rows of the slots in `live`, of those that were live. */
  function WithLive(k: Keys, live: seq<SlotId>): Keys {
    var gone := set id | id in k.live && id !in live;
    k.(live := live, slots := k.slots - gone, expired := k.expired - gone)
  }

  /** `prune`: drops the rows of every prunable live slot of the account. */
  function Pruned(k: Keys, now: u64, atOnce: bool): Keys {
    WithLive(k, Kept(k, k.live, now, atOnce))
  }

  /** The rows a new slot joins: pruned first only when the account is full. */
  function RoomFor(k: Keys, now: u64, atOnce: bool): Keys {
    if |k.live| >= MAX_ACTIVE_SLOTS then Pruned(k, now, atOnce) else k
  }

  predicate CanAdd(k: Keys, c: Commitment, now: u64, atOnce: bool) {
    c !in k.used && |RoomFor(k, now, atOnce).live| < MAX_ACTIVE_SLOTS && k.nextSlotId < U32_MAX
  }

  /** A fresh slot under the next id, which is never used again. */
  function NewSlot(k: Keys, c: Commitment, now: u64): Keys
    requires k.nextSlotId < U32_MAX
  {
    var id := k.nextSlotId;
    k.(nextSlotId := id + 1, live := k.live + [id], slots := k.slots[id := KeySlot(c, 0, now)],
       used := k.used + {c}, keySlots := k.keySlots[c := id])
  }

  function Added(k: Keys, c: Commitment, now: u64, atOnce: bool): Keys
    requires k.nextSlotId < U32_MAX
  {
    NewSlot(RoomFor(k, now, atOnce), c, now)
  }

  // ---- the entry points ----

  predicate DeadlineOk(now: u64, deadline: u64) {
    now <= deadline && deadline - now <= MAX_REGISTER_TTL
  }

  predicate NonceOk(k: Keys, nonce: u64) {
    nonce == k.nonce && nonce < U64_MAX
  }

  /** `checked` is everything the signature and key checks decide: a real key, its proof of
      possession, the owner's authorization. */
  predicate CanRegister(
    s: State, a: Account, c: Commitment, nonce: u64, deadline: u64, checked: bool, now: u64, open: set<Address>)
  {
    !s.paused && DeadlineOk(now, deadline) && NonceOk(KeysOf(s, a), nonce) && checked
    && CanAdd(KeysOf(s, a), c, now, AtOnce(s, open))
  }

  predicate CanRegisterByProof(
    s: State, a: Account, c: Commitment, source: Address, checked: bool, now: u64, open: set<Address>)
  {
    !s.paused && s.proofReg.Some? && s.proofReg.value.enabled && source in s.proofReg.value.sources
    && checked && CanAdd(KeysOf(s, a), c, now, AtOnce(s, open))
  }

  predicate CanSetValidUntil(k: Keys, c: Commitment, validUntil: u64, ownerOk: bool) {
    && c in k.keySlots && k.keySlots[c] in k.slots && validUntil != 0
    && (k.slots[k.keySlots[c]].validUntil == 0 || validUntil < k.slots[k.keySlots[c]].validUntil)
    && ownerOk
  }

  /** The slot stops at the later of the named date and now, and never later than before. */
  function Shortened(k: Keys, id: SlotId, validUntil: u64, now: u64): Keys
    requires id in k.slots
  {
    var eff := Max(validUntil, now);
    var prev := RecordedExpiry(k, id);
    k.(slots := k.slots[id := k.slots[id].(validUntil := validUntil)],
       expired := k.expired[id := if prev == 0 then eff else Min(prev, eff)])
  }

  predicate CanRevoke(s: State, a: Account, nonce: u64, ownerOk: bool, open: set<Address>) {
    && !s.paused && NonceOk(KeysOf(s, a), nonce)
    && (KeysOf(s, a).live == [] || AtOnce(s, open))
    && ownerOk && KeysOf(s, a).generation < U64_MAX
  }

  function Left(k: Keys): Keys
    requires k.nonce < U64_MAX && k.generation < U64_MAX
  {
    WithLive(k, []).(nonce := k.nonce + 1, generation := k.generation + 1)
  }

  predicate CanCancelPending(s: State, a: Account, nonce: u64, ownerOk: bool) {
    !s.paused && NonceOk(KeysOf(s, a), nonce) && ownerOk
  }

  predicate CanApproveMaker(
    s: State, a: Account, maker: Account, approved: bool, nonce: u64, deadline: u64, ownerOk: bool, now: u64)
  {
    && !(approved && s.paused) && DeadlineOk(now, deadline)
    && nonce == ApprovalOf(KeysOf(s, a), maker).nonce && nonce < U64_MAX && ownerOk
  }

  function WithApproval(k: Keys, maker: Account, approved: bool, nonce: u64): Keys
    requires nonce < U64_MAX
  {
    k.(approvals := k.approvals[maker := Approval(approved, nonce + 1, k.generation)])
  }

  predicate CanApproveRepin(s: State, a: Account, order: OrderHash, nonce: u64, ownerOk: bool) {
    nonce == RepinOf(KeysOf(s, a), order).nonce && nonce < U64_MAX && ownerOk
  }

  // ---- steps ----

  datatype Action =
    | Register(account: Account, commitment: Commitment, nonce: u64, deadline: u64, checked: bool)
    | RegisterByProof(account: Account, commitment: Commitment, source: Address, checked: bool)
    | SetValidUntil(account: Account, commitment: Commitment, validUntil: u64, ownerOk: bool)
    | Revoke(account: Account, nonce: u64, ownerOk: bool)
    | CancelPending(account: Account, nonce: u64, ownerOk: bool)
    | ApproveMaker(account: Account, maker: Account, approved: bool, nonce: u64, deadline: u64, ownerOk: bool)
    | ApproveRepin(account: Account, order: OrderHash, fromSlot: u32, toSlot: u32, nonce: u64, ownerOk: bool)
    | SetGuards(guards: seq<Address>)
    | SetPaused(paused: bool)
    | SetProofRegistration(cfg: ProofRegistration)

  /** The actions that write the rows of one account; the rest are the admin's. */
  predicate OnAccount(act: Action) {
    !act.SetGuards? && !act.SetPaused? && !act.SetProofRegistration?
  }

  predicate Accepted(s: State, act: Action, now: u64, open: set<Address>) {
    match act
    case Register(a, c, n, d, ok) => CanRegister(s, a, c, n, d, ok, now, open)
    case RegisterByProof(a, c, src, ok) => CanRegisterByProof(s, a, c, src, ok, now, open)
    case SetValidUntil(a, c, vu, ok) => CanSetValidUntil(KeysOf(s, a), c, vu, ok)
    case Revoke(a, n, ok) => CanRevoke(s, a, n, ok, open)
    case CancelPending(a, n, ok) => CanCancelPending(s, a, n, ok)
    case ApproveMaker(a, m, ap, n, d, ok) => CanApproveMaker(s, a, m, ap, n, d, ok, now)
    case ApproveRepin(a, o, _, _, n, ok) => CanApproveRepin(s, a, o, n, ok)
    case _ => true
  }

  /** The rows of the account an accepted action names, after it. */
  function KeysAfter(s: State, act: Action, now: u64, open: set<Address>): Keys
    requires Accepted(s, act, now, open)
    requires OnAccount(act)
  {
    var k := KeysOf(s, act.account);
    match act
    case Register(_, c, n, _, _) => Added(k, c, now, AtOnce(s, open)).(nonce := n + 1)
    case RegisterByProof(_, c, _, _) => Added(k, c, now, AtOnce(s, open))
    case SetValidUntil(_, c, vu, _) => Shortened(k, k.keySlots[c], vu, now)
    case Revoke(_, _, _) => Left(k)
    case CancelPending(_, n, _) => k.(nonce := n + 1)
    case ApproveMaker(_, m, ap, n, _, _) => WithApproval(k, m, ap, n)
    case ApproveRepin(_, o, f, t, n, _) => k.(repins := k.repins[o := RepinConsent(f, t, n + 1)])
  }

  /** One entry point at ledger time `now`; a refused one leaves every row as it was. */
  function Step(s: State, act: Action, now: u64, open: set<Address>): State {
    if !Accepted(s, act, now, open) then s
    else
      match act
      case SetGuards(gs) => s.(guards := gs)
      case SetPaused(p) => s.(paused := p)
      case SetProofRegistration(cfg) => s.(proofReg := Some(cfg))
      case _ => WithKeys(s, act.account, KeysAfter(s, act, now, open))
  }

  const EMPTY: State := State(false, [], None, map[])
}
