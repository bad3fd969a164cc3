/** The dispute module as a state machine (`dispute-manager`): bonds in several tokens, two credit
    ledgers, one stored deadline per dispute that a ruling moves.

    The parties' authorizations, the arbiter's included, and what a token does with a transfer are
    inputs. A token either refuses a transfer or moves exactly its amount out of the sender. */
module Disputes {
  import opened Numbers
  import opened Wrappers
  import opened Fees
  import opened Orders
  import opened Sums

  const MIN_CHALLENGE_PERIOD: nat := 60 * 60
  const MAX_CHALLENGE_PERIOD: nat := 7 * 24 * 60 * 60
  const MAX_BOND_BPS: nat := 500

  type Evidence = nat
  const NO_EVIDENCE: Evidence := 0

  datatype Params = Params(challengePeriod: u64, bondFloor: u128)

  datatype BondConfig = BondConfig(minBond: u128, bondBps: u32)

  datatype Dispute = Dispute(
    initiator: Address,
    bond: nat,
    challengeDeadline: u64,
    initiatorEvidence: Evidence,
    responderEvidence: Evidence,
    ruling: Outcome,
    escrow: Address,
    orderDeadline: u64,
    buffer: u64,
    bondToken: Asset)

  /** What the module holds in each token's own ledger and whom it owes. `surplus` is history: what
      it holds that it owes nobody. */
  datatype Money = Money(
    wNative: Option<Asset>,
    claims: map<Address, int>,
    tokenClaims: map<(Address, Asset), int>,
    holdings: map<Asset, int>,
    surplus: map<Asset, int>)

  datatype Settings = Settings(
    escrows: set<Address>,
    arbiter: Option<Address>,
    feePool: Option<Address>,
    params: map<ChainId, Params>,
    bondConfigs: map<(Asset, ChainId), BondConfig>)

  /** The module's rows. `ruledAt` is history: when each open dispute was last ruled. */
  datatype State = State(
    self: Address,
    settings: Settings,
    disputes: map<Order, Dispute>,
    ruledAt: map<Order, u64>,
    money: Money)

  function New(self: Address): State {
    State(self, Settings({}, None, None, map[], map[]), map[], map[], Money(None, map[], map[], map[], map[]))
  }

  /** A missing row reads as zero. */
  function Get<K(==)>(m: map<K, int>, k: K): int {
    if k in m then m[k] else 0
  }

  // ---- the bond ----

  predicate ParamsOk(p: Params) {
    MIN_CHALLENGE_PERIOD <= p.challengePeriod <= MAX_CHALLENGE_PERIOD && 0 < p.bondFloor <= I128_MAX
  }

  predicate BondOk(c: BondConfig) {
    if c.minBond == 0 then c.bondBps == 0 else c.bondBps <= MAX_BOND_BPS && c.minBond <= I128_MAX
  }

  function RouteBond(c: BondConfig, amount: u128): nat {
    Max(BpsOf(amount, c.bondBps), c.minBond)
  }

  /** The route's bond in the order's token when configured, else the flat floor in wrapped native. */
  function BondOf(s: State, p: Params, token: Asset, chain: ChainId, amount: u128): Option<(Asset, nat)> {
    if (token, chain) in s.settings.bondConfigs then Some((token, RouteBond(s.settings.bondConfigs[(token, chain)], amount)))
    else if s.money.wNative.Some? then Some((s.money.wNative.value, p.bondFloor))
    else None
  }

  /** Whether the filer's position was vindicated, which is what routes the bond. */
  predicate BondReturns(outcome: Outcome, filerIsBridger: bool, returnToFiler: bool) {
    returnToFiler || outcome.MutualRefund? || (outcome.MakerForfeit? && filerIsBridger)
    || (outcome.BridgerForfeit? && !filerIsBridger)
  }

  // ---- money ----

  /** A transfer to another address takes the amount out; one to itself moves nothing, and what was
      owed becomes surplus. */
  function Sent(m: Money, toSelf: bool, token: Asset, amount: int): Money {
    if toSelf then m.(surplus := m.surplus[token := Get(m.surplus, token) + amount])
    else m.(holdings := m.holdings[token := Get(m.holdings, token) - amount])
  }

  /** The credit ledger a token's credits live in: wrapped native has its own. */
  function WithCredit(m: Money, who: Address, token: Asset, amount: int): Money {
    if Some(token) == m.wNative then m.(claims := m.claims[who := amount])
    else m.(tokenClaims := m.tokenClaims[(who, token) := amount])
  }

  function Owed(m: Money, who: Address, token: Asset): int {
    if Some(token) == m.wNative then Get(m.claims, who) else Get(m.tokenClaims, (who, token))
  }

  /** Best effort, then credit. The token refuses what the module does not hold. */
  function PaidOrCredited(m: Money, self: Address, to: Address, token: Asset, amount: int, pays: bool): Money {
    if pays && amount <= Get(m.holdings, token) then Sent(m, to == self, token, amount)
    else WithCredit(m, to, token, Owed(m, to, token) + amount)
  }

  /** A claim empties the credit it pays, and no other. */
  function Claimed(m: Money, self: Address, who: Address, token: Asset): Money {
    Sent(WithCredit(m, who, token, 0), who == self, token, Owed(m, who, token))
  }

  // ---- calls ----

  datatype Action =
    | Initialize(wNative: Asset)
    | SetEscrow(who: Address, allowed: bool)
    | SetParams(chain: ChainId, params: Params)
    | SetArbiter(who: Address)
    | SetFeePool(who: Address)
    | SetBondConfig(asset: Asset, chain: ChainId, config: BondConfig)
    /** `arrives`: what the filer's transfer delivers to another account, if the token lets it through. */
    | Open(escrow: Address, order: Order, chain: ChainId, filer: Address, evidence: Evidence,
           deadline: u64, buffer: u64, token: Asset, amount: u128, arrives: Option<nat>)
    | Settle(escrow: Address, order: Order, outcome: Outcome, filerIsBridger: bool, returnToFiler: bool, pays: bool)
    | Respond(escrow: Address, order: Order, responder: Address, evidence: Evidence)
    | Resolve(order: Order, outcome: Outcome)
    | Claim(recipient: Address, pays: bool)
    | ClaimToken(recipient: Address, asset: Asset, pays: bool)
    /** Anyone may send the module tokens it never asked for. */
    | Donate(asset: Asset, gift: nat)

  /** What the filer's transfer adds to the module's own balance: nothing when it pays itself. */
  function Delivered(s: State, filer: Address, arrives: Option<nat>): Option<nat> {
    if arrives.None? then None else if filer == s.self then Some(0) else arrives
  }

  function OpenBond(s: State, act: Action): Option<(Asset, nat)>
    requires act.Open?
  {
    if act.chain in s.settings.params then BondOf(s, s.settings.params[act.chain], act.token, act.chain, act.amount) else None
  }

  predicate CanOpen(s: State, act: Action, now: u64)
    requires act.Open?
  {
    && act.escrow in s.settings.escrows && act.order !in s.disputes && act.chain in s.settings.params
    && OpenBond(s, act).Some?
    && var (token, bond) := OpenBond(s, act).value;
    && Delivered(s, act.filer, act.arrives) == Some(bond)
    // a token balance is an i128
    && Get(s.money.holdings, token) + bond <= I128_MAX
    && now + s.settings.params[act.chain].challengePeriod <= U64_MAX && act.deadline + act.buffer <= U64_MAX
  }

  predicate CanSettle(s: State, escrow: Address, o: Order, to: Address, pays: bool) {
    && o in s.disputes && s.disputes[o].escrow == escrow
    // a credit the ledger cannot hold traps
    && (pays || s.disputes[o].bond == 0 || (s.money.wNative.Some? && Owed(s.money, to, s.disputes[o].bondToken) + s.disputes[o].bond <= U128_MAX))
  }

  /** Where a settled bond goes: back to a vindicated filer, else to the pool, else to the filer. */
  function BondTo(s: State, o: Order, outcome: Outcome, filerIsBridger: bool, returnToFiler: bool): Address
    requires o in s.disputes
  {
    if BondReturns(outcome, filerIsBridger, returnToFiler) || s.settings.feePool.None? then s.disputes[o].initiator
    else s.settings.feePool.value
  }

  predicate CanRespond(s: State, act: Action, now: u64)
    requires act.Respond?
  {
    && act.order in s.disputes && s.disputes[act.order].escrow == act.escrow
    && s.disputes[act.order].initiator != act.responder && act.evidence != NO_EVIDENCE
    && s.disputes[act.order].responderEvidence == NO_EVIDENCE && s.disputes[act.order].ruling == NoRuling
    && now < s.disputes[act.order].challengeDeadline
  }

  /** A ruling opens a window, it does not pay: room to present from the later of now and the deadline. */
  function RulingDeadline(d: Dispute, now: u64): nat {
    Max(now, d.orderDeadline) + d.buffer
  }

  predicate CanResolve(s: State, o: Order, outcome: Outcome, now: u64) {
    && s.settings.arbiter.Some? && !outcome.TradeProceeds? && !outcome.NoRuling?
    && o in s.disputes && now < s.disputes[o].challengeDeadline
    && RulingDeadline(s.disputes[o], now) <= U64_MAX
  }

  predicate CanClaim(s: State, who: Address, token: Asset, pays: bool) {
    0 < Owed(s.money, who, token) <= Get(s.money.holdings, token) && pays
  }

  predicate Accepted(s: State, act: Action, now: u64) {
    match act
    case Initialize(_) => s.money.wNative.None?
    case SetParams(_, p) => s.money.wNative.Some? && ParamsOk(p)
    case SetBondConfig(_, _, c) => s.money.wNative.Some? && BondOk(c)
    case Open(_, _, _, _, _, _, _, _, _, _) => CanOpen(s, act, now)
    case Settle(e, o, out, fb, rf, pays) =>
      o in s.disputes && CanSettle(s, e, o, BondTo(s, o, out, fb, rf), Pays(s, o, pays))
    case Respond(_, _, _, _) => CanRespond(s, act, now)
    case Resolve(o, out) => CanResolve(s, o, out, now)
    case Claim(who, pays) => s.money.wNative.Some? && CanClaim(s, who, s.money.wNative.value, pays)
    case ClaimToken(who, token, pays) => CanClaim(s, who, token, pays)
    case Donate(token, gift) => Get(s.money.holdings, token) + gift <= I128_MAX
    case _ => s.money.wNative.Some?
  }

  /** The token lets a bond through only when the module holds it. */
  predicate Pays(s: State, o: Order, pays: bool)
    requires o in s.disputes
  {
    pays && s.disputes[o].bond <= Get(s.money.holdings, s.disputes[o].bondToken)
  }

  /** The record of a filing: decided no earlier than the challenge period and the order's own window. */
  function Filed(s: State, act: Action, now: u64): Dispute
    requires act.Open? && CanOpen(s, act, now)
  {
    var b := OpenBond(s, act).value;
    Dispute(act.filer, b.1, Max(now + s.settings.params[act.chain].challengePeriod, act.deadline + act.buffer),
            act.evidence, NO_EVIDENCE, NoRuling, act.escrow, act.deadline, act.buffer, b.0)
  }

  function Received(m: Money, token: Asset, amount: int): Money {
    m.(holdings := m.holdings[token := Get(m.holdings, token) + amount])
  }

  function Opened(s: State, act: Action, now: u64): State
    requires act.Open? && CanOpen(s, act, now)
  {
    var d := Filed(s, act, now);
    s.(disputes := s.disputes[act.order := d], money := Received(s.money, d.bondToken, d.bond))
  }

  function Settled(s: State, o: Order, to: Address, pays: bool): State
    requires o in s.disputes
  {
    var d := s.disputes[o];
    var closed := s.(disputes := s.disputes - {o}, ruledAt := s.ruledAt - {o});
    if d.bond == 0 then closed
    else closed.(money := PaidOrCredited(s.money, s.self, to, d.bondToken, d.bond, pays))
  }

  function Ruled(s: State, o: Order, outcome: Outcome, now: u64): State
    requires CanResolve(s, o, outcome, now)
  {
    var d := s.disputes[o];
    s.(disputes := s.disputes[o := d.(ruling := outcome, challengeDeadline := RulingDeadline(d, now))],
       ruledAt := s.ruledAt[o := now])
  }

  /** One call at ledger time `now`; a refused one changes nothing. */
  function Step(s: State, act: Action, now: u64): State {
    if !Accepted(s, act, now) then s
    else
      var g, m := s.settings, s.money;
      match act
      case Initialize(w) => s.(money := m.(wNative := Some(w)))
      case SetEscrow(e, allowed) =>
        s.(settings := g.(escrows := if allowed then g.escrows + {e} else g.escrows - {e}))
      case SetParams(c, p) => s.(settings := g.(params := g.params[c := p]))
      case SetArbiter(a) => s.(settings := g.(arbiter := Some(a)))
      case SetFeePool(a) => s.(settings := g.(feePool := Some(a)))
      case SetBondConfig(t, c, cfg) =>
        s.(settings := g.(bondConfigs :=
             if cfg.minBond == 0 then g.bondConfigs - {(t, c)} else g.bondConfigs[(t, c) := cfg]))
      case Open(_, _, _, _, _, _, _, _, _, _) => Opened(s, act, now)
      case Settle(_, o, out, fb, rf, pays) => Settled(s, o, BondTo(s, o, out, fb, rf), pays)
      case Respond(_, o, _, ev) => s.(disputes := s.disputes[o := s.disputes[o].(responderEvidence := ev)])
      case Resolve(o, out) => Ruled(s, o, out, now)
      case Claim(who, _) => s.(money := Claimed(m, s.self, who, m.wNative.value))
      case ClaimToken(who, token, _) => s.(money := Claimed(m, s.self, who, token))
      case Donate(token, gift) =>
        s.(money := m.(holdings := m.holdings[token := Get(m.holdings, token) + gift],
                       surplus := m.surplus[token := Get(m.surplus, token) + gift]))
  }
}
