/** The dispute module contract: records created, changed and removed, credits raised and zeroed,
    balances moved, each entry point proved to be the step of the state machine. */
module DisputeManager {
  import opened Numbers
  import opened Wrappers
  import opened Fees
  import opened Orders
  import opened Disputes

  datatype Error =
    | AlreadyInitialized | NotInitialized | NotEscrow | DisputeExists | NotDisputed | ArbiterCannotSettle
    | ChallengeClosed | NotResponder | NoDisputeParams | BadParams | BadBondConfig | WrongEscrow
    | NothingToClaim | AlreadyRuled | BondTransferFailed | BondTransferShort | ResponseWindowClosed
    | AlreadyResponded | ZeroResponse | Overflow

  class Contract {
    const self: Address
    var escrows: set<Address>
    var arbiter: Option<Address>
    var feePool: Option<Address>
    var params: map<ChainId, Params>
    var bondConfigs: map<(Asset, ChainId), BondConfig>
    var disputes: map<Order, Dispute>
    var wNative: Option<Asset>
    var claims: map<Address, int>
    var tokenClaims: map<(Address, Asset), int>
    /** This contract's balance in each token's own ledger. */
    var holdings: map<Asset, int>
    /** History: what is held and owed to nobody, and when each dispute was last ruled. */
    ghost var surplus: map<Asset, int>
    ghost var ruledAt: map<Order, u64>

    ghost function MoneyNow(): Money
      reads this
    {
      Money(wNative, claims, tokenClaims, holdings, surplus)
    }

    ghost function Rows(): State
      reads this
    {
      State(self, Settings(escrows, arbiter, feePool, params, bondConfigs), disputes, ruledAt, MoneyNow())
    }

    constructor (self: Address)
      ensures Rows() == New(self)
    {
      this.self := self;
      escrows, arbiter, feePool, params, bondConfigs := {}, None, None, map[], map[];
      disputes, wNative, claims, tokenClaims, holdings := map[], None, map[], map[], map[];
      surplus, ruledAt := map[], map[];
    }

    method Initialize(w: Asset, now: u64) returns (r: Result<(), Error>)
      modifies this
      ensures r.Ok? <==> Accepted(old(Rows()), Action.Initialize(w), now)
      ensures Rows() == Step(old(Rows()), Action.Initialize(w), now)
    {
      if wNative.Some? {
        return Err(AlreadyInitialized);
      }
      wNative := Some(w);
      return Ok(());
    }

    method SetEscrow(who: Address, allowed: bool, now: u64) returns (r: Result<(), Error>)
      modifies this
      ensures r.Ok? <==> Accepted(old(Rows()), Action.SetEscrow(who, allowed), now)
      ensures Rows() == Step(old(Rows()), Action.SetEscrow(who, allowed), now)
    {
      if wNative.None? {
        return Err(NotInitialized);
      }
      escrows := if allowed then escrows + {who} else escrows - {who};
      return Ok(());
    }

    method SetDisputeParams(chain: ChainId, p: Params, now: u64) returns (r: Result<(), Error>)
      modifies this
      ensures r.Ok? <==> Accepted(old(Rows()), SetParams(chain, p), now)
      ensures Rows() == Step(old(Rows()), SetParams(chain, p), now)
    {
      if wNative.None? {
        return Err(NotInitialized);
      }
      if !ParamsOk(p) {
        return Err(BadParams);
      }
      params := params[chain := p];
      return Ok(());
    }

    method SetArbiter(who: Address, now: u64) returns (r: Result<(), Error>)
      modifies this
      ensures r.Ok? <==> Accepted(old(Rows()), Action.SetArbiter(who), now)
      ensures Rows() == Step(old(Rows()), Action.SetArbiter(who), now)
    {
      if wNative.None? {
        return Err(NotInitialized);
      }
      arbiter := Some(who);
      return Ok(());
    }

    method SetProtocolFeePool(who: Address, now: u64) returns (r: Result<(), Error>)
      modifies this
      ensures r.Ok? <==> Accepted(old(Rows()), SetFeePool(who), now)
      ensures Rows() == Step(old(Rows()), SetFeePool(who), now)
    {
      if wNative.None? {
        return Err(NotInitialized);
      }
      feePool := Some(who);
      return Ok(());
    }

    /** A zero floor removes the row: the route is back on the flat bond. */
    method SetBondConfig(token: Asset, chain: ChainId, c: BondConfig, now: u64) returns (r: Result<(), Error>)
      modifies this
      ensures r.Ok? <==> Accepted(old(Rows()), Action.SetBondConfig(token, chain, c), now)
      ensures Rows() == Step(old(Rows()), Action.SetBondConfig(token, chain, c), now)
    {
      if wNative.None? {
        return Err(NotInitialized);
      }
      if !BondOk(c) {
        return Err(BadBondConfig);
      }
      if c.minBond == 0 {
        bondConfigs := bondConfigs - {(token, chain)};
      } else {
        bondConfigs := bondConfigs[(token, chain) := c];
      }
      return Ok(());
    }

    /** The bond is pulled in full or the filing is refused. */
    method OpenDispute(
      escrow: Address, o: Order, chain: ChainId, filer: Address, evidence: Evidence, deadline: u64, buffer: u64,
      token: Asset, amount: u128, arrives: Option<nat>, now: u64)
      returns (r: Result<nat, Error>)
      modifies this
      ensures var act := Open(escrow, o, chain, filer, evidence, deadline, buffer, token, amount, arrives);
              (r.Ok? <==> Accepted(old(Rows()), act, now)) && Rows() == Step(old(Rows()), act, now)
    {
      ghost var act := Open(escrow, o, chain, filer, evidence, deadline, buffer, token, amount, arrives);
      if escrow !in escrows {
        return Err(NotEscrow);
      }
      if o in disputes {
        return Err(DisputeExists);
      }
      if chain !in params {
        return Err(NoDisputeParams);
      }
      var p := params[chain];
      var bondToken, bond;
      if (token, chain) in bondConfigs {
        bondToken, bond := token, RouteBond(bondConfigs[(token, chain)], amount);
      } else if wNative.None? {
        return Err(NotInitialized);
      } else {
        bondToken, bond := wNative.value, p.bondFloor;
      }
      assert OpenBond(Rows(), act) == Some((bondToken, bond));
      if arrives.None? {
        return Err(BondTransferFailed);
      }
      var delivered := if filer == self then 0 else arrives.value;
      if delivered != bond {
        return Err(BondTransferShort);
      }
      if Get(holdings, bondToken) + bond > I128_MAX || now + p.challengePeriod > U64_MAX || deadline + buffer > U64_MAX {
        return Err(Overflow);
      }
      holdings := holdings[bondToken := Get(holdings, bondToken) + bond];
      var challengeDeadline := Max(now + p.challengePeriod, deadline + buffer);
      disputes := disputes[o := Dispute(filer, bond, challengeDeadline, evidence, NO_EVIDENCE, NoRuling, escrow,
                                        deadline, buffer, bondToken)];
      return Ok(bond);
    }

    /** Best effort, then credit, in the bond's own token. */
    method PayOrCredit(to: Address, token: Asset, amount: nat, pays: bool)
      modifies this`holdings, this`claims, this`tokenClaims, this`surplus
      ensures MoneyNow() == PaidOrCredited(old(MoneyNow()), self, to, token, amount, pays)
    {
      if pays && amount <= Get(holdings, token) {
        if to == self {
          surplus := surplus[token := Get(surplus, token) + amount];
        } else {
          holdings := holdings[token := Get(holdings, token) - amount];
        }
      } else if Some(token) == wNative {
        claims := claims[to := Get(claims, to) + amount];
      } else {
        tokenClaims := tokenClaims[(to, token) := Get(tokenClaims, (to, token)) + amount];
      }
    }

    /** Authenticated against the escrow that opened the dispute, not against the allow-list. */
    method CheckSettle(escrow: Address, o: Order, to: Address, pays: bool) returns (r: Result<(), Error>)
      requires o in disputes
      ensures r.Ok? <==> CanSettle(Rows(), escrow, o, to, Pays(Rows(), o, pays))
    {
      var d := disputes[o];
      if d.escrow != escrow {
        return Err(WrongEscrow);
      }
      var owed := if Some(d.bondToken) == wNative then Get(claims, to) else Get(tokenClaims, (to, d.bondToken));
      if d.bond != 0 && !(pays && d.bond <= Get(holdings, d.bondToken))
         && (wNative.None? || owed + d.bond > U128_MAX) {
        return Err(Overflow);
      }
      return Ok(());
    }

    /** The record closed and its bond on its way. */
    method CloseRecord(o: Order, to: Address, pays: bool)
      requires o in disputes
      modifies this
      ensures Rows() == Settled(old(Rows()), o, to, pays)
    {
      var d := disputes[o];
      disputes := disputes - {o};
      ruledAt := ruledAt - {o};
      if d.bond != 0 {
        PayOrCredit(to, d.bondToken, d.bond, pays);
      }
    }

    method SettleBond(
      escrow: Address, o: Order, outcome: Outcome, filerIsBridger: bool, returnToFiler: bool, pays: bool, now: u64)
      returns (r: Result<(), Error>)
      modifies this
      ensures var act := Settle(escrow, o, outcome, filerIsBridger, returnToFiler, pays);
              (r.Ok? <==> Accepted(old(Rows()), act, now)) && Rows() == Step(old(Rows()), act, now)
    {
      if o !in disputes {
        return Err(NotDisputed);
      }
      var toFiler := BondReturns(outcome, filerIsBridger, returnToFiler);
      var to := if toFiler then disputes[o].initiator else if feePool.Some? then feePool.value else disputes[o].initiator;
      assert to == BondTo(Rows(), o, outcome, filerIsBridger, returnToFiler);
      r := CheckSettle(escrow, o, to, pays);
      if r.Ok? {
        CloseRecord(o, to, pays);
      }
    }

    /** One non-zero answer, before the ruling and strictly before the deadline. */
    method RecordResponse(escrow: Address, o: Order, responder: Address, evidence: Evidence, now: u64)
      returns (r: Result<(), Error>)
      modifies this
      ensures r.Ok? <==> Accepted(old(Rows()), Respond(escrow, o, responder, evidence), now)
      ensures Rows() == Step(old(Rows()), Respond(escrow, o, responder, evidence), now)
    {
      if o !in disputes {
        return Err(NotDisputed);
      }
      var d := disputes[o];
      if d.escrow != escrow {
        return Err(WrongEscrow);
      }
      if d.initiator == responder {
        return Err(NotResponder);
      }
      if evidence == NO_EVIDENCE {
        return Err(ZeroResponse);
      }
      if d.responderEvidence != NO_EVIDENCE {
        return Err(AlreadyResponded);
      }
      if d.ruling != NoRuling {
        return Err(AlreadyRuled);
      }
      if now >= d.challengeDeadline {
        return Err(ResponseWindowClosed);
      }
      d := d.(responderEvidence := evidence);
      disputes := disputes[o := d];
      return Ok(());
    }

    method ResolveDispute(o: Order, outcome: Outcome, now: u64) returns (r: Result<(), Error>)
      modifies this
      ensures r.Ok? <==> Accepted(old(Rows()), Resolve(o, outcome), now)
      ensures Rows() == Step(old(Rows()), Resolve(o, outcome), now)
    {
      if arbiter.None? {
        return Err(NotInitialized);
      }
      if outcome == TradeProceeds || outcome == NoRuling {
        return Err(ArbiterCannotSettle);
      }
      if o !in disputes {
        return Err(NotDisputed);
      }
      var d := disputes[o];
      if now >= d.challengeDeadline {
        return Err(ChallengeClosed);
      }
      var finalizeAt := Max(now, d.orderDeadline) + d.buffer;
      if finalizeAt > U64_MAX {
        return Err(Overflow);
      }
      d := d.(ruling := outcome, challengeDeadline := finalizeAt);
      disputes := disputes[o := d];
      ruledAt := ruledAt[o := now];
      return Ok(());
    }

    /** The credit is zeroed, then paid; a refusal restores it. */
    method Claim(recipient: Address, pays: bool, now: u64) returns (r: Result<(), Error>)
      modifies this
      ensures r.Ok? <==> Accepted(old(Rows()), Action.Claim(recipient, pays), now)
      ensures Rows() == Step(old(Rows()), Action.Claim(recipient, pays), now)
    {
      if wNative.None? {
        return Err(NotInitialized);
      }
      var amount := Get(claims, recipient);
      if amount <= 0 {
        return Err(NothingToClaim);
      }
      if !pays || amount > Get(holdings, wNative.value) {
        return Err(BondTransferFailed);
      }
      claims := claims[recipient := 0];
      SendCredit(recipient, wNative.value, amount);
      return Ok(());
    }

    method SendCredit(recipient: Address, token: Asset, amount: int)
      modifies this`holdings, this`surplus
      ensures MoneyNow() == Sent(old(MoneyNow()), recipient == self, token, amount)
    {
      if recipient == self {
        surplus := surplus[token := Get(surplus, token) + amount];
      } else {
        holdings := holdings[token := Get(holdings, token) - amount];
      }
    }

    /** `claim_token`: the wrapped native token's credits keep their own ledger. */
    method ClaimTokenCredit(recipient: Address, token: Asset, pays: bool, now: u64) returns (r: Result<(), Error>)
      modifies this
      ensures r.Ok? <==> Accepted(old(Rows()), ClaimToken(recipient, token, pays), now)
      ensures Rows() == Step(old(Rows()), ClaimToken(recipient, token, pays), now)
    {
      if wNative == Some(token) {
        r := Claim(recipient, pays, now);
        return;
      }
      var amount := Get(tokenClaims, (recipient, token));
      if amount <= 0 {
        return Err(NothingToClaim);
      }
      if !pays || amount > Get(holdings, token) {
        return Err(BondTransferFailed);
      }
      tokenClaims := tokenClaims[(recipient, token) := 0];
      SendCredit(recipient, token, amount);
      return Ok(());
    }
  }
}
