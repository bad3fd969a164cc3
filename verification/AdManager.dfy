/** The ad-side escrow contract: entry points that read rows, update them and write them back, each
    proved to be the step of the state machine. The checks come in the contract's order; the host
    discards every write of a refused call. */
module AdManager {
  import opened Numbers
  import opened Wrappers
  import opened Fees
  import opened Orders
  import opened Escrow

  datatype Error =
    | ContractPaused | TokenZeroAddress | RecipientZero | ZeroAmount | ChainNotSupported | UsedAdId
    | NotRegistered | TransferFailed | AdNotFound | AdClosed | InsufficientLiquidity | ActiveLocks | NotHalted
    | InvalidOrder | FeeMismatch | SlotNotUsable | AdDecimalsMismatch | BadDeadline | RegistrySplitError
    | OrderExists | AnchorDelayUnreadable | OrderNotOpen | NullifierUsed | OrderExpired | Halted
    | RootVerifierNotSet | RootNotValid | InvalidProof | NotClaimable | NotClaimed | TooEarly | NotAParty
    | NoDisputeManager | DisputeModuleRejected | DisputeNotResolved | DisputeWindowClosed | NoRouteTiming
    | NoRepin | NoKeyRegistry | RootNotAnchored | NotFilled | SettledRecorded | NothingToClaim
    | InvalidSetting | MerkleAppendFailed | Overflow

  class Contract {
    const self: Address
    const wNative: Asset
    var wiring: Wiring
    var halts: map<Address, Halt>
    var modules: map<Order, Address>
    var ads: map<AdId, Ad>
    var orders: map<Order, OrderRecord>
    var claims: map<Order, ClaimRecord>
    var inFlight: map<Account, int>
    var settled: set<Order>
    var nullifiers: set<Id>
    /** The merkle manager's leaves. */
    var log: seq<Leaf>
    var credits: map<(Account, Token), int>
    /** This contract's balance in each token's own ledger. */
    var holdings: map<Asset, int>
    /** History: what is held and owed to nobody. */
    ghost var surplus: map<Asset, int>

    function BookNow(): Book
      reads this
    {
      Book(ads, orders, claims, inFlight, settled, nullifiers, log)
    }

    ghost function MoneyNow(): Money
      reads this
    {
      Money(credits, holdings, surplus)
    }

    ghost function Rows(): State
      reads this
    {
      State(self, wNative, wiring, halts, modules, BookNow(), MoneyNow())
    }

    constructor (self: Address, wNative: Asset)
      ensures Rows() == New(self, wNative)
    {
      this.self, this.wNative := self, wNative;
      wiring := Wiring(false, FeeConfig(None, 0, 0), map[], map[], map[], map[], None, 0, map[], map[], map[], None, None);
      halts, modules, ads, orders, claims, inFlight := map[], map[], map[], map[], map[], map[];
      settled, nullifiers, log, credits, holdings := {}, {}, [], map[], map[];
      surplus := map[];
    }

    /** The admin's setters, each validated at the write. */
    method Configure(g: Setting, now: u64, x: Answers) returns (r: Result<(), Error>)
      modifies this`wiring
      ensures r.Ok? <==> Accepted(old(Rows()), Admin(g), x, now)
      ensures Rows() == Step(old(Rows()), Admin(g), x, now)
    {
      if !SettingOk(wiring, g) {
        return Err(InvalidSetting);
      }
      wiring := Set(wiring, g, now);
      return Ok(());
    }

    // ---- ads ----

    method CreateAd(
      creator: Address, id: AdId, token: Token, amount: u128, chain: ChainId, recipient: Account, signer: Account,
      now: u64, x: Answers) returns (r: Result<(), Error>)
      modifies this`ads, this`holdings
      ensures var act := Action.CreateAd(creator, id, token, amount, chain, recipient, signer);
              (r.Ok? <==> Accepted(old(Rows()), act, x, now)) && Rows() == Step(old(Rows()), act, x, now)
    {
      if wiring.paused {
        return Err(ContractPaused);
      }
      if token == 0 {
        return Err(TokenZeroAddress);
      }
      if recipient == 0 {
        return Err(RecipientZero);
      }
      if amount == 0 {
        return Err(ZeroAmount);
      }
      if (token, chain) !in wiring.routes {
        return Err(ChainNotSupported);
      }
      if id in ads {
        return Err(UsedAdId);
      }
      if creator == self || !Registered(wiring, signer, creator, x) {
        return Err(NotRegistered);
      }
      var pulled := Pull(token, amount, x);
      if pulled.Err? {
        return pulled;
      }
      ads := ads[id := Ad(chain, recipient, creator, token, amount, 0, true, wiring.routes[(token, chain)], signer)];
      return Ok(());
    }

    /** A pull of exactly `amount` into the escrow, or nothing. */
    method Pull(token: Token, amount: nat, x: Answers) returns (r: Result<(), Error>)
      modifies this`holdings
      ensures r.Ok? <==> PullOk(old(Rows()), token, amount, x)
      ensures r.Ok? ==> MoneyNow() == Received(old(MoneyNow()), AssetOf(token, wNative), amount)
      ensures r.Err? ==> holdings == old(holdings)
    {
      var asset := AssetOf(token, wNative);
      if x.pulled.None? || (token != NATIVE && x.pulled.value != amount) || Get(holdings, asset) + amount > I128_MAX {
        return Err(TransferFailed);
      }
      holdings := holdings[asset := Get(holdings, asset) + amount];
      return Ok(());
    }

    /** A transfer out, all or nothing. */
    method Push(to: Address, asset: Asset, amount: nat, lets: bool) returns (r: Result<(), Error>)
      modifies this`holdings, this`surplus
      ensures r.Ok? <==> CanSend(old(MoneyNow()), asset, amount, lets)
      ensures MoneyNow() == if r.Ok? then Sent(old(MoneyNow()), to == self, asset, amount) else old(MoneyNow())
    {
      if !lets || amount > Get(holdings, asset) || amount > I128_MAX {
        return Err(TransferFailed);
      }
      if to == self {
        surplus := surplus[asset := Get(surplus, asset) + amount];
      } else {
        holdings := holdings[asset := Get(holdings, asset) - amount];
      }
      return Ok(());
    }

    method FundAd(id: AdId, amount: u128, now: u64, x: Answers) returns (r: Result<(), Error>)
      modifies this`ads, this`holdings
      ensures r.Ok? <==> Accepted(old(Rows()), Action.FundAd(id, amount), x, now)
      ensures Rows() == Step(old(Rows()), Action.FundAd(id, amount), x, now)
    {
      if wiring.paused {
        return Err(ContractPaused);
      }
      if id !in ads {
        return Err(AdNotFound);
      }
      var ad := ads[id];
      if !ad.open {
        return Err(AdClosed);
      }
      if amount == 0 {
        return Err(ZeroAmount);
      }
      if ad.balance + amount > U128_MAX {
        return Err(Overflow);
      }
      r := Pull(ad.token, amount, x);
      if r.Ok? {
        ads := ads[id := ad.(balance := ad.balance + amount)];
      }
    }

    /** Never paused: free liquidity no trade holds. */
    method WithdrawFromAd(id: AdId, amount: u128, to: Address, now: u64, x: Answers) returns (r: Result<(), Error>)
      modifies this`ads, this`holdings, this`surplus
      ensures r.Ok? <==> Accepted(old(Rows()), Action.WithdrawFromAd(id, amount, to), x, now)
      ensures Rows() == Step(old(Rows()), Action.WithdrawFromAd(id, amount, to), x, now)
    {
      if id !in ads {
        return Err(AdNotFound);
      }
      var ad := ads[id];
      if amount == 0 {
        return Err(ZeroAmount);
      }
      if ad.locked > ad.balance {
        return Err(Overflow);
      }
      if amount > ad.balance - ad.locked {
        return Err(InsufficientLiquidity);
      }
      r := Push(to, AssetOf(ad.token, wNative), amount, x.pays);
      if r.Ok? {
        ads := ads[id := ad.(balance := ad.balance - amount)];
      }
    }

    method CloseAd(id: AdId, to: Address, now: u64, x: Answers) returns (r: Result<(), Error>)
      modifies this`ads, this`holdings, this`surplus
      ensures r.Ok? <==> Accepted(old(Rows()), Action.CloseAd(id, to), x, now)
      ensures Rows() == Step(old(Rows()), Action.CloseAd(id, to), x, now)
    {
      if id !in ads {
        return Err(AdNotFound);
      }
      var ad := ads[id];
      if ad.locked != 0 {
        return Err(ActiveLocks);
      }
      if ad.balance > 0 {
        r := Push(to, AssetOf(ad.token, wNative), ad.balance, x.pays);
        if r.Err? {
          return;
        }
      }
      ads := ads[id := ad.(balance := 0, open := false)];
      return Ok(());
    }

    method SetSettlementSigner(id: AdId, signer: Account, now: u64, x: Answers) returns (r: Result<(), Error>)
      modifies this`ads
      ensures r.Ok? <==> Accepted(old(Rows()), Action.SetSettlementSigner(id, signer), x, now)
      ensures Rows() == Step(old(Rows()), Action.SetSettlementSigner(id, signer), x, now)
    {
      if id !in ads {
        return Err(AdNotFound);
      }
      if !Registered(wiring, signer, ads[id].maker, x) {
        return Err(NotRegistered);
      }
      ads := ads[id := ads[id].(settlementSigner := signer)];
      return Ok(());
    }

    method HaltSettlement(maker: Address, now: u64, x: Answers)
      modifies this`halts
      ensures Rows() == Step(old(Rows()), Action.HaltSettlement(maker), x, now)
    {
      var last := if maker in halts then halts[maker].lastResumedAt else 0;
      halts := halts[maker := Halt(true, last)];
    }

    method ResumeSettlement(maker: Address, now: u64, x: Answers) returns (r: Result<(), Error>)
      modifies this`halts
      ensures r.Ok? <==> Accepted(old(Rows()), Action.ResumeSettlement(maker), x, now)
      ensures Rows() == Step(old(Rows()), Action.ResumeSettlement(maker), x, now)
    {
      if maker !in halts || !halts[maker].halted {
        return Err(NotHalted);
      }
      halts := halts[maker := halts[maker].(halted := false, lastResumedAt := now)];
      return Ok(());
    }

    // ---- orders ----

    method SetInFlight(account: Account, count: int)
      modifies this`inFlight
      ensures inFlight == Put(old(inFlight), account, count)
    {
      if count == 0 {
        inFlight := inFlight - {account};
      } else {
        inFlight := inFlight[account := count];
      }
    }

    /** Every check of a lock, in the contract's order. */
    method CheckLock(o: Order, now: u64, x: Answers) returns (r: Result<(), Error>)
      ensures r.Ok? <==> CanLock(Rows(), o, x, now)
    {
      if wiring.paused {
        return Err(ContractPaused);
      }
      if o.adId !in ads {
        return Err(AdNotFound);
      }
      var ad := ads[o.adId];
      if !ValidOrder(wiring, ad, o) {
        return Err(InvalidOrder);
      }
      if o.lpFeeBps != wiring.fees.lpBps || o.protocolFeeBps != wiring.fees.protocolBps {
        return Err(FeeMismatch);
      }
      if !Registered(wiring, ad.settlementSigner, ad.maker, x) {
        return Err(NotRegistered);
      }
      if !x.slotUsable {
        return Err(SlotNotUsable);
      }
      if x.decimals != o.adDecimals {
        return Err(AdDecimalsMismatch);
      }
      if !WindowOk(wiring, o.orderChainId, o.deadline, now) {
        return Err(BadDeadline);
      }
      if RegistrySplit(wiring, o.orderChainId, wiring.registry, x) {
        return Err(RegistrySplitError);
      }
      if AdAmount(o).Err? || ad.locked > ad.balance {
        return Err(Overflow);
      }
      if Amount(o) > ad.balance - ad.locked {
        return Err(InsufficientLiquidity);
      }
      if !StatusOf(BookNow(), o).Absent? {
        return Err(OrderExists);
      }
      if AnchorDelayNow(wiring, x).None? {
        return Err(AnchorDelayUnreadable);
      }
      if Get(inFlight, o.adSettlementSigner) >= U64_MAX || wiring.epoch > U32_MAX {
        return Err(Overflow);
      }
      if !x.appended {
        return Err(MerkleAppendFailed);
      }
      return Ok(());
    }

    /** The reservation, the record, the count and the leaf of a lock. */
    method OpenOrder(o: Order, record: OrderRecord)
      requires o.adId in ads
      modifies this`ads, this`orders, this`inFlight, this`log
      ensures BookNow() == Locked(old(BookNow()), o, record)
    {
      var ad := ads[o.adId];
      ads := ads[o.adId := ad.(locked := ad.locked + Amount(o))];
      orders := orders[o := record];
      SetInFlight(o.adSettlementSigner, Get(inFlight, o.adSettlementSigner) + 1);
      log := log + [Leaf(o, OrderLeaf)];
    }

    method LockForOrder(o: Order, slot: u32, now: u64, x: Answers) returns (r: Result<(), Error>)
      modifies this`ads, this`orders, this`inFlight, this`log
      ensures r.Ok? <==> Accepted(old(Rows()), Action.LockForOrder(o, slot), x, now)
      ensures Rows() == Step(old(Rows()), Action.LockForOrder(o, slot), x, now)
    {
      r := CheckLock(o, now, x);
      if r.Ok? {
        OpenOrder(o, OrderRecord(Open, now, wiring.epoch, VersionOf(wiring, o.orderChainId),
                                 Min(AnchorDelayNow(wiring, x).value, U32_MAX), slot, false));
      }
    }

    /** `co_sign_denied`: the maker-side levers, in the contract's order. */
    method CoSignDenied(maker: Address, o: Order, until: nat, x: Answers) returns (r: bool)
      ensures r == Denied(Rows(), maker, o, until, x)
    {
      var order := RecordOf(BookNow(), o);
      if order.repinned {
        return true;
      }
      if maker in halts {
        var h := halts[maker];
        if h.halted || h.lastResumedAt >= order.lockedAt {
          return true;
        }
      }
      if o.orderChainId !in wiring.verifiers || ChangedAt(wiring, o.orderChainId) > order.lockedAt {
        return true;
      }
      if order.registryEpoch as nat !in wiring.registryAt {
        return false;
      }
      if RegistrySplit(wiring, o.orderChainId, Some(wiring.registryAt[order.registryEpoch as nat]), x) {
        return true;
      }
      return x.expiredAt != 0 && x.expiredAt <= until;
    }

    method EvidenceGrace(o: Order, buffer: u64, x: Answers) returns (r: Option<nat>)
      ensures r == Grace(Rows(), o, buffer, x)
    {
      var delay := AnchorDelayNow(wiring, x);
      if delay.None? {
        return None;
      }
      return Some(SatAdd64(Max(delay.value, RecordOf(BookNow(), o).anchorDelay), buffer));
    }

    /** What every release does: the reservation goes, what is paid leaves the balance, the order ends,
        its window closes, its signer is counted out. */
    method Release(o: Order, status: Status, paidOut: int, closesClaim: bool)
      requires o.adId in ads
      modifies this`ads, this`orders, this`claims, this`inFlight
      ensures var ended := Ended(old(BookNow()), o, status, paidOut);
              BookNow() == if closesClaim then ended else ended.(claims := old(claims))
    {
      var ad := ads[o.adId];
      ads := ads[o.adId := ad.(locked := ad.locked - Amount(o), balance := ad.balance - paidOut)];
      orders := orders[o := RecordOf(BookNow(), o).(status := status)];
      if closesClaim {
        claims := claims - {o};
      }
      SetInFlight(o.adSettlementSigner, Get(inFlight, o.adSettlementSigner) - 1);
    }

    /** Best effort to an account, then credit; a credit its ledger cannot hold traps. */
    method PayOrCredit(who: Account, token: Token, amount: int, lets: bool) returns (fits: bool)
      modifies this`credits, this`holdings
      ensures fits == CreditFits(old(MoneyNow()), wNative, who, token, amount, lets)
      ensures MoneyNow() == if fits then PaidOrCredited(old(MoneyNow()), wNative, who, token, amount, lets) else old(MoneyNow())
    {
      var asset := AssetOf(token, wNative);
      if who != 0 && lets && amount <= Get(holdings, asset) && amount <= I128_MAX {
        holdings := holdings[asset := Get(holdings, asset) - amount];
        return true;
      }
      var owed := Get(credits, (who, token)) + amount;
      if owed > U128_MAX {
        return false;
      }
      if owed == 0 {
        credits := credits - {(who, token)};
      } else {
        credits := credits[(who, token) := owed];
      }
      return true;
    }

    /** `pay_net`: the recipient's net, then the protocol's fee; both or neither. */
    method PayNet(who: Account, token: Token, net: int, fee: int, x: Answers) returns (fits: bool)
      modifies this`credits, this`holdings
      ensures fits == NetFits(old(MoneyNow()), wNative, who, token, net, x.pays, wiring.fees.pool, fee, x.paysPool)
      ensures MoneyNow() == if fits
        then PaidBoth(old(MoneyNow()), wNative, who, token, net, x.pays, wiring.fees.pool, fee, x.paysPool)
        else old(MoneyNow())
    {
      var was := (credits, holdings);
      fits := PayOrCredit(who, token, net, x.pays);
      if fits && fee != 0 && wiring.fees.pool.Some? {
        fits := PayOrCredit(wiring.fees.pool.value, token, fee, x.paysPool);
        if !fits {
          credits, holdings := was.0, was.1;
        }
      }
    }

    /** `charge_fee`, the payment and the release of a lock that pays its order. */
    method Payout(o: Order, status: Status, forfeit: bool, closesClaim: bool, x: Answers) returns (r: Result<(), Error>)
      modifies this`ads, this`orders, this`claims, this`inFlight, this`credits, this`holdings
      ensures r.Ok? <==> PayoutFits(old(Rows()), o, forfeit, x)
      ensures r.Ok? ==>
        && var ended := Ended(old(BookNow()), o, status, PaidOut(o, forfeit));
        && BookNow() == (if closesClaim then ended else ended.(claims := old(claims)))
        && MoneyNow() == PaidNet(old(Rows()), o, if forfeit then o.adChainToken else old(ads)[o.adId].token, forfeit, x)
      ensures r.Err? ==> Rows() == old(Rows())
    {
      if AdAmount(o).Err? || !ReleaseFits(BookNow(), o, PaidOut(o, forfeit))
         || LpFee(o, forfeit) + ProtocolFee(o) > Amount(o) {
        return Err(Overflow);
      }
      var token := if forfeit then o.adChainToken else ads[o.adId].token;
      var fits := PayNet(o.orderRecipient, token, Net(o, forfeit), ProtocolFee(o), x);
      if !fits {
        return Err(Overflow);
      }
      Release(o, status, PaidOut(o, forfeit), closesClaim);
      return Ok(());
    }

    /** The checks of the co-signed payout before its amounts. */
    method CheckUnlock(o: Order, nullifier: Id, now: u64, x: Answers) returns (r: Result<(), Error>)
      ensures r.Ok? && PayoutFits(Rows(), o, false, x) <==> CanUnlock(Rows(), o, nullifier, x, now)
    {
      var b := BookNow();
      if !Live(StatusOf(b, o)) {
        return Err(OrderNotOpen);
      }
      if nullifier in nullifiers {
        return Err(NullifierUsed);
      }
      var t := OrderTiming(wiring, b, o);
      if t.None? {
        return Err(NoRouteTiming);
      }
      if now >= Cutoff(b, o, t.value) {
        return Err(OrderExpired);
      }
      if o.adId !in ads {
        return Err(AdNotFound);
      }
      var maker := ads[o.adId].maker;
      if maker in halts && halts[maker].halted {
        return Err(Halted);
      }
      if o.orderChainId !in wiring.verifiers {
        return Err(RootVerifierNotSet);
      }
      if !x.rootValid {
        return Err(RootNotValid);
      }
      if !x.proofOk {
        return Err(InvalidProof);
      }
      if o in modules && !x.moduleOk {
        return Err(DisputeModuleRejected);
      }
      return Ok(());
    }

    method Unlock(o: Order, nullifier: Id, now: u64, x: Answers) returns (r: Result<(), Error>)
      modifies this`ads, this`orders, this`claims, this`inFlight, this`nullifiers, this`credits, this`holdings
      ensures r.Ok? <==> Accepted(old(Rows()), Action.Unlock(o, nullifier), x, now)
      ensures Rows() == Step(old(Rows()), Action.Unlock(o, nullifier), x, now)
    {
      UnlockStep(Rows(), o, nullifier, x, now);
      r := CheckUnlock(o, nullifier, now, x);
      if r.Ok? {
        r := Payout(o, Filled, false, true, x);
      }
      if r.Ok? {
        nullifiers := nullifiers + {nullifier};
      }
    }

    method PresentSettled(o: Order, now: u64, x: Answers) returns (r: Result<(), Error>)
      modifies this`ads, this`orders, this`claims, this`inFlight, this`credits, this`holdings
      ensures r.Ok? <==> Accepted(old(Rows()), Action.PresentSettled(o), x, now)
      ensures Rows() == Step(old(Rows()), Action.PresentSettled(o), x, now)
    {
      if !Live(StatusOf(BookNow(), o)) {
        return Err(NotClaimable);
      }
      if wiring.anchor.None? || !x.anchored {
        return Err(RootNotAnchored);
      }
      if !x.proofOk {
        return Err(InvalidProof);
      }
      if o in modules && !x.moduleOk {
        return Err(DisputeModuleRejected);
      }
      r := Payout(o, Filled, false, true, x);
    }

    /** Deadline-anchored: a late claim cannot shorten the window. */
    method ClaimCancel(o: Order, now: u64, x: Answers) returns (r: Result<(), Error>)
      modifies this`orders, this`claims
      ensures r.Ok? <==> Accepted(old(Rows()), Action.ClaimCancel(o), x, now)
      ensures Rows() == Step(old(Rows()), Action.ClaimCancel(o), x, now)
    {
      var b := BookNow();
      if !StatusOf(b, o).Open? {
        return Err(NotClaimable);
      }
      if now < o.deadline {
        return Err(TooEarly);
      }
      var t := OrderTiming(wiring, b, o);
      if t.None? {
        return Err(NoRouteTiming);
      }
      claims := claims[o := ClaimRecord(now, WindowEnd(b, o, o.deadline, t.value.buffer))];
      orders := orders[o := RecordOf(b, o).(status := Status.Claimed)];
      return Ok(());
    }

    /** `cancel_end`: the claim window's end, plus the evidence grace when the payout was denied. */
    method FindCancelEnd(maker: Address, o: Order, t: Timing, x: Answers) returns (r: Option<nat>)
      ensures r == CancelEnd(Rows(), maker, o, t, x)
    {
      var b := BookNow();
      var end := WindowEnd(b, o, o.deadline, t.buffer);
      var denied := CoSignDenied(maker, o, Cutoff(b, o, t), x);
      if !denied {
        return Some(end);
      }
      var grace := EvidenceGrace(o, t.buffer, x);
      if grace.None? {
        return None;
      }
      return Some(SatAdd64(end, grace.value));
    }

    /** `require_finalizable` and the cancel clock. */
    method CheckFinalizeCancel(o: Order, now: u64, x: Answers) returns (r: Result<(), Error>)
      ensures r.Ok? <==> CanFinalizeCancel(Rows(), o, x, now)
    {
      var b := BookNow();
      var t := OrderTiming(wiring, b, o);
      if t.None? {
        return Err(NoRouteTiming);
      }
      if !StatusOf(b, o).Claimed? {
        return Err(NotClaimed);
      }
      if now < WindowEnd(b, o, 0, t.value.buffer) {
        return Err(TooEarly);
      }
      if AdAmount(o).Err? || o.adId !in ads {
        return Err(AdNotFound);
      }
      var end := FindCancelEnd(ads[o.adId].maker, o, t.value, x);
      if end.None? {
        return Err(AnchorDelayUnreadable);
      }
      if now < end.value {
        return Err(TooEarly);
      }
      if !ReleaseFits(b, o, 0) {
        return Err(Overflow);
      }
      if !x.appended {
        return Err(MerkleAppendFailed);
      }
      return Ok(());
    }

    method FinalizeCancel(o: Order, now: u64, x: Answers) returns (r: Result<(), Error>)
      modifies this`ads, this`orders, this`claims, this`inFlight, this`log
      ensures r.Ok? <==> Accepted(old(Rows()), Action.FinalizeCancel(o), x, now)
      ensures Rows() == Step(old(Rows()), Action.FinalizeCancel(o), x, now)
    {
      FinalizeCancelStep(Rows(), o, x, now);
      r := CheckFinalizeCancel(o, now, x);
      if r.Ok? {
        Release(o, Cancelled, 0, true);
        log := log + [Leaf(o, CancelLeaf)];
      }
    }

    /** Only the order's two parties may file, on a live leg whose window is still open. */
    method CheckDispute(o: Order, filer: Address, now: u64, x: Answers) returns (r: Result<(), Error>)
      ensures r.Ok? <==> CanDispute(Rows(), o, filer, x, now)
    {
      var b := BookNow();
      if o.adId !in ads {
        return Err(AdNotFound);
      }
      if !IsParty(ads[o.adId], o, filer) {
        return Err(NotAParty);
      }
      if AdAmount(o).Err? {
        return Err(Overflow);
      }
      if !StatusOf(b, o).Open? && !StatusOf(b, o).Claimed? {
        return Err(NotClaimable);
      }
      var t := OrderTiming(wiring, b, o);
      if t.None? {
        return Err(NoRouteTiming);
      }
      if now >= WindowEnd(b, o, o.deadline, t.value.buffer) {
        return Err(DisputeWindowClosed);
      }
      if wiring.disputeManager.None? {
        return Err(NoDisputeManager);
      }
      if !x.moduleOk {
        return Err(DisputeModuleRejected);
      }
      return Ok(());
    }

    method Dispute(o: Order, filer: Address, now: u64, x: Answers) returns (r: Result<(), Error>)
      modifies this`orders, this`claims, this`modules
      ensures r.Ok? <==> Accepted(old(Rows()), Action.Dispute(o, filer), x, now)
      ensures Rows() == Step(old(Rows()), Action.Dispute(o, filer), x, now)
    {
      DisputeStep(Rows(), o, filer, x, now);
      r := CheckDispute(o, filer, now, x);
      if r.Ok? {
        modules := modules[o := wiring.disputeManager.value];
        orders := orders[o := RecordOf(BookNow(), o).(status := Disputed)];
        claims := claims - {o};
      }
    }

    method FindDisputeEnd(maker: Address, o: Order, outcome: Outcome, x: Answers) returns (r: Option<nat>)
      ensures r == DisputeEnd(Rows(), maker, o, outcome, x)
    {
      var until := x.challengeDeadline;
      if outcome.MakerForfeit? {
        return Some(until);
      }
      var denied := CoSignDenied(maker, o, until, x);
      if !denied {
        return Some(until);
      }
      var t := OrderTiming(wiring, BookNow(), o);
      if t.None? {
        return None;
      }
      var grace := EvidenceGrace(o, t.value.buffer, x);
      if grace.None? {
        return None;
      }
      return Some(SatAdd64(until, grace.value));
    }

    /** The checks of a dispute's end before its amounts. */
    method CheckFinalizeDispute(o: Order, now: u64, x: Answers) returns (r: Result<(), Error>)
      ensures r.Ok? && (if SettledOutcome(x.ruling).MakerForfeit? then PayoutFits(Rows(), o, true, x)
                        else ReleaseFits(BookNow(), o, 0))
          <==> CanFinalizeDispute(Rows(), o, x, now)
    {
      if !StatusOf(BookNow(), o).Disputed? {
        return Err(NotClaimable);
      }
      if o !in modules || !x.moduleOk {
        return Err(DisputeModuleRejected);
      }
      if !x.windowOver {
        return Err(DisputeNotResolved);
      }
      if AdAmount(o).Err? || o.adId !in ads {
        return Err(AdNotFound);
      }
      var end := FindDisputeEnd(ads[o.adId].maker, o, SettledOutcome(x.ruling), x);
      if end.None? {
        return Err(AnchorDelayUnreadable);
      }
      if now < end.value {
        return Err(TooEarly);
      }
      if !x.appended {
        return Err(MerkleAppendFailed);
      }
      return Ok(());
    }

    /** A forfeit by the maker pays the order's recipient; every other outcome frees the lock. */
    method ApplyOutcome(o: Order, outcome: Outcome, x: Answers) returns (r: Result<(), Error>)
      modifies this`ads, this`orders, this`claims, this`inFlight, this`credits, this`holdings
      ensures r.Ok? <==> (if outcome.MakerForfeit? then PayoutFits(old(Rows()), o, true, x)
                          else ReleaseFits(old(BookNow()), o, 0))
      ensures r.Ok? ==>
        && BookNow() == Ended(old(BookNow()), o, Resolved, if outcome.MakerForfeit? then PaidOut(o, true) else 0)
                          .(claims := old(claims))
        && MoneyNow() == (if outcome.MakerForfeit? then PaidNet(old(Rows()), o, o.adChainToken, true, x)
                          else old(MoneyNow()))
      ensures r.Err? ==> Rows() == old(Rows())
    {
      if outcome.MakerForfeit? {
        r := Payout(o, Resolved, true, false, x);
      } else if ReleaseFits(BookNow(), o, 0) {
        Release(o, Resolved, 0, false);
        r := Ok(());
      } else {
        r := Err(Overflow);
      }
    }

    method FinalizeDispute(o: Order, now: u64, x: Answers) returns (r: Result<(), Error>)
      modifies this`ads, this`orders, this`claims, this`inFlight, this`log, this`credits, this`holdings
      ensures r.Ok? <==> Accepted(old(Rows()), Action.FinalizeDispute(o), x, now)
      ensures Rows() == Step(old(Rows()), Action.FinalizeDispute(o), x, now)
    {
      FinalizeDisputeStep(Rows(), o, x, now);
      r := CheckFinalizeDispute(o, now, x);
      if r.Ok? {
        var outcome := SettledOutcome(x.ruling);
        r := ApplyOutcome(o, outcome, x);
        if r.Ok? {
          log := log + [Leaf(o, if outcome.BridgerForfeit? then ForfeitLeaf else CancelLeaf)];
        }
      }
    }

    method CancelNeverLocked(o: Order, now: u64, x: Answers) returns (r: Result<(), Error>)
      modifies this`orders, this`log
      ensures r.Ok? <==> Accepted(old(Rows()), Action.CancelNeverLocked(o), x, now)
      ensures Rows() == Step(old(Rows()), Action.CancelNeverLocked(o), x, now)
    {
      var b := BookNow();
      if !StatusOf(b, o).Absent? {
        return Err(NotClaimable);
      }
      if now < o.deadline {
        return Err(TooEarly);
      }
      if o.orderChainId !in wiring.chains {
        return Err(ChainNotSupported);
      }
      if (o.orderChainId, VersionOf(wiring, o.orderChainId)) !in wiring.timings {
        return Err(NoRouteTiming);
      }
      if wiring.anchor.None? || !x.anchored {
        return Err(RootNotAnchored);
      }
      if !x.proofOk {
        return Err(InvalidProof);
      }
      if !x.appended {
        return Err(MerkleAppendFailed);
      }
      orders := orders[o := RecordOf(b, o).(status := Cancelled)];
      log := log + [Leaf(o, CancelLeaf)];
      return Ok(());
    }

    method RepinOrder(o: Order, now: u64, x: Answers) returns (r: Result<(), Error>)
      modifies this`orders
      ensures r.Ok? <==> Accepted(old(Rows()), Action.RepinOrder(o), x, now)
      ensures Rows() == Step(old(Rows()), Action.RepinOrder(o), x, now)
    {
      var b := BookNow();
      var order := RecordOf(b, o);
      if !order.status.Open? {
        return Err(OrderNotOpen);
      }
      var t := OrderTiming(wiring, b, o);
      if t.None? {
        return Err(NoRouteTiming);
      }
      if now > SatSub(o.deadline, t.value.claimStagger) {
        return Err(OrderExpired);
      }
      if order.registryEpoch as nat !in wiring.registryAt {
        return Err(NoKeyRegistry);
      }
      var (from, to, nonce) := x.repin;
      if nonce == 0 || from != order.pinnedSlot {
        return Err(NoRepin);
      }
      if !x.slotUsable {
        return Err(SlotNotUsable);
      }
      orders := orders[o := order.(pinnedSlot := to, repinned := true)];
      return Ok(());
    }

    method RecordSettled(o: Order, now: u64, x: Answers) returns (r: Result<(), Error>)
      modifies this`settled, this`log
      ensures r.Ok? <==> Accepted(old(Rows()), Action.RecordSettled(o), x, now)
      ensures Rows() == Step(old(Rows()), Action.RecordSettled(o), x, now)
    {
      if !StatusOf(BookNow(), o).Filled? {
        return Err(NotFilled);
      }
      if o in settled {
        return Err(Error.SettledRecorded);
      }
      if !x.appended {
        return Err(MerkleAppendFailed);
      }
      settled := settled + {o};
      log := log + [Leaf(o, SettledLeaf)];
      return Ok(());
    }

    /** Permissionless: a credit goes only to its own recipient. */
    method Claim(who: Account, token: Token, now: u64, x: Answers) returns (r: Result<(), Error>)
      modifies this`credits, this`holdings
      ensures r.Ok? <==> Accepted(old(Rows()), Action.Claim(who, token), x, now)
      ensures Rows() == Step(old(Rows()), Action.Claim(who, token), x, now)
    {
      var amount := Get(credits, (who, token));
      if amount <= 0 {
        return Err(NothingToClaim);
      }
      var asset := AssetOf(token, wNative);
      if who == 0 || !x.pays || amount > Get(holdings, asset) || amount > I128_MAX {
        return Err(TransferFailed);
      }
      credits := credits - {(who, token)};
      holdings := holdings[asset := Get(holdings, asset) - amount];
      return Ok(());
    }
  }
}
