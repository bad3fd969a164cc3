/** What each of the escrow's doors does, said of its rows, the order's signed terms and the answers it
    was given: who is paid, who is credited, how much stays, which leaf is written, who may ask. */
module EscrowOutcomes {
  import opened Numbers
  import opened Wrappers
  import opened Fees
  import opened Scaling
  import opened Orders
  import opened Escrow
  import B = EscrowBook
  import M = EscrowMoney
  import C = EscrowClocks
  import T = EscrowTheorems

  // ---- what every live order carries from its lock ----

  /** The terms of a live order are its ad's, its parties are told apart, and its fees are within the cap. */
  predicate Carries(s: State, o: Order) {
    && o.adId in s.book.ads
    && var ad := s.book.ads[o.adId];
    && 0 < o.amount && o.orderDecimals <= 30 && o.adDecimals <= 30
    && o.bridger != 0 && o.orderRecipient != 0 && o.adSettlementSigner != 0
    && o.orderRecipient != o.adCreator && o.orderRecipient != o.adSettlementSigner
    && o.orderChainId == ad.orderChainId && o.orderChainToken == ad.orderChainToken
    && o.adChainToken == ad.token && o.adRecipient == ad.adRecipient && o.adCreator == ad.maker.id
    && o.lpFeeBps <= 100 && o.protocolFeeBps <= 100
  }

  ghost predicate CarriesInv(s: State) {
    && (s.wiring.fees.pool.Some? ==> s.wiring.fees.pool.value != 0)
    && forall o :: Live(StatusOf(s.book, o)) ==> Carries(s, o)
  }

  /** What no call changes of an ad. */
  lemma AdKeepsTerms(s: State, act: Action, x: Answers, now: u64, id: AdId)
    requires id in s.book.ads
    ensures id in Step(s, act, x, now).book.ads
    ensures var ad, n := s.book.ads[id], Step(s, act, x, now).book.ads[id];
            n.orderChainId == ad.orderChainId && n.orderChainToken == ad.orderChainToken && n.token == ad.token
            && n.adRecipient == ad.adRecipient && n.maker == ad.maker
  {
  }

  lemma LockCarries(s: State, o: Order, slot: u32, x: Answers, now: u64)
    requires M.Inv(s) && CanLock(s, o, x, now)
    ensures Carries(Step(s, LockForOrder(o, slot), x, now), o)
  {
    AdKeepsTerms(s, LockForOrder(o, slot), x, now, o.adId);
  }

  lemma StepCarries(s: State, act: Action, x: Answers, now: u64)
    requires M.Inv(s) && CarriesInv(s)
    ensures CarriesInv(Step(s, act, x, now))
  {
    var n := Step(s, act, x, now);
    PoolIsSomeone(s, act, x, now);
    forall o | Live(StatusOf(n.book, o)) ensures Carries(n, o) {
      if act.LockForOrder? && act.order == o && Accepted(s, act, x, now) {
        LockCarries(s, o, act.slot, x, now);
      } else {
        StaysCarried(s, act, x, now, o);
      }
    }
  }

  lemma StaysCarried(s: State, act: Action, x: Answers, now: u64, o: Order)
    requires CarriesInv(s) && Live(StatusOf(Step(s, act, x, now).book, o))
    requires !(act.LockForOrder? && act.order == o && Accepted(s, act, x, now))
    ensures Carries(Step(s, act, x, now), o)
  {
    if Accepted(s, act, x, now) {
      B.LiveBefore(s, act, x, now, o);
    }
    AdKeepsTerms(s, act, x, now, o.adId);
  }

  lemma PoolIsSomeone(s: State, act: Action, x: Answers, now: u64)
    requires s.wiring.fees.pool.Some? ==> s.wiring.fees.pool.value != 0
    ensures var p := Step(s, act, x, now).wiring.fees.pool; p.Some? ==> p.value != 0
  {
    if act.Admin? && Accepted(s, act, x, now) {
      SetPool(s.wiring, act.setting, now);
    }
  }

  lemma SetPool(w: Wiring, g: Setting, now: u64)
    requires SettingOk(w, g) && (w.fees.pool.Some? ==> w.fees.pool.value != 0)
    ensures var p := Set(w, g, now).fees.pool; p.Some? ==> p.value != 0
  {
  }

  /** In every state a new escrow can reach, every live order carries the terms its lock validated. */
  lemma {:induction false} LiveOrdersCarry(s: State, from: u64, calls: seq<T.Call>)
    requires T.Inv(s, from) && CarriesInv(s) && T.Timed(from, calls)
    ensures CarriesInv(T.Run(s, calls)) && T.Inv(T.Run(s, calls), T.EndTime(from, calls))
    decreases calls
  {
    if calls != [] {
      var c := calls[0];
      C.ClockInv(s, from, c.now);
      StepCarries(s, c.act, c.x, c.now);
      T.StepInv(s, c.act, c.x, c.now);
      LiveOrdersCarry(Step(s, c.act, c.x, c.now), c.now, calls[1..]);
    }
  }

  lemma ReachableCarry(self: Address, w: Asset, from: u64, calls: seq<T.Call>)
    requires T.Timed(from, calls)
    ensures CarriesInv(T.Run(New(self, w), calls)) && T.Inv(T.Run(New(self, w), calls), T.EndTime(from, calls))
  {
    T.NewInv(self, w, from);
    LiveOrdersCarry(New(self, w), from, calls);
  }

  // ---- amounts ----

  lemma AmountScales(s: State, o: Order)
    requires M.Inv(s) && Live(StatusOf(s.book, o))
    ensures AdAmount(o).Ok?
  {
    B.LiveIsReserved(s.book, o);
  }

  /** The ad-chain amount is the signed quantity, exactly, in the ad token's units. */
  lemma AmountIsSigned(s: State, o: Order)
    requires M.Inv(s) && CarriesInv(s) && Live(StatusOf(s.book, o))
    ensures Amount(o) * Pow10(o.orderDecimals) == o.amount * Pow10(o.adDecimals)
    ensures 0 < Amount(o) <= U128_MAX
  {
    AmountScales(s, o);
    ScaleIsExact(o.amount, o.orderDecimals, o.adDecimals, Amount(o));
  }

  /** A rate of an amount, rounded down. */
  function Cut(amount: nat, bps: nat): nat {
    amount * bps / 10_000
  }

  /** What the LP keeps of a payout, what the protocol takes, what the recipient gets. */
  lemma TermsOf(o: Order, forfeit: bool)
    ensures LpFee(o, forfeit) == (if forfeit then 0 else Cut(Amount(o), o.lpFeeBps))
    ensures ProtocolFee(o) == Cut(Amount(o), o.protocolFeeBps)
    ensures PaidOut(o, forfeit) == Amount(o) - LpFee(o, forfeit)
    ensures Net(o, forfeit) == Amount(o) - LpFee(o, forfeit) - ProtocolFee(o)
  {
    BpsOfIsFloor(Amount(o), o.lpFeeBps);
    BpsOfIsFloor(Amount(o), o.protocolFeeBps);
  }

  // ---- who is paid ----

  /** The doors that pay an order: its proved settlement, co-signed or anchored, and a dispute the arbiter
      ruled against the maker. An unruled dispute pays nobody. */
  predicate Pays(act: Action, x: Answers) {
    act.Unlock? || act.PresentSettled? || (act.FinalizeDispute? && x.ruling == MakerForfeit)
  }

  /** The recipient's part: all of it when the maker forfeits, less the LP's cut otherwise, less the protocol's. */
  function ToRecipient(act: Action, o: Order): int {
    Amount(o) - (if act.FinalizeDispute? then 0 else Cut(Amount(o), o.lpFeeBps)) - Cut(Amount(o), o.protocolFeeBps)
  }

  lemma PaidAt(m: Money, w: Asset, who: Account, token: Token, amount: nat, lets: bool, k: (Account, Token), a: Asset)
    requires who != 0 && amount <= Get(m.holdings, AssetOf(token, w)) <= I128_MAX
    ensures var n := PaidOrCredited(m, w, who, token, amount, lets);
            && Get(n.credits, k) == Get(m.credits, k) + (if !lets && k == (who, token) then amount else 0)
            && Get(n.holdings, a) == Get(m.holdings, a) - (if lets && a == AssetOf(token, w) then amount else 0)
  {
  }

  lemma BothAt(
    m: Money, w: Asset, who: Account, token: Token, net: nat, lets: bool, pool: Option<Account>, fee: nat, letsPool: bool,
    k: (Account, Token), a: Asset)
    requires who != 0 && net + fee <= Get(m.holdings, AssetOf(token, w)) <= I128_MAX
    requires fee != 0 ==> pool.Some? && pool.value != 0
    ensures var n := PaidBoth(m, w, who, token, net, lets, pool, fee, letsPool);
            && Get(n.credits, k) == Get(m.credits, k)
               + (if !lets && k == (who, token) then net else 0)
               + (if fee != 0 && !letsPool && k == (pool.value, token) then fee else 0)
            && Get(n.holdings, a) == Get(m.holdings, a)
               - (if a == AssetOf(token, w) then (if lets then net else 0) + (if letsPool then fee else 0) else 0)
  {
    PaidAt(m, w, who, token, net, lets, k, a);
    PaidAt(m, w, who, token, net, lets, k, AssetOf(token, w));
    if fee != 0 {
      PaidAt(PaidOrCredited(m, w, who, token, net, lets), w, pool.value, token, fee, letsPool, k, a);
    }
  }

  /** A live order's payout is within what is held. */
  lemma PayoutIsHeld(s: State, o: Order)
    requires M.Inv(s) && CarriesInv(s) && Live(StatusOf(s.book, o))
    ensures Amount(o) <= Get(s.money.holdings, AssetOf(o.adChainToken, s.wNative)) <= I128_MAX
    ensures Cut(Amount(o), o.lpFeeBps) + Cut(Amount(o), o.protocolFeeBps) <= Amount(o)
    ensures Cut(Amount(o), o.protocolFeeBps) <= Amount(o)
    ensures Cut(Amount(o), o.protocolFeeBps) != 0 ==> s.wiring.fees.pool.Some? && s.wiring.fees.pool.value != 0
    ensures s.book.ads[o.adId].token == o.adChainToken
  {
    B.LiveIsReserved(s.book, o);
    B.NoDoorUnderflows(s.book, o, 0, o.adId);
    T.EachIsHeld(s, o.adId, 0, o.adChainToken);
    assert M.FeesCarried(s.wiring.fees, o);
    TermsOf(o, false);
    SplitLeavesRecipient(Amount(o), o.lpFeeBps, o.protocolFeeBps);
    M.NoRateNoFee(Amount(o), o.protocolFeeBps);
  }

  /** The money of each door, by what it is: a payout to the order's recipient and the pool, or nothing. */
  lemma DoorMoney(s: State, act: Action, x: Answers, now: u64, o: Order)
    requires M.Inv(s) && T.IsExit(act, o) && Accepted(s, act, x, now)
    ensures Live(StatusOf(s.book, o)) && o.adId in s.book.ads
    ensures Step(s, act, x, now).money
         == if Pays(act, x) then PaidNet(s, o, s.book.ads[o.adId].token, act.FinalizeDispute?, x) else s.money
  {
    M.LiveToken(s, o);
    match act {
      case Unlock(_, nullifier) => UnlockStep(s, o, nullifier, x, now);
      case PresentSettled(_) => T.MoneyStep(s, act, x, now);
      case FinalizeCancel(_) => FinalizeCancelStep(s, o, x, now);
      case FinalizeDispute(_) => FinalizeDisputeStep(s, o, x, now);
    }
  }

  /** Who is paid at each door. The order's recipient gets the net and the fee pool the protocol's cut,
      each sent when its token lets it through and credited to that very account when it does not; no
      one else is credited, no other asset moves, and a door that gives the lock back moves no money. */
  lemma DoorsPay(s: State, act: Action, x: Answers, now: u64, o: Order, who: Account, token: Token, asset: Asset)
    requires M.Inv(s) && CarriesInv(s) && T.IsExit(act, o) && Accepted(s, act, x, now)
    ensures var n, net, fee := Step(s, act, x, now), ToRecipient(act, o), Cut(Amount(o), o.protocolFeeBps);
            && Get(n.money.credits, (who, token)) == Get(s.money.credits, (who, token))
               + (if Pays(act, x) && !x.pays && (who, token) == (o.orderRecipient, o.adChainToken) then net else 0)
               + (if Pays(act, x) && !x.paysPool && (Some(who), token) == (s.wiring.fees.pool, o.adChainToken) then fee else 0)
            && Get(n.money.holdings, asset) == Get(s.money.holdings, asset)
               - (if Pays(act, x) && asset == AssetOf(o.adChainToken, s.wNative)
                  then (if x.pays then net else 0) + (if x.paysPool then fee else 0) else 0)
  {
    DoorMoney(s, act, x, now, o);
    PayoutIsHeld(s, o);
    TermsOf(o, act.FinalizeDispute?);
    if Pays(act, x) {
      BothAt(s.money, s.wNative, o.orderRecipient, o.adChainToken, Net(o, act.FinalizeDispute?), x.pays,
             s.wiring.fees.pool, ProtocolFee(o), x.paysPool, (who, token), asset);
    }
  }

  // ---- what is left of the order ----

  /** How each door leaves the order. */
  function EndsAs(act: Action): Status {
    if act.FinalizeCancel? then Cancelled else if act.FinalizeDispute? then Resolved else Filled
  }

  /** The leaf each door writes: none for a payout by proof, which is recorded apart; FORFEIT exactly
      when the arbiter ruled against the bridger. */
  function LeafOf(act: Action, x: Answers, o: Order): seq<Leaf> {
    if act.FinalizeCancel? then [Leaf(o, CancelLeaf)]
    else if act.FinalizeDispute? then [Leaf(o, if x.ruling == BridgerForfeit then ForfeitLeaf else CancelLeaf)]
    else []
  }

  /** The book a lock's release leaves. */
  predicate Leaves(b: Book, n: Book, o: Order, status: Status, paidOut: int, leaf: seq<Leaf>)
    requires o.adId in b.ads
  {
    var was := b.ads[o.adId];
    && n.log == b.log + leaf && StatusOf(n, o) == status
    && n.ads == b.ads[o.adId := was.(locked := was.locked - Amount(o), balance := was.balance - paidOut)]
  }

  lemma EndedLeaves(b: Book, o: Order, status: Status, paidOut: int)
    requires o.adId in b.ads
    ensures Leaves(b, Ended(b, o, status, paidOut), o, status, paidOut, [])
  {
  }

  lemma UnlockDoorBook(s: State, x: Answers, now: u64, o: Order, nullifier: Id)
    requires M.Inv(s) && Accepted(s, Unlock(o, nullifier), x, now)
    ensures o.adId in s.book.ads
    ensures Leaves(s.book, Step(s, Unlock(o, nullifier), x, now).book, o, Filled, PaidOut(o, false), [])
  {
    M.LiveToken(s, o);
    EndedLeaves(s.book, o, Filled, PaidOut(o, false));
    UnlockStep(s, o, nullifier, x, now);
  }

  lemma PresentDoorBook(s: State, x: Answers, now: u64, o: Order)
    requires M.Inv(s) && Accepted(s, PresentSettled(o), x, now)
    ensures o.adId in s.book.ads
    ensures Leaves(s.book, Step(s, PresentSettled(o), x, now).book, o, Filled, PaidOut(o, false), [])
  {
    M.LiveToken(s, o);
    EndedLeaves(s.book, o, Filled, PaidOut(o, false));
    PresentStep(s, o, x, now);
  }

  lemma CancelDoorBook(s: State, x: Answers, now: u64, o: Order)
    requires M.Inv(s) && Accepted(s, FinalizeCancel(o), x, now)
    ensures o.adId in s.book.ads
    ensures Leaves(s.book, Step(s, FinalizeCancel(o), x, now).book, o, Cancelled, 0, [Leaf(o, CancelLeaf)])
  {
    M.LiveToken(s, o);
    EndedLeaves(s.book, o, Cancelled, 0);
    FinalizeCancelStep(s, o, x, now);
  }

  lemma DisputeDoorBook(s: State, x: Answers, now: u64, o: Order)
    requires M.Inv(s) && Accepted(s, FinalizeDispute(o), x, now)
    ensures o.adId in s.book.ads
    ensures Leaves(s.book, Step(s, FinalizeDispute(o), x, now).book, o, Resolved,
                   if x.ruling == MakerForfeit then PaidOut(o, true) else 0,
                   [Leaf(o, if x.ruling == BridgerForfeit then ForfeitLeaf else CancelLeaf)])
  {
    M.LiveToken(s, o);
    EndedLeaves(s.book, o, Resolved, if x.ruling == MakerForfeit then PaidOut(o, true) else 0);
    FinalizeDisputeStep(s, o, x, now);
  }

  function Out(act: Action, x: Answers, o: Order): int {
    if Pays(act, x) then PaidOut(o, act.FinalizeDispute?) else 0
  }

  /** What a door pays in all: the recipient's part and the protocol's, or nothing. */
  function Due(act: Action, x: Answers, o: Order): int {
    if Pays(act, x) then ToRecipient(act, o) + Cut(Amount(o), o.protocolFeeBps) else 0
  }

  lemma DoorBook(s: State, act: Action, x: Answers, now: u64, o: Order)
    requires M.Inv(s) && T.IsExit(act, o) && Accepted(s, act, x, now)
    ensures o.adId in s.book.ads
    ensures Leaves(s.book, Step(s, act, x, now).book, o, EndsAs(act), Out(act, x, o), LeafOf(act, x, o))
  {
    if act.FinalizeCancel? {
      CancelDoorBook(s, x, now, o);
    } else if act.FinalizeDispute? {
      DisputeDoorBook(s, x, now, o);
    } else if act.Unlock? {
      UnlockDoorBook(s, x, now, o, act.nullifier);
    } else {
      PresentDoorBook(s, x, now, o);
    }
  }

  /** What each door leaves: the order ended, the leaf that says how, the lock out of its ad, and out of
      the ad's balance exactly what was paid; the LP's cut stays. No other ad moves. */
  lemma DoorsEnd(s: State, act: Action, x: Answers, now: u64, o: Order)
    requires M.Inv(s) && T.IsExit(act, o) && Accepted(s, act, x, now)
    ensures o.adId in s.book.ads
    ensures Leaves(s.book, Step(s, act, x, now).book, o, EndsAs(act), Due(act, x, o), LeafOf(act, x, o))
  {
    DoorBook(s, act, x, now, o);
    OutIsDue(act, x, o);
  }

  lemma OutIsDue(act: Action, x: Answers, o: Order)
    ensures Out(act, x, o) == Due(act, x, o)
  {
    TermsOf(o, act.FinalizeDispute?);
  }

  // ---- what is credited stays, and is drawn ----

  /** Nothing but its own claim lowers a credit. */
  lemma CreditStands(s: State, act: Action, x: Answers, now: u64, who: Account, token: Token)
    requires M.Inv(s) && CarriesInv(s) && !(act.Claim? && act.recipient == who && act.token == token)
    ensures Get(s.money.credits, (who, token)) <= Get(Step(s, act, x, now).money.credits, (who, token))
  {
    if Accepted(s, act, x, now) {
      if act.Unlock? || act.PresentSettled? || act.FinalizeCancel? || act.FinalizeDispute? {
        DoorsPay(s, act, x, now, act.order, who, token, 0);
        PayoutIsHeld(s, act.order);
      } else {
        NoDoorNoCredit(s, act, x, now, who, token);
      }
    }
  }

  lemma NoDoorNoCredit(s: State, act: Action, x: Answers, now: u64, who: Account, token: Token)
    requires Accepted(s, act, x, now) && !(act.Claim? && act.recipient == who && act.token == token)
    requires !act.Unlock? && !act.PresentSettled? && !act.FinalizeCancel? && !act.FinalizeDispute?
    ensures Get(Step(s, act, x, now).money.credits, (who, token)) == Get(s.money.credits, (who, token))
  {
    T.MoneyStep(s, act, x, now);
  }

  /** A credit can be drawn in full by its owner whenever the token lets it, is then gone, and no one
      else's moves. */
  lemma ClaimDraws(s: State, who: Account, token: Token, x: Answers, now: u64, k: (Account, Token))
    requires M.Inv(s) && who != 0 && 0 < Get(s.money.credits, (who, token)) && x.pays
    ensures var n := Step(s, Claim(who, token), x, now);
            && Accepted(s, Claim(who, token), x, now)
            && Get(n.money.credits, k) == (if k == (who, token) then 0 else Get(s.money.credits, k))
            && Get(n.money.holdings, AssetOf(token, s.wNative))
               == Get(s.money.holdings, AssetOf(token, s.wNative)) - Get(s.money.credits, (who, token))
  {
    T.CreditIsHeld(s, who, token);
    T.ClaimStep(s, who, token, x, now);
  }

  /** No accepted claim of this credit. */
  predicate Unclaimed(s: State, calls: seq<T.Call>, who: Account, token: Token)
    decreases calls
  {
    calls == []
    || (!(calls[0].act == Claim(who, token) && Accepted(s, calls[0].act, calls[0].x, calls[0].now))
        && Unclaimed(Step(s, calls[0].act, calls[0].x, calls[0].now), calls[1..], who, token))
  }

  lemma {:induction false} CreditLasts(s: State, from: u64, calls: seq<T.Call>, who: Account, token: Token)
    requires T.Inv(s, from) && CarriesInv(s) && T.Timed(from, calls) && Unclaimed(s, calls, who, token)
    ensures Get(s.money.credits, (who, token)) <= Get(T.Run(s, calls).money.credits, (who, token))
    decreases calls
  {
    if calls != [] {
      var c := calls[0];
      C.ClockInv(s, from, c.now);
      T.StepInv(s, c.act, c.x, c.now);
      StepCarries(s, c.act, c.x, c.now);
      if c.act != Claim(who, token) {
        CreditStands(s, c.act, c.x, c.now, who, token);
      }
      CreditLasts(Step(s, c.act, c.x, c.now), c.now, calls[1..], who, token);
    }
  }

  /** A recipient a token refused is not out of its money: it was credited the net, the credit outlasts
      any run in which it is not claimed, and a claim then draws at least that. */
  lemma RefusedPayoutIsClaimable(
    s: State, act: Action, x: Answers, now: u64, o: Order, calls: seq<T.Call>, y: Answers, later: u64)
    requires T.Inv(s, now) && CarriesInv(s) && T.IsExit(act, o) && Accepted(s, act, x, now) && Pays(act, x) && !x.pays
    requires T.Timed(now, calls) && Unclaimed(Step(s, act, x, now), calls, o.orderRecipient, o.adChainToken)
    requires 0 < ToRecipient(act, o) && y.pays
    ensures var m := T.Run(Step(s, act, x, now), calls);
            && Accepted(m, Claim(o.orderRecipient, o.adChainToken), y, later)
            && ToRecipient(act, o) <= Get(m.money.credits, (o.orderRecipient, o.adChainToken))
  {
    DoorMoney(s, act, x, now, o);
    DoorsPay(s, act, x, now, o, o.orderRecipient, o.adChainToken, 0);
    M.LiveToken(s, o);
    T.CreditIsHeld(s, o.orderRecipient, o.adChainToken);
    PayoutIsHeld(s, o);
    StepCarries(s, act, x, now);
    T.StepInv(s, act, x, now);
    var n := Step(s, act, x, now);
    CreditLasts(n, now, calls, o.orderRecipient, o.adChainToken);
    T.RunInv(n, now, calls);
    ClaimDraws(T.Run(n, calls), o.orderRecipient, o.adChainToken, y, later, (0, 0));
  }
}
