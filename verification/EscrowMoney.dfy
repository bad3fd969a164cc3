/** Exact asset conservation: what the escrow holds of each asset is its ads' balances, its unclaimed
    credits and what it owes nobody, to the unit, through both fee paths and the credit ledger. */
module EscrowMoney {
  import opened Numbers
  import opened Wrappers
  import opened Fees
  import opened Orders
  import opened Sums
  import opened Escrow
  import EscrowBook

  /** The native marker and the wrapped native token are one asset. */
  function BalanceMap(ads: map<AdId, Ad>, w: Asset, asset: Asset): map<AdId, int> {
    map id | id in ads :: if AssetOf(ads[id].token, w) == asset then ads[id].balance else 0
  }

  function CreditMap(credits: map<(Account, Token), int>, w: Asset, asset: Asset): map<(Account, Token), int> {
    map k | k in credits :: if AssetOf(k.1, w) == asset then credits[k] else 0
  }

  ghost function Balances(ads: map<AdId, Ad>, w: Asset, asset: Asset): int {
    MapSum(BalanceMap(ads, w, asset))
  }

  ghost function Credits(m: Money, w: Asset, asset: Asset): int {
    MapSum(CreditMap(m.credits, w, asset))
  }

  /** What the money says is owed to ads: holdings less surplus and credits. */
  ghost function ForAds(m: Money, w: Asset, asset: Asset): int {
    Get(m.holdings, asset) - Get(m.surplus, asset) - Credits(m, w, asset)
  }

  ghost predicate Conserved(ads: map<AdId, Ad>, m: Money, w: Asset, asset: Asset) {
    Balances(ads, w, asset) == ForAds(m, w, asset) && Get(m.holdings, asset) <= I128_MAX && 0 <= Get(m.surplus, asset)
  }

  ghost predicate CreditsInv(m: Money) {
    forall k :: k in m.credits ==> m.credits[k] >= 0
  }

  ghost predicate MoneyInv(s: State) {
    CreditsInv(s.money) && forall asset :: Conserved(s.book.ads, s.money, s.wNative, asset)
  }

  /** Every live order's fees are those of a valid split, and a protocol fee has a pool to go to. */
  predicate FeesCarried(fees: FeeConfig, o: Order) {
    FeesValid(o.lpFeeBps, o.protocolFeeBps, fees.pool.Some?)
  }

  ghost predicate FeeInv(s: State) {
    && FeesValid(s.wiring.fees.lpBps, s.wiring.fees.protocolBps, s.wiring.fees.pool.Some?)
    && forall o :: o in s.book.orders && Live(s.book.orders[o].status) ==> FeesCarried(s.wiring.fees, o)
  }

  ghost predicate Inv(s: State) {
    EscrowBook.Inv(s.book) && MoneyInv(s) && FeeInv(s)
  }

  lemma NewInv(self: Address, w: Asset)
    ensures Inv(New(self, w))
  {
    EscrowBook.NewInv(self, w);
    var s := New(self, w);
    forall asset ensures Conserved(s.book.ads, s.money, s.wNative, asset) {
      assert BalanceMap(map[], w, asset) == map[] && CreditMap(map[], w, asset) == map[];
    }
  }

  // ---- how each write moves the sums ----

  lemma BalanceMoves(ads: map<AdId, Ad>, id: AdId, ad: Ad, w: Asset, asset: Asset)
    requires id in ads ==> ads[id].token == ad.token
    ensures Balances(ads[id := ad], w, asset)
         == Balances(ads, w, asset)
            + (if AssetOf(ad.token, w) == asset then ad.balance - (if id in ads then ads[id].balance else 0) else 0)
  {
    var v := if AssetOf(ad.token, w) == asset then ad.balance else 0;
    assert BalanceMap(ads[id := ad], w, asset) == BalanceMap(ads, w, asset)[id := v];
    MapSumWrite(BalanceMap(ads, w, asset), id, v);
  }

  /** Money after `amount` of an asset came to be owed to ads (less than nothing: it left them). */
  ghost predicate Moved(m: Money, n: Money, w: Asset, asset: Asset, amount: int, a: Asset) {
    && ForAds(n, w, a) == ForAds(m, w, a) + (if a == asset then amount else 0)
    && Get(n.surplus, a) >= Get(m.surplus, a)
  }

  lemma ReceivedMoves(m: Money, w: Asset, asset: Asset, amount: int, a: Asset)
    ensures Moved(m, Received(m, asset, amount), w, asset, amount, a)
  {
  }

  lemma SentMoves(m: Money, w: Asset, toSelf: bool, asset: Asset, amount: nat, a: Asset)
    ensures Moved(m, Sent(m, toSelf, asset, amount), w, asset, 0 - amount, a)
  {
  }

  lemma CreditMoves(m: Money, w: Asset, k: (Account, Token), amount: int, a: Asset)
    ensures Moved(m, m.(credits := Put(m.credits, k, amount)), w, AssetOf(k.1, w), Get(m.credits, k) - amount, a)
  {
    var v := if AssetOf(k.1, w) == a then amount else 0;
    if amount == 0 {
      assert CreditMap(m.credits - {k}, w, a) == CreditMap(m.credits, w, a) - {k};
      if k in m.credits {
        MapSumRemove(CreditMap(m.credits, w, a), k);
      } else {
        assert m.credits - {k} == m.credits;
      }
    } else {
      assert CreditMap(m.credits[k := amount], w, a) == CreditMap(m.credits, w, a)[k := v];
      MapSumWrite(CreditMap(m.credits, w, a), k, v);
    }
  }

  lemma PaidMoves(m: Money, w: Asset, who: Account, token: Token, amount: nat, lets: bool, a: Asset)
    ensures Moved(m, PaidOrCredited(m, w, who, token, amount, lets), w, AssetOf(token, w), 0 - amount, a)
  {
    if who != 0 && CanSend(m, AssetOf(token, w), amount, lets) {
      ReceivedMoves(m, w, AssetOf(token, w), 0 - amount, a);
    } else {
      CreditMoves(m, w, (who, token), Get(m.credits, (who, token)) + amount, a);
    }
  }

  /** A payout leaves the money exactly by the recipient's net and the protocol's fee together. */
  lemma PaidBothMoves(
    m: Money, w: Asset, who: Account, token: Token, net: nat, lets: bool, pool: Option<Account>, fee: nat,
    letsPool: bool, a: Asset)
    requires fee != 0 ==> pool.Some?
    ensures Moved(m, PaidBoth(m, w, who, token, net, lets, pool, fee, letsPool), w, AssetOf(token, w), 0 - net - fee, a)
  {
    PaidMoves(m, w, who, token, net, lets, a);
    var paid := PaidOrCredited(m, w, who, token, net, lets);
    if fee != 0 {
      PaidMoves(paid, w, pool.value, token, fee, letsPool, a);
    }
  }

  /** The LP's share stays in the ad: what leaves it is what is paid. */
  lemma PaidNetMoves(s: State, o: Order, token: Token, forfeit: bool, x: Answers, a: Asset)
    requires FeesCarried(s.wiring.fees, o) && LpFee(o, forfeit) + ProtocolFee(o) <= Amount(o)
    ensures Moved(s.money, PaidNet(s, o, token, forfeit, x), s.wNative, AssetOf(token, s.wNative), 0 - PaidOut(o, forfeit), a)
  {
    NoRateNoFee(Amount(o), o.protocolFeeBps);
    PaidBothMoves(s.money, s.wNative, o.orderRecipient, token, Net(o, forfeit), x.pays, s.wiring.fees.pool,
                  ProtocolFee(o), x.paysPool, a);
  }

  lemma NoRateNoFee(amount: nat, bps: nat)
    ensures bps == 0 ==> BpsOf(amount, bps) == 0
  {
  }

  // ---- each call ----

  /** What a call moves between ads and money, of one asset. */
  function Delta(s: State, act: Action, x: Answers): (Asset, int) {
    match act
    case CreateAd(_, _, token, amount, _, _, _) => (AssetOf(token, s.wNative), amount)
    case FundAd(id, amount) => if id in s.book.ads then (AssetOf(s.book.ads[id].token, s.wNative), amount) else (0, 0)
    case WithdrawFromAd(id, amount, _) =>
      if id in s.book.ads then (AssetOf(s.book.ads[id].token, s.wNative), 0 - amount) else (0, 0)
    case CloseAd(id, _) =>
      if id in s.book.ads then (AssetOf(s.book.ads[id].token, s.wNative), 0 - s.book.ads[id].balance) else (0, 0)
    case Unlock(o, _) => (AssetOf(o.adChainToken, s.wNative), 0 - PaidOut(o, false))
    case PresentSettled(o) => (AssetOf(o.adChainToken, s.wNative), 0 - PaidOut(o, false))
    case FinalizeDispute(o) =>
      (AssetOf(o.adChainToken, s.wNative), if x.ruling.MakerForfeit? then 0 - PaidOut(o, true) else 0)
    case _ => (0, 0)
  }

  /** A live order's token is its ad's: the two payout paths that name it differently agree. */
  lemma LiveToken(s: State, o: Order)
    requires EscrowBook.Inv(s.book) && Live(StatusOf(s.book, o))
    ensures o.adId in s.book.ads && s.book.ads[o.adId].token == o.adChainToken
  {
    EscrowBook.LiveIsReserved(s.book, o);
  }

  lemma AdsMove(s: State, act: Action, x: Answers, now: u64, a: Asset)
    requires Inv(s) && Accepted(s, act, x, now)
    ensures var d := Delta(s, act, x);
            Balances(BookAfter(s, act, x, now).ads, s.wNative, a)
            == Balances(s.book.ads, s.wNative, a) + (if a == d.0 then d.1 else 0)
  {
    var b, w := s.book, s.wNative;
    var n := BookAfter(s, act, x, now);
    if EscrowBook.WritesAd(act) {
      BalanceMoves(b.ads, act.id, n.ads[act.id], w, a);
    } else if act.LockForOrder? || act.Unlock? || act.PresentSettled? || act.FinalizeCancel? || act.FinalizeDispute? {
      if !act.LockForOrder? {
        LiveToken(s, act.order);
      }
      BalanceMoves(b.ads, act.order.adId, n.ads[act.order.adId], w, a);
    }
  }

  lemma MoneyMoves(s: State, act: Action, x: Answers, now: u64, a: Asset)
    requires Inv(s) && Accepted(s, act, x, now)
    ensures var d := Delta(s, act, x); Moved(s.money, MoneyAfter(s, act, x, now), s.wNative, d.0, d.1, a)
  {
    if act.Unlock? || act.PresentSettled? || act.FinalizeDispute? {
      DoorMoves(s, act, x, now, a);
    } else if EscrowBook.WritesAd(act) {
      AdMoneyMoves(s, act, x, now, a);
    } else if act.Claim? {
      ClaimMoves(s.money, s.wNative, act.recipient, act.token, a);
    } else if act.Donate? {
      DonateMoves(s.money, s.wNative, act.asset, act.gift, a);
    }
  }

  lemma DoorMoves(s: State, act: Action, x: Answers, now: u64, a: Asset)
    requires Inv(s) && Accepted(s, act, x, now) && (act.Unlock? || act.PresentSettled? || act.FinalizeDispute?)
    ensures var d := Delta(s, act, x); Moved(s.money, MoneyAfter(s, act, x, now), s.wNative, d.0, d.1, a)
  {
    if act.FinalizeDispute? {
      if x.ruling.MakerForfeit? {
        PayoutMoves(s, act.order, true, x, a);
      }
    } else {
      PayoutMoves(s, act.order, false, x, a);
    }
  }

  lemma AdMoneyMoves(s: State, act: Action, x: Answers, now: u64, a: Asset)
    requires Inv(s) && Accepted(s, act, x, now) && EscrowBook.WritesAd(act)
    ensures var d := Delta(s, act, x); Moved(s.money, MoneyAfter(s, act, x, now), s.wNative, d.0, d.1, a)
  {
    var m, w, d := s.money, s.wNative, Delta(s, act, x);
    match act {
      case CreateAd(_, _, _, _, _, _, _) => ReceivedMoves(m, w, d.0, d.1, a);
      case FundAd(_, _) => ReceivedMoves(m, w, d.0, d.1, a);
      case WithdrawFromAd(_, amount, to) => SentMoves(m, w, to == s.self, d.0, amount, a);
      case CloseAd(id, to) => CloseMoves(s, id, to, a);
      case _ =>
    }
  }

  lemma CloseMoves(s: State, id: AdId, to: Address, a: Asset)
    requires Inv(s) && id in s.book.ads
    ensures var asset, balance := AssetOf(s.book.ads[id].token, s.wNative), s.book.ads[id].balance;
            balance >= 0
            && Moved(s.money, if balance > 0 then Sent(s.money, to == s.self, asset, balance) else s.money,
                     s.wNative, asset, 0 - balance, a)
  {
    assert EscrowBook.AdInv(s.book.orders, id, s.book.ads[id]);
    var asset, balance := AssetOf(s.book.ads[id].token, s.wNative), s.book.ads[id].balance;
    SentMoves(s.money, s.wNative, to == s.self, asset, balance, a);
  }

  lemma PayoutMoves(s: State, o: Order, forfeit: bool, x: Answers, a: Asset)
    requires Inv(s) && Live(StatusOf(s.book, o)) && LpFee(o, forfeit) + ProtocolFee(o) <= Amount(o)
    ensures o.adId in s.book.ads
    ensures var token := if forfeit then o.adChainToken else s.book.ads[o.adId].token;
            Moved(s.money, PaidNet(s, o, token, forfeit, x), s.wNative, AssetOf(o.adChainToken, s.wNative),
                  0 - PaidOut(o, forfeit), a)
  {
    LiveToken(s, o);
    assert FeesCarried(s.wiring.fees, o);
    PaidNetMoves(s, o, o.adChainToken, forfeit, x, a);
  }

  lemma ClaimMoves(m: Money, w: Asset, who: Account, token: Token, a: Asset)
    requires 0 < Get(m.credits, (who, token))
    ensures var amount := Get(m.credits, (who, token));
            Moved(m, Received(m.(credits := Put(m.credits, (who, token), 0)), AssetOf(token, w), 0 - amount), w, 0, 0, a)
  {
    var amount := Get(m.credits, (who, token));
    CreditMoves(m, w, (who, token), 0, a);
    ReceivedMoves(m.(credits := Put(m.credits, (who, token), 0)), w, AssetOf(token, w), 0 - amount, a);
  }

  lemma DonateMoves(m: Money, w: Asset, asset: Asset, gift: nat, a: Asset)
    ensures Moved(m, Received(m, asset, gift).(surplus := m.surplus[asset := Get(m.surplus, asset) + gift]), w, 0, 0, a)
  {
  }

  // ---- bounds ----

  /** No single call lifts a balance past an i128, and none leaves a credit negative. */
  lemma MoneyBounds(s: State, act: Action, x: Answers, now: u64, a: Asset)
    requires Inv(s) && Accepted(s, act, x, now)
    ensures Get(MoneyAfter(s, act, x, now).holdings, a) <= I128_MAX
    ensures CreditsInv(MoneyAfter(s, act, x, now))
  {
    if act.Unlock? || act.PresentSettled? || act.FinalizeDispute? {
      DoorBounds(s, act, x, now, a);
    } else {
      OtherBounds(s, act, x, now, a);
    }
  }

  lemma DoorBounds(s: State, act: Action, x: Answers, now: u64, a: Asset)
    requires Inv(s) && Accepted(s, act, x, now) && (act.Unlock? || act.PresentSettled? || act.FinalizeDispute?)
    ensures Get(MoneyAfter(s, act, x, now).holdings, a) <= I128_MAX
    ensures CreditsInv(MoneyAfter(s, act, x, now))
  {
    assert Conserved(s.book.ads, s.money, s.wNative, a);
    if act.FinalizeDispute? {
      if x.ruling.MakerForfeit? {
        PaidNetBounds(s, act.order, act.order.adChainToken, true, x, a);
      }
    } else {
      PaidNetBounds(s, act.order, s.book.ads[act.order.adId].token, false, x, a);
    }
  }

  lemma OtherBounds(s: State, act: Action, x: Answers, now: u64, a: Asset)
    requires Inv(s) && Accepted(s, act, x, now) && !act.Unlock? && !act.PresentSettled? && !act.FinalizeDispute?
    ensures Get(MoneyAfter(s, act, x, now).holdings, a) <= I128_MAX
    ensures CreditsInv(MoneyAfter(s, act, x, now))
  {
    assert Conserved(s.book.ads, s.money, s.wNative, a);
    if act.CloseAd? {
      assert EscrowBook.AdInv(s.book.orders, act.id, s.book.ads[act.id]);
    }
  }

  lemma PaidBounds(m: Money, w: Asset, who: Account, token: Token, amount: nat, lets: bool, a: Asset)
    requires CreditsInv(m) && Get(m.holdings, a) <= I128_MAX
    ensures var n := PaidOrCredited(m, w, who, token, amount, lets);
            CreditsInv(n) && Get(n.holdings, a) <= I128_MAX
  {
  }

  lemma PaidNetBounds(s: State, o: Order, token: Token, forfeit: bool, x: Answers, a: Asset)
    requires CreditsInv(s.money) && Get(s.money.holdings, a) <= I128_MAX
    requires LpFee(o, forfeit) + ProtocolFee(o) <= Amount(o)
    ensures var n := PaidNet(s, o, token, forfeit, x); CreditsInv(n) && Get(n.holdings, a) <= I128_MAX
  {
    PaidBothBounds(s.money, s.wNative, o.orderRecipient, token, Net(o, forfeit), x.pays, s.wiring.fees.pool,
                   ProtocolFee(o), x.paysPool, a);
  }

  lemma PaidBothBounds(
    m: Money, w: Asset, who: Account, token: Token, net: nat, lets: bool, pool: Option<Account>, fee: nat,
    letsPool: bool, a: Asset)
    requires CreditsInv(m) && Get(m.holdings, a) <= I128_MAX
    ensures var n := PaidBoth(m, w, who, token, net, lets, pool, fee, letsPool);
            CreditsInv(n) && Get(n.holdings, a) <= I128_MAX
  {
    PaidBounds(m, w, who, token, net, lets, a);
    if pool.Some? {
      PaidBounds(PaidOrCredited(m, w, who, token, net, lets), w, pool.value, token, fee, letsPool, a);
    }
  }

  lemma StepMoneyInv(s: State, act: Action, x: Answers, now: u64)
    requires Inv(s)
    ensures MoneyInv(Step(s, act, x, now))
  {
    if Accepted(s, act, x, now) {
      var n := Step(s, act, x, now);
      forall a ensures Conserved(n.book.ads, n.money, n.wNative, a) {
        assert Conserved(s.book.ads, s.money, s.wNative, a);
        AdsMove(s, act, x, now, a);
        MoneyMoves(s, act, x, now, a);
        MoneyBounds(s, act, x, now, a);
      }
      MoneyBounds(s, act, x, now, 0);
    }
  }

  /** The pool is never unset, and a lock takes on only the fees in force. */
  lemma LiveFees(s: State, act: Action, x: Answers, now: u64, o: Order)
    requires Inv(s) && Accepted(s, act, x, now) && Live(StatusOf(Step(s, act, x, now).book, o))
    ensures FeesCarried(Step(s, act, x, now).wiring.fees, o)
  {
    if !(act.LockForOrder? && act.order == o) {
      EscrowBook.LiveBefore(s, act, x, now, o);
      assert FeesCarried(s.wiring.fees, o);
    }
    PoolStays(s.wiring, if act.Admin? then act.setting else Pause(false), now);
  }

  lemma PoolStays(w: Wiring, g: Setting, now: u64)
    ensures w.fees.pool.Some? ==> Set(w, g, now).fees.pool.Some?
  {
  }

  lemma StepFeeInv(s: State, act: Action, x: Answers, now: u64)
    requires Inv(s)
    ensures FeeInv(Step(s, act, x, now))
  {
    if Accepted(s, act, x, now) {
      var n := Step(s, act, x, now);
      forall o | o in n.book.orders && Live(n.book.orders[o].status) ensures FeesCarried(n.wiring.fees, o) {
        LiveFees(s, act, x, now, o);
      }
    }
  }

  /** Every call keeps the escrow's books, money and fees in balance. */
  lemma StepInv(s: State, act: Action, x: Answers, now: u64)
    requires Inv(s)
    ensures Inv(Step(s, act, x, now))
  {
    EscrowBook.StepInv(s, act, x, now);
    StepMoneyInv(s, act, x, now);
    StepFeeInv(s, act, x, now);
  }
}
