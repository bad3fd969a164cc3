/** What the escrow promises over whole runs: one ending and at most one payout per order, no proof
    used twice, every unit accounted for, and no live order's door ever stuck. */
module EscrowTheorems {
  import opened Numbers
  import opened Wrappers
  import opened Fees
  import opened Orders
  import opened Sums
  import opened Escrow
  import EscrowBook
  import EscrowMoney
  import EscrowClocks

  // ---- the log ----

  predicate IsEnding(l: Leaf, o: Order) {
    l.order == o && !l.domain.OrderLeaf?
  }

  /** How many leaves say how the order ended. */
  function Endings(log: seq<Leaf>, o: Order): nat
    decreases |log|
  {
    if log == [] then 0
    else Endings(log[..|log| - 1], o) + (if IsEnding(log[|log| - 1], o) then 1 else 0)
  }

  lemma EndingsSnoc(log: seq<Leaf>, l: Leaf, o: Order)
    ensures Endings(log + [l], o) == Endings(log, o) + (if IsEnding(l, o) then 1 else 0)
  {
    assert (log + [l])[..|log|] == log;
  }

  /** The leaves an order's row calls for: one once released by a clock or a ruling, one for a payout
      once it is recorded, none before. */
  function EndingsDue(b: Book, o: Order): nat {
    match StatusOf(b, o)
    case Cancelled => 1
    case Resolved => 1
    case Filled => if o in b.settled then 1 else 0
    case _ => 0
  }

  ghost predicate LogInv(b: Book) {
    && (forall o :: Endings(b.log, o) == EndingsDue(b, o))
    && (forall o :: o in b.settled ==> StatusOf(b, o).Filled?)
  }

  lemma NewLogInv(self: Address, w: Asset)
    ensures LogInv(New(self, w).book)
  {
  }

  /** What a call appends. */
  function Appends(s: State, act: Action, x: Answers): seq<Leaf> {
    match act
    case LockForOrder(o, _) => [Leaf(o, OrderLeaf)]
    case FinalizeCancel(o) => [Leaf(o, CancelLeaf)]
    case FinalizeDispute(o) =>
      [Leaf(o, if x.ruling.BridgerForfeit? then ForfeitLeaf else CancelLeaf)]
    case CancelNeverLocked(o) => [Leaf(o, CancelLeaf)]
    case RecordSettled(o) => [Leaf(o, SettledLeaf)]
    case _ => []
  }

  /** The log only grows, by the call's own leaf. */
  lemma LogGrows(s: State, act: Action, x: Answers, now: u64)
    ensures Step(s, act, x, now).book.log
         == s.book.log + (if Accepted(s, act, x, now) then Appends(s, act, x) else [])
  {
  }

  lemma DueMoves(s: State, act: Action, x: Answers, now: u64, o: Order)
    requires LogInv(s.book) && Accepted(s, act, x, now)
    ensures EndingsDue(Step(s, act, x, now).book, o)
         == EndingsDue(s.book, o) + (if exists l :: l in Appends(s, act, x) && IsEnding(l, o) then 1 else 0)
    ensures o in Step(s, act, x, now).book.settled ==> StatusOf(Step(s, act, x, now).book, o).Filled?
  {
    if EscrowClocks.Names(act, o) {
      OwnDue(s, act, x, now, o);
    } else {
      OtherDue(s, act, x, now, o);
    }
  }

  lemma OtherDue(s: State, act: Action, x: Answers, now: u64, o: Order)
    requires LogInv(s.book) && Accepted(s, act, x, now) && !EscrowClocks.Names(act, o)
    ensures EndingsDue(Step(s, act, x, now).book, o) == EndingsDue(s.book, o)
    ensures o in Step(s, act, x, now).book.settled <==> o in s.book.settled
    ensures StatusOf(Step(s, act, x, now).book, o) == StatusOf(s.book, o)
    ensures forall l :: l in Appends(s, act, x) ==> !IsEnding(l, o)
  {
    EscrowClocks.OtherRow(s, act, x, now, o);
    SettledMoves(s, act, x, now);
    AppendsItsOwn(act, s, x, o);
    SameDue(s.book, Step(s, act, x, now).book, o);
  }

  lemma SameDue(b: Book, n: Book, o: Order)
    requires StatusOf(n, o) == StatusOf(b, o) && (o in n.settled <==> o in b.settled)
    ensures EndingsDue(n, o) == EndingsDue(b, o)
  {
  }

  lemma AppendsItsOwn(act: Action, s: State, x: Answers, o: Order)
    requires !EscrowClocks.Names(act, o)
    ensures forall l :: l in Appends(s, act, x) ==> l.order != o
  {
  }

  lemma SettledMoves(s: State, act: Action, x: Answers, now: u64)
    ensures Step(s, act, x, now).book.settled
         == s.book.settled + (if act.RecordSettled? && Accepted(s, act, x, now) then {act.order} else {})
  {
  }

  predicate AppendsEnding(act: Action) {
    act.FinalizeCancel? || act.FinalizeDispute? || act.CancelNeverLocked? || act.RecordSettled?
  }

  lemma OwnDue(s: State, act: Action, x: Answers, now: u64, o: Order)
    requires LogInv(s.book) && Accepted(s, act, x, now) && EscrowClocks.Names(act, o)
    ensures EndingsDue(Step(s, act, x, now).book, o)
         == EndingsDue(s.book, o) + (if AppendsEnding(act) then 1 else 0)
    ensures o in Step(s, act, x, now).book.settled ==> StatusOf(Step(s, act, x, now).book, o).Filled?
    ensures |Appends(s, act, x)| <= 1
    ensures AppendsEnding(act) <==> exists l :: l in Appends(s, act, x) && IsEnding(l, o)
  {
    if AppendsEnding(act) {
      assert Appends(s, act, x)[0] in Appends(s, act, x) && IsEnding(Appends(s, act, x)[0], o);
    }
  }

  lemma StepLogInv(s: State, act: Action, x: Answers, now: u64)
    requires LogInv(s.book)
    ensures LogInv(Step(s, act, x, now).book)
  {
    if Accepted(s, act, x, now) {
      var n := Step(s, act, x, now);
      LogGrows(s, act, x, now);
      forall o ensures Endings(n.book.log, o) == EndingsDue(n.book, o)
                       && (o in n.book.settled ==> StatusOf(n.book, o).Filled?)
      {
        DueMoves(s, act, x, now, o);
        var new_ := Appends(s, act, x);
        if new_ != [] {
          assert new_ == [new_[0]];
          EndingsSnoc(s.book.log, new_[0], o);
          assert IsEnding(new_[0], o) <==> exists l :: l in new_ && IsEnding(l, o);
        } else {
          assert n.book.log == s.book.log;
        }
      }
    }
  }

  // ---- one ending ----

  /** Once an order has ended, no call changes its row; and at most one leaf ever says how. */
  lemma EndedForGood(s: State, act: Action, x: Answers, now: u64, o: Order)
    requires LogInv(s.book)
    ensures Terminal(StatusOf(s.book, o)) ==> RecordOf(Step(s, act, x, now).book, o) == RecordOf(s.book, o)
    ensures Endings(s.book.log, o) <= 1
  {
    EscrowClocks.RowAfter(s, act, x, now, o);
  }

  /** The four doors a held lock leaves through. */
  predicate IsExit(act: Action, o: Order) {
    match act
    case Unlock(p, _) => p == o
    case PresentSettled(p) => p == o
    case FinalizeCancel(p) => p == o
    case FinalizeDispute(p) => p == o
    case _ => false
  }

  // ---- runs ----

  datatype Call = Call(now: u64, act: Action, x: Answers)

  predicate Timed(from: u64, calls: seq<Call>)
    decreases calls
  {
    calls == [] || (from <= calls[0].now && Timed(calls[0].now, calls[1..]))
  }

  function EndTime(from: u64, calls: seq<Call>): u64
    decreases calls
  {
    if calls == [] then from else EndTime(calls[0].now, calls[1..])
  }

  function Run(s: State, calls: seq<Call>): State
    decreases calls
  {
    if calls == [] then s else Run(Step(s, calls[0].act, calls[0].x, calls[0].now), calls[1..])
  }

  ghost predicate Inv(s: State, now: u64) {
    EscrowMoney.Inv(s) && EscrowClocks.Inv(s, now) && LogInv(s.book)
  }

  lemma NewInv(self: Address, w: Asset, now: u64)
    ensures Inv(New(self, w), now)
  {
    EscrowMoney.NewInv(self, w);
    EscrowClocks.NewInv(self, w, now);
    NewLogInv(self, w);
  }

  lemma StepInv(s: State, act: Action, x: Answers, now: u64)
    requires Inv(s, now)
    ensures Inv(Step(s, act, x, now), now)
  {
    EscrowMoney.StepInv(s, act, x, now);
    EscrowClocks.StepInv(s, act, x, now);
    StepLogInv(s, act, x, now);
  }

  /** Every run keeps every invariant. */
  lemma {:induction false} RunInv(s: State, from: u64, calls: seq<Call>)
    requires Inv(s, from) && Timed(from, calls)
    ensures Inv(Run(s, calls), EndTime(from, calls))
    decreases calls
  {
    if calls != [] {
      var c := calls[0];
      EscrowClocks.ClockInv(s, from, c.now);
      StepInv(s, c.act, c.x, c.now);
      RunInv(Step(s, c.act, c.x, c.now), c.now, calls[1..]);
    }
  }

  /** Every state a new escrow can reach has every invariant. */
  lemma ReachableInv(self: Address, w: Asset, from: u64, calls: seq<Call>)
    requires Timed(from, calls)
    ensures Inv(Run(New(self, w), calls), EndTime(from, calls))
  {
    NewInv(self, w, from);
    RunInv(New(self, w), from, calls);
  }

  /** How often a run takes an order's lock out. */
  function Exits(s: State, calls: seq<Call>, o: Order): nat
    decreases calls
  {
    if calls == [] then 0
    else
      var c := calls[0];
      (if IsExit(c.act, o) && Accepted(s, c.act, c.x, c.now) then 1 else 0)
      + Exits(Step(s, c.act, c.x, c.now), calls[1..], o)
  }

  lemma ExitEnds(s: State, act: Action, x: Answers, now: u64, o: Order)
    requires IsExit(act, o) && Accepted(s, act, x, now)
    ensures Live(StatusOf(s.book, o)) && Terminal(StatusOf(Step(s, act, x, now).book, o))
  {
  }

  /** An order's lock leaves at most once, by one door, over any run. */
  lemma {:induction false} OneExit(s: State, calls: seq<Call>, o: Order)
    ensures Exits(s, calls, o) + (if Terminal(StatusOf(s.book, o)) then 1 else 0)
         <= (if Terminal(StatusOf(Run(s, calls).book, o)) then 1 else 0)
    decreases calls
  {
    if calls != [] {
      var c := calls[0];
      OneExit(Step(s, c.act, c.x, c.now), calls[1..], o);
      EscrowClocks.RowAfter(s, c.act, c.x, c.now, o);
      if IsExit(c.act, o) && Accepted(s, c.act, c.x, c.now) {
        ExitEnds(s, c.act, c.x, c.now, o);
      }
    }
  }

  /** What left the escrow in an asset, or is now credited to someone in it. */
  ghost function Gone(m: Money, n: Money, w: Asset, asset: Asset): int {
    Get(m.holdings, asset) - Get(n.holdings, asset)
    + EscrowMoney.Credits(n, w, asset) - EscrowMoney.Credits(m, w, asset)
  }

  /** The money a call takes an order's lock out with. */
  ghost function PaidFor(s: State, act: Action, x: Answers, now: u64, o: Order): int {
    if IsExit(act, o) && Accepted(s, act, x, now)
    then Gone(s.money, Step(s, act, x, now).money, s.wNative, AssetOf(o.adChainToken, s.wNative)) else 0
  }

  /** What it should be: the recipient's net and the protocol's fee, or nothing when the lock goes back. */
  function DueFor(act: Action, x: Answers, o: Order): int {
    if act.Unlock? || act.PresentSettled? then PaidOut(o, false)
    else if act.FinalizeDispute? && x.ruling.MakerForfeit? then PaidOut(o, true)
    else 0
  }

  /** Every exit moves exactly what is due for its order, sent or credited, in the order's asset, and
      nothing in any other. */
  lemma ExitPaysItsDue(s: State, act: Action, x: Answers, now: u64, o: Order, asset: Asset)
    requires EscrowMoney.Inv(s) && IsExit(act, o) && Accepted(s, act, x, now)
    ensures Gone(s.money, Step(s, act, x, now).money, s.wNative, asset)
         == (if asset == AssetOf(o.adChainToken, s.wNative) then DueFor(act, x, o) else 0)
    ensures 0 <= DueFor(act, x, o) <= Amount(o)
  {
    EscrowMoney.MoneyMoves(s, act, x, now, asset);
    MoneyStep(s, act, x, now);
    OnlySelfSends(s, act, x, now);
    DueBounds(s, act, x, now, o);
    DueMovesOut(s, act, x, o);
  }

  lemma MoneyStep(s: State, act: Action, x: Answers, now: u64)
    requires Accepted(s, act, x, now)
    ensures Step(s, act, x, now).money == MoneyAfter(s, act, x, now)
  {
  }

  lemma DueMovesOut(s: State, act: Action, x: Answers, o: Order)
    requires IsExit(act, o)
    ensures var d := EscrowMoney.Delta(s, act, x);
            d.1 == 0 - DueFor(act, x, o) && (d.1 != 0 ==> d.0 == AssetOf(o.adChainToken, s.wNative))
  {
  }

  lemma DueBounds(s: State, act: Action, x: Answers, now: u64, o: Order)
    requires IsExit(act, o) && Accepted(s, act, x, now)
    ensures 0 <= DueFor(act, x, o) <= Amount(o)
  {
  }

  ghost function PaidInRun(s: State, calls: seq<Call>, o: Order): int
    decreases calls
  {
    if calls == [] then 0
    else
      var c := calls[0];
      PaidFor(s, c.act, c.x, c.now, o) + PaidInRun(Step(s, c.act, c.x, c.now), calls[1..], o)
  }

  /** Over any run the money that leaves the escrow, or is credited, as an order's lock goes out is at
      most what the lock reserved, and nothing once the order has ended. */
  lemma {:induction false} PaidAtMostOnce(s: State, calls: seq<Call>, o: Order)
    requires EscrowMoney.Inv(s)
    ensures 0 <= PaidInRun(s, calls, o) <= (if Terminal(StatusOf(s.book, o)) then 0 else Amount(o))
    decreases calls
  {
    if calls != [] {
      var c := calls[0];
      EscrowMoney.StepInv(s, c.act, c.x, c.now);
      PaidAtMostOnce(Step(s, c.act, c.x, c.now), calls[1..], o);
      EscrowClocks.RowAfter(s, c.act, c.x, c.now, o);
      if IsExit(c.act, o) && Accepted(s, c.act, c.x, c.now) {
        ExitEnds(s, c.act, c.x, c.now, o);
        ExitPaysItsDue(s, c.act, c.x, c.now, o, AssetOf(o.adChainToken, s.wNative));
      }
    }
  }

  // ---- nullifiers ----

  function Unlocks(s: State, calls: seq<Call>): nat
    decreases calls
  {
    if calls == [] then 0
    else
      var c := calls[0];
      (if c.act.Unlock? && Accepted(s, c.act, c.x, c.now) then 1 else 0)
      + Unlocks(Step(s, c.act, c.x, c.now), calls[1..])
  }

  /** Every successful unlock uses up a nullifier no other did: there are as many as there were unlocks. */
  lemma {:induction false} NullifiersAreSpentOnce(s: State, calls: seq<Call>)
    ensures |Run(s, calls).book.nullifiers| == |s.book.nullifiers| + Unlocks(s, calls)
    ensures s.book.nullifiers <= Run(s, calls).book.nullifiers
    decreases calls
  {
    if calls != [] {
      var c := calls[0];
      NullifiersAreSpentOnce(Step(s, c.act, c.x, c.now), calls[1..]);
      NullifierMoves(s, c.act, c.x, c.now);
    }
  }

  lemma NullifierMoves(s: State, act: Action, x: Answers, now: u64)
    ensures var b, n := s.book.nullifiers, Step(s, act, x, now).book.nullifiers;
            if act.Unlock? && Accepted(s, act, x, now)
            then act.nullifier !in b && n == b + {act.nullifier}
            else n == b
  {
  }

  // ---- no door is stuck, nothing is short ----

  /** The escrow holds what its ads and credits are owed, and the surplus besides. */
  lemma Solvent(s: State, asset: Asset)
    requires EscrowMoney.Inv(s)
    ensures 0 <= EscrowMoney.Balances(s.book.ads, s.wNative, asset)
    ensures 0 <= EscrowMoney.Credits(s.money, s.wNative, asset)
    ensures EscrowMoney.Balances(s.book.ads, s.wNative, asset) + EscrowMoney.Credits(s.money, s.wNative, asset)
         <= Get(s.money.holdings, asset)
  {
    forall id | id in s.book.ads ensures s.book.ads[id].balance >= 0 {
      assert EscrowBook.AdInv(s.book.orders, id, s.book.ads[id]);
    }
    MapSumNonnegative(EscrowMoney.BalanceMap(s.book.ads, s.wNative, asset));
    MapSumNonnegative(EscrowMoney.CreditMap(s.money.credits, s.wNative, asset));
    assert EscrowMoney.Conserved(s.book.ads, s.money, s.wNative, asset);
  }

  /** One ad's balance and one credit in the same asset are together within what is held. */
  lemma EachIsHeld(s: State, id: AdId, who: Account, token: Token)
    requires EscrowMoney.Inv(s) && id in s.book.ads
    requires AssetOf(s.book.ads[id].token, s.wNative) == AssetOf(token, s.wNative)
    ensures 0 <= Get(s.money.credits, (who, token))
    ensures s.book.ads[id].balance + Get(s.money.credits, (who, token)) <= Get(s.money.holdings, AssetOf(token, s.wNative))
    ensures Get(s.money.holdings, AssetOf(token, s.wNative)) <= I128_MAX
  {
    var asset := AssetOf(token, s.wNative);
    Solvent(s, asset);
    forall i | i in s.book.ads ensures s.book.ads[i].balance >= 0 {
      assert EscrowBook.AdInv(s.book.orders, i, s.book.ads[i]);
    }
    MapSumCovers(EscrowMoney.BalanceMap(s.book.ads, s.wNative, asset), id);
    if (who, token) in s.money.credits {
      MapSumCovers(EscrowMoney.CreditMap(s.money.credits, s.wNative, asset), (who, token));
    }
    assert EscrowMoney.Conserved(s.book.ads, s.money, s.wNative, asset);
  }

  /** Any one credit is within what is held of its asset. */
  lemma CreditIsHeld(s: State, who: Account, token: Token)
    requires EscrowMoney.Inv(s)
    ensures 0 <= Get(s.money.credits, (who, token)) <= Get(s.money.holdings, AssetOf(token, s.wNative)) <= I128_MAX
  {
    var asset := AssetOf(token, s.wNative);
    Solvent(s, asset);
    if (who, token) in s.money.credits {
      MapSumCovers(EscrowMoney.CreditMap(s.money.credits, s.wNative, asset), (who, token));
    }
    assert EscrowMoney.Conserved(s.book.ads, s.money, s.wNative, asset);
  }

  lemma ClaimStep(s: State, who: Account, token: Token, x: Answers, now: u64)
    requires CanClaim(s, who, token, x)
    ensures var amount, asset := Get(s.money.credits, (who, token)), AssetOf(token, s.wNative);
            Step(s, Claim(who, token), x, now).money
            == s.money.(credits := s.money.credits - {(who, token)},
                        holdings := s.money.holdings[asset := Get(s.money.holdings, asset) - amount])
  {
  }

  lemma TwoCreditsFit(
    m: Money, w: Asset, who: Account, token: Token, net: nat, lets: bool, pool: Option<Account>, fee: nat, letsPool: bool)
    requires Get(m.credits, (who, token)) + net + fee <= I128_MAX
    requires pool.Some? ==> Get(m.credits, (pool.value, token)) + net + fee <= I128_MAX
    ensures NetFits(m, w, who, token, net, lets, pool, fee, letsPool)
  {
  }

  /** A live order's payout never traps: no underflow, no overflow, whatever the tokens do. */
  lemma PayoutNeverTraps(s: State, o: Order, forfeit: bool, x: Answers)
    requires EscrowMoney.Inv(s) && Live(StatusOf(s.book, o))
    ensures PayoutFits(s, o, forfeit, x)
  {
    EscrowBook.LiveIsReserved(s.book, o);
    assert EscrowMoney.FeesCarried(s.wiring.fees, o);
    SplitLeavesRecipient(Amount(o), if forfeit then 0 else o.lpFeeBps, o.protocolFeeBps);
    NoRate(Amount(o));
    EachIsHeld(s, o.adId, o.orderRecipient, o.adChainToken);
    var pool := s.wiring.fees.pool;
    if pool.Some? {
      EachIsHeld(s, o.adId, pool.value, o.adChainToken);
    }
    TwoCreditsFit(s.money, s.wNative, o.orderRecipient, o.adChainToken, Net(o, forfeit), x.pays, pool, ProtocolFee(o), x.paysPool);
  }

  lemma NoRate(amount: nat)
    ensures BpsOf(amount, 0) == 0
  {
  }

  /** So evidence, once anchored and proved, always settles a live order, unless the dispute module it
      was filed with refuses to close; no maker-side lever, clock, pause or ruling stands in its way. */
  lemma EvidenceAlwaysPays(s: State, o: Order, x: Answers, now: u64)
    requires EscrowMoney.Inv(s) && Live(StatusOf(s.book, o)) && s.wiring.anchor.Some? && x.anchored && x.proofOk
    ensures Accepted(s, PresentSettled(o), x, now) <==> (o in s.modules ==> x.moduleOk)
  {
    PayoutNeverTraps(s, o, false, x);
  }

  /** Free liquidity and closed-out balances always come out when the token lets them: the escrow is
      never short of them. */
  lemma WithdrawalsAreFunded(s: State, id: AdId, amount: u128, to: Address, x: Answers, now: u64)
    requires EscrowMoney.Inv(s) && id in s.book.ads && x.pays
    ensures Accepted(s, WithdrawFromAd(id, amount, to), x, now)
        <==> 0 < amount <= s.book.ads[id].balance - s.book.ads[id].locked
    ensures Accepted(s, CloseAd(id, to), x, now) <==> s.book.ads[id].locked == 0
  {
    assert EscrowBook.AdInv(s.book.orders, id, s.book.ads[id]);
    EachIsHeld(s, id, 0, s.book.ads[id].token);
  }

  // ---- the doors, exactly ----

  /** A claimed order's cancel goes through exactly from its clock on: its own window's end, later by
      the evidence grace if and only if the maker side denied the co-signed payout. */
  lemma CancelsWhenItsClockSays(s: State, o: Order, x: Answers, now: u64)
    requires EscrowMoney.Inv(s) && EscrowClocks.Inv(s, now) && StatusOf(s.book, o).Claimed? && x.appended
    ensures o.adId in s.book.ads && OrderTiming(s.wiring, s.book, o).Some?
    ensures var t := OrderTiming(s.wiring, s.book, o).value;
            var end := EscrowClocks.EndOf(o, t);
            var denied := Denied(s, s.book.ads[o.adId].maker, o, SatSub(end, t.margin), x);
            && (!denied ==> (CanFinalizeCancel(s, o, x, now) <==> end <= now))
            && (denied ==> (CanFinalizeCancel(s, o, x, now) <==>
                  Grace(s, o, t.buffer, x).Some? && SatAdd64(end, Grace(s, o, t.buffer, x).value) <= now))
  {
    EscrowBook.LiveIsReserved(s.book, o);
    EscrowClocks.CutoffIsTheLocks(s, now, o);
    OnlyTheClock(s, o, OrderTiming(s.wiring, s.book, o).value, x, now);
  }

  /** A claimed order's cancel waits for nothing but its clock. */
  lemma OnlyTheClock(s: State, o: Order, t: Timing, x: Answers, now: u64)
    requires EscrowMoney.Inv(s) && EscrowClocks.Inv(s, now) && StatusOf(s.book, o).Claimed? && x.appended
    requires OrderTiming(s.wiring, s.book, o) == Some(t) && o.adId in s.book.ads
    ensures var end := CancelEnd(s, s.book.ads[o.adId].maker, o, t, x);
            CanFinalizeCancel(s, o, x, now) <==> end.Some? && end.value <= now
  {
    EscrowBook.LiveIsReserved(s.book, o);
    EscrowBook.NoDoorUnderflows(s.book, o, 0, o.adId);
    EscrowBook.ClaimedHasWindow(s.book, o);
    WindowFirst(s, s.book.ads[o.adId].maker, o, t, x);
  }

  lemma WindowFirst(s: State, maker: Address, o: Order, t: Timing, x: Answers)
    requires StatusOf(s.book, o).Claimed? && o in s.book.claims && s.book.claims[o].finalizeAt <= U64_MAX
    ensures var end := CancelEnd(s, maker, o, t, x); end.Some? ==> WindowEnd(s.book, o, 0, t.buffer) <= end.value
  {
  }

  /** The co-signed payout of a live order goes through exactly when it comes before the cutoff, its
      nullifier is new, the maker's halt is not in force, the chain's verifier is wired and accepts
      root and proof, and the dispute it may be in closes: no amount ever stands in its way. */
  lemma UnlocksExactlyWhen(s: State, o: Order, nullifier: Id, x: Answers, now: u64)
    requires EscrowMoney.Inv(s) && EscrowClocks.Inv(s, now) && Live(StatusOf(s.book, o))
    ensures o.adId in s.book.ads && OrderTiming(s.wiring, s.book, o).Some?
    ensures var t := OrderTiming(s.wiring, s.book, o).value;
            CanUnlock(s, o, nullifier, x, now) <==>
              && now < SatSub(EscrowClocks.EndOf(o, t), t.margin) && nullifier !in s.book.nullifiers
              && !IsHalted(s, s.book.ads[o.adId].maker) && o.orderChainId in s.wiring.verifiers
              && x.rootValid && x.proofOk && (o in s.modules ==> x.moduleOk)
  {
    EscrowClocks.CutoffIsTheLocks(s, now, o);
    PayoutNeverTraps(s, o, false, x);
  }

  // ---- what is owed to nobody ----

  /** A call that leaves the escrow holding something it owes nobody: a gift, or an ad's money sent to
      the escrow itself. */
  function Stray(s: State, act: Action, asset: Asset): int {
    match act
    case Donate(a, gift) => if a == asset then gift else 0
    case WithdrawFromAd(id, amount, to) =>
      if to == s.self && id in s.book.ads && AssetOf(s.book.ads[id].token, s.wNative) == asset then amount else 0
    case CloseAd(id, to) =>
      if to == s.self && id in s.book.ads && AssetOf(s.book.ads[id].token, s.wNative) == asset
      then s.book.ads[id].balance else 0
    case _ => 0
  }

  /** The calls that do, by what a caller sees before them. */
  predicate Strays(s: State, act: Action, asset: Asset) {
    match act
    case Donate(a, gift) => a == asset && gift > 0
    case WithdrawFromAd(id, amount, to) =>
      to == s.self && id in s.book.ads && AssetOf(s.book.ads[id].token, s.wNative) == asset
    case CloseAd(id, to) =>
      to == s.self && id in s.book.ads && AssetOf(s.book.ads[id].token, s.wNative) == asset && s.book.ads[id].balance > 0
    case _ => false
  }

  function StrayInRun(s: State, calls: seq<Call>, asset: Asset): int
    decreases calls
  {
    if calls == [] then 0
    else
      var c := calls[0];
      (if Accepted(s, c.act, c.x, c.now) then Stray(s, c.act, asset) else 0)
      + StrayInRun(Step(s, c.act, c.x, c.now), calls[1..], asset)
  }

  /** No accepted call of the run strays. */
  predicate NoneStrays(s: State, calls: seq<Call>, asset: Asset)
    decreases calls
  {
    calls == []
    || (!(Accepted(s, calls[0].act, calls[0].x, calls[0].now) && Strays(s, calls[0].act, asset))
        && NoneStrays(Step(s, calls[0].act, calls[0].x, calls[0].now), calls[1..], asset))
  }

  lemma SurplusMoves(s: State, act: Action, x: Answers, now: u64, asset: Asset)
    requires EscrowMoney.Inv(s) && Accepted(s, act, x, now)
    ensures Get(Step(s, act, x, now).money.surplus, asset) == Get(s.money.surplus, asset) + Stray(s, act, asset)
    ensures 0 <= Stray(s, act, asset) && (0 < Stray(s, act, asset) <==> Strays(s, act, asset))
  {
    if act.CloseAd? {
      assert EscrowBook.AdInv(s.book.orders, act.id, s.book.ads[act.id]);
    } else if !act.WithdrawFromAd? && !act.Donate? {
      OnlySelfSends(s, act, x, now);
    }
  }

  lemma OnlySelfSends(s: State, act: Action, x: Answers, now: u64)
    requires Accepted(s, act, x, now) && !act.CloseAd? && !act.WithdrawFromAd? && !act.Donate?
    ensures Step(s, act, x, now).money.surplus == s.money.surplus
  {
    if act.Unlock? || act.PresentSettled? || act.FinalizeDispute? {
      var forfeit := act.FinalizeDispute?;
      PayoutKeepsSurplus(s, act.order, if forfeit then act.order.adChainToken else s.book.ads[act.order.adId].token, forfeit, x);
    }
  }

  lemma PayoutKeepsSurplus(s: State, o: Order, token: Token, forfeit: bool, x: Answers)
    ensures PaidNet(s, o, token, forfeit, x).surplus == s.money.surplus
  {
    BothKeepSurplus(s.money, s.wNative, o.orderRecipient, token, Net(o, forfeit), x.pays, s.wiring.fees.pool,
                    ProtocolFee(o), x.paysPool);
  }

  lemma BothKeepSurplus(
    m: Money, w: Asset, who: Account, token: Token, net: int, lets: bool, pool: Option<Account>, fee: int, letsPool: bool)
    ensures PaidBoth(m, w, who, token, net, lets, pool, fee, letsPool).surplus == m.surplus
  {
  }

  lemma {:induction false} SurplusIsStray(s: State, from: u64, calls: seq<Call>, asset: Asset)
    requires Inv(s, from) && Timed(from, calls)
    ensures Get(Run(s, calls).money.surplus, asset) == Get(s.money.surplus, asset) + StrayInRun(s, calls, asset)
    ensures 0 <= StrayInRun(s, calls, asset) && (StrayInRun(s, calls, asset) == 0 <==> NoneStrays(s, calls, asset))
    decreases calls
  {
    if calls != [] {
      var c := calls[0];
      EscrowClocks.ClockInv(s, from, c.now);
      StepInv(s, c.act, c.x, c.now);
      if Accepted(s, c.act, c.x, c.now) {
        SurplusMoves(s, c.act, c.x, c.now, asset);
      }
      SurplusIsStray(Step(s, c.act, c.x, c.now), c.now, calls[1..], asset);
    }
  }

  /** Exact conservation over a new escrow's whole life: what it holds of an asset is its ads' balances,
      its unclaimed credits and exactly what strayed. So holdings are balances and credits to the unit if
      and only if no accepted call of the run was a gift or a self-addressed withdrawal or close. */
  lemma HoldingsAccountedFor(self: Address, w: Asset, from: u64, calls: seq<Call>, asset: Asset)
    requires Timed(from, calls)
    ensures var s := Run(New(self, w), calls);
            var owed := EscrowMoney.Balances(s.book.ads, s.wNative, asset) + EscrowMoney.Credits(s.money, s.wNative, asset);
            && Get(s.money.holdings, asset) == owed + StrayInRun(New(self, w), calls, asset)
            && (Get(s.money.holdings, asset) == owed <==> NoneStrays(New(self, w), calls, asset))
  {
    NewInv(self, w, from);
    ReachableInv(self, w, from, calls);
    SurplusIsStray(New(self, w), from, calls, asset);
    var s := Run(New(self, w), calls);
    assert EscrowMoney.Conserved(s.book.ads, s.money, s.wNative, asset);
  }
}
