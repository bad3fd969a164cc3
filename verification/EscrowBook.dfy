/** What the escrow's book keeps: every ad's reserved amount is exactly its live orders', never more
    than its balance, so no door underflows; and every signer's count is its live orders. */
module EscrowBook {
  import opened Numbers
  import opened Wrappers
  import opened Fees
  import opened Orders
  import opened Sums
  import opened Scaling
  import opened Escrow

  type OrderRows = map<Order, OrderRecord>

  /** What an order in `status` reserves of an ad. */
  function Share(o: Order, status: Status, id: AdId): int {
    if Live(status) && o.adId == id then Amount(o) else 0
  }

  function LockMap(orders: OrderRows, id: AdId): map<Order, int> {
    map o | o in orders :: Share(o, orders[o].status, id)
  }

  /** Whether an order in `status` counts for a signer. */
  function Counts(o: Order, status: Status, signer: Account): int {
    if Live(status) && o.adSettlementSigner == signer then 1 else 0
  }

  function FlightMap(orders: OrderRows, signer: Account): map<Order, int> {
    map o | o in orders :: Counts(o, orders[o].status, signer)
  }

  ghost predicate AdInv(orders: OrderRows, id: AdId, ad: Ad) {
    0 <= ad.locked <= ad.balance && ad.locked == MapSum(LockMap(orders, id)) && (!ad.open ==> ad.locked == 0)
  }

  /** The facts every live order carries from its lock. */
  ghost predicate LiveInv(ads: map<AdId, Ad>, o: Order) {
    && o.adId in ads && AdAmount(o).Ok? && 0 < Amount(o)
    && o.adChainToken == ads[o.adId].token && o.adCreator == ads[o.adId].maker.id
  }

  ghost predicate AdsInv(ads: map<AdId, Ad>, orders: OrderRows) {
    forall id :: id in ads ==> AdInv(orders, id, ads[id])
  }

  ghost predicate FlightInv(inFlight: map<Account, int>, orders: OrderRows) {
    forall a :: Get(inFlight, a) == MapSum(FlightMap(orders, a))
  }

  ghost predicate OrdersInv(ads: map<AdId, Ad>, orders: OrderRows) {
    forall o :: o in orders && Live(orders[o].status) ==> LiveInv(ads, o)
  }

  /** A window is open exactly while the order is claimed. */
  ghost predicate ClaimsInv(claims: map<Order, ClaimRecord>, orders: OrderRows) {
    forall o :: o in claims <==> o in orders && orders[o].status.Claimed?
  }

  ghost predicate Inv(b: Book) {
    && AdsInv(b.ads, b.orders) && FlightInv(b.inFlight, b.orders)
    && OrdersInv(b.ads, b.orders) && ClaimsInv(b.claims, b.orders)
  }

  lemma NewInv(self: Address, w: Asset)
    ensures Inv(New(self, w).book)
  {
    forall a ensures MapSum(FlightMap(map[], a)) == 0 {
      assert FlightMap(map[], a) == map[];
    }
  }

  // ---- writing one order row ----

  function StatusIn(orders: OrderRows, o: Order): Status {
    if o in orders then orders[o].status else Absent
  }

  lemma LockMoves(orders: OrderRows, o: Order, r: OrderRecord, id: AdId)
    ensures MapSum(LockMap(orders[o := r], id))
         == MapSum(LockMap(orders, id)) - Share(o, StatusIn(orders, o), id) + Share(o, r.status, id)
  {
    assert LockMap(orders[o := r], id) == LockMap(orders, id)[o := Share(o, r.status, id)];
    MapSumWrite(LockMap(orders, id), o, Share(o, r.status, id));
  }

  lemma FlightMoves(orders: OrderRows, o: Order, r: OrderRecord, a: Account)
    ensures MapSum(FlightMap(orders[o := r], a))
         == MapSum(FlightMap(orders, a)) - Counts(o, StatusIn(orders, o), a) + Counts(o, r.status, a)
  {
    assert FlightMap(orders[o := r], a) == FlightMap(orders, a)[o := Counts(o, r.status, a)];
    MapSumWrite(FlightMap(orders, a), o, Counts(o, r.status, a));
  }

  /** One live order's amount is within what its ad reserves, and it counts for its signer. */
  lemma LiveIsReserved(b: Book, o: Order)
    requires Inv(b) && Live(StatusOf(b, o))
    ensures LiveInv(b.ads, o)
    ensures Amount(o) <= b.ads[o.adId].locked <= b.ads[o.adId].balance
    ensures 1 <= Get(b.inFlight, o.adSettlementSigner)
  {
    assert o in b.orders && LiveInv(b.ads, o);
    assert AdInv(b.orders, o.adId, b.ads[o.adId]);
    MapSumCovers(LockMap(b.orders, o.adId), o);
    MapSumCovers(FlightMap(b.orders, o.adSettlementSigner), o);
  }

  // ---- each way the book changes ----

  lemma WithAdInv(b: Book, id: AdId, ad: Ad)
    requires Inv(b) && 0 <= ad.locked <= ad.balance && (!ad.open ==> ad.locked == 0)
    requires id in b.ads ==>
               ad.locked == b.ads[id].locked && ad.token == b.ads[id].token && ad.maker == b.ads[id].maker
    requires id !in b.ads ==> ad.locked == 0
    ensures Inv(WithAd(b, id, ad))
  {
    var n := WithAd(b, id, ad);
    forall i | i in n.ads ensures AdInv(n.orders, i, n.ads[i]) {
      if i in b.ads {
        assert AdInv(b.orders, i, b.ads[i]);
      } else {
        NoOrdersYet(b, id);
      }
    }
    forall o | o in n.orders && Live(n.orders[o].status) ensures LiveInv(n.ads, o) {
      assert LiveInv(b.ads, o);
    }
  }

  /** No live order names an ad that does not exist. */
  lemma NoOrdersYet(b: Book, id: AdId)
    requires Inv(b) && id !in b.ads
    ensures MapSum(LockMap(b.orders, id)) == 0
  {
    forall o | o in b.orders ensures LockMap(b.orders, id)[o] == 0 {
      if Live(b.orders[o].status) {
        assert LiveInv(b.ads, o);
      }
    }
    AllZero(LockMap(b.orders, id));
  }

  lemma {:induction false} AllZero(m: map<Order, int>)
    requires forall o :: o in m ==> m[o] == 0
    ensures MapSum(m) == 0
    decreases |m|
  {
    if m != map[] {
      var o :| o in m;
      MapSumRemove(m, o);
      RemoveShrinks(m, o);
      AllZero(m - {o});
    }
  }

  /** Writing one order's row moves its own ad's reservations by the difference, and no other ad's. */
  lemma AdsKept(ads: map<AdId, Ad>, orders: OrderRows, o: Order, r: OrderRecord, ad: Ad)
    requires AdsInv(ads, orders) && o.adId in ads
    requires ad.locked == ads[o.adId].locked - Share(o, StatusIn(orders, o), o.adId) + Share(o, r.status, o.adId)
    requires 0 <= ad.locked <= ad.balance && (!ad.open ==> ad.locked == 0)
    ensures AdsInv(ads[o.adId := ad], orders[o := r])
  {
    var ads', orders' := ads[o.adId := ad], orders[o := r];
    forall id | id in ads' ensures AdInv(orders', id, ads'[id]) {
      assert AdInv(orders, id, ads[id]);
      LockMoves(orders, o, r, id);
    }
  }

  lemma FlightKept(inFlight: map<Account, int>, orders: OrderRows, o: Order, r: OrderRecord, delta: int)
    requires FlightInv(inFlight, orders)
    requires delta == Counts(o, r.status, o.adSettlementSigner) - Counts(o, StatusIn(orders, o), o.adSettlementSigner)
    ensures FlightInv(Put(inFlight, o.adSettlementSigner, Get(inFlight, o.adSettlementSigner) + delta), orders[o := r])
  {
    var after := Put(inFlight, o.adSettlementSigner, Get(inFlight, o.adSettlementSigner) + delta);
    forall a ensures Get(after, a) == MapSum(FlightMap(orders[o := r], a)) {
      assert Get(inFlight, a) == MapSum(FlightMap(orders, a));
      FlightMoves(orders, o, r, a);
    }
  }

  lemma OrdersKept(ads: map<AdId, Ad>, orders: OrderRows, o: Order, r: OrderRecord, ad: Ad)
    requires OrdersInv(ads, orders) && o.adId in ads
    requires ad.token == ads[o.adId].token && ad.maker == ads[o.adId].maker
    requires Live(r.status) ==> LiveInv(ads, o)
    ensures OrdersInv(ads[o.adId := ad], orders[o := r])
  {
    var ads', orders' := ads[o.adId := ad], orders[o := r];
    forall y | y in orders' && Live(orders'[y].status) ensures LiveInv(ads', y) {
      assert y != o ==> LiveInv(ads, y);
    }
  }

  /** An order row rewritten without moving its lock. */
  lemma RewrittenInv(b: Book, o: Order, r: OrderRecord)
    requires Inv(b) && Live(StatusOf(b, o)) == Live(r.status)
    ensures AdsInv(b.ads, b.orders[o := r]) && FlightInv(b.inFlight, b.orders[o := r])
    ensures OrdersInv(b.ads, b.orders[o := r])
  {
    var orders := b.orders[o := r];
    forall id | id in b.ads ensures AdInv(orders, id, b.ads[id]) {
      assert AdInv(b.orders, id, b.ads[id]);
      LockMoves(b.orders, o, r, id);
    }
    forall a ensures Get(b.inFlight, a) == MapSum(FlightMap(orders, a)) {
      assert Get(b.inFlight, a) == MapSum(FlightMap(b.orders, a));
      FlightMoves(b.orders, o, r, a);
    }
    forall x | x in orders && Live(orders[x].status) ensures LiveInv(b.ads, x) {
      assert x in b.orders && Live(b.orders[x].status);
    }
  }

  lemma LockedInv(b: Book, o: Order, r: OrderRecord)
    requires Inv(b) && r.status.Open? && StatusOf(b, o).Absent?
    requires LiveInv(b.ads, o) && b.ads[o.adId].open
    requires Amount(o) <= b.ads[o.adId].balance - b.ads[o.adId].locked
    ensures Inv(Locked(b, o, r))
  {
    var n := Locked(b, o, r);
    assert AdInv(b.orders, o.adId, b.ads[o.adId]);
    assert AdsInv(n.ads, n.orders) by { AdsKept(b.ads, b.orders, o, r, n.ads[o.adId]); }
    assert FlightInv(n.inFlight, n.orders) by { FlightKept(b.inFlight, b.orders, o, r, 1); }
    assert OrdersInv(n.ads, n.orders) by { OrdersKept(b.ads, b.orders, o, r, n.ads[o.adId]); }
  }

  lemma EndedInv(b: Book, o: Order, status: Status, paidOut: nat, claims: map<Order, ClaimRecord>)
    requires Inv(b) && Live(StatusOf(b, o)) && Terminal(status) && paidOut <= Amount(o)
    requires claims == b.claims - {o} || (StatusOf(b, o).Disputed? && claims == b.claims)
    ensures o.adId in b.ads && Inv(Ended(b, o, status, paidOut).(claims := claims))
  {
    LiveIsReserved(b, o);
    EndedAds(b, o, status, paidOut);
    EndedFlight(b, o, status, paidOut);
    EndedOrders(b, o, status, paidOut);
    EndedClaims(b, o, status, paidOut, claims);
  }

  lemma EndedAds(b: Book, o: Order, status: Status, paidOut: nat)
    requires Inv(b) && Live(StatusOf(b, o)) && Terminal(status) && paidOut <= Amount(o) && o.adId in b.ads
    ensures var n := Ended(b, o, status, paidOut); AdsInv(n.ads, n.orders)
  {
    LiveIsReserved(b, o);
    assert AdInv(b.orders, o.adId, b.ads[o.adId]);
    AdsKept(b.ads, b.orders, o, b.orders[o].(status := status), Ended(b, o, status, paidOut).ads[o.adId]);
  }

  lemma EndedFlight(b: Book, o: Order, status: Status, paidOut: nat)
    requires Inv(b) && Live(StatusOf(b, o)) && Terminal(status) && o.adId in b.ads
    ensures var n := Ended(b, o, status, paidOut); FlightInv(n.inFlight, n.orders)
  {
    FlightKept(b.inFlight, b.orders, o, b.orders[o].(status := status), -1);
  }

  lemma EndedOrders(b: Book, o: Order, status: Status, paidOut: nat)
    requires Inv(b) && Live(StatusOf(b, o)) && Terminal(status) && o.adId in b.ads
    ensures var n := Ended(b, o, status, paidOut); OrdersInv(n.ads, n.orders)
  {
    OrdersKept(b.ads, b.orders, o, b.orders[o].(status := status), Ended(b, o, status, paidOut).ads[o.adId]);
  }

  lemma EndedClaims(b: Book, o: Order, status: Status, paidOut: nat, claims: map<Order, ClaimRecord>)
    requires Inv(b) && Live(StatusOf(b, o)) && Terminal(status) && o.adId in b.ads
    requires claims == b.claims - {o} || (StatusOf(b, o).Disputed? && claims == b.claims)
    ensures ClaimsInv(claims, Ended(b, o, status, paidOut).orders)
  {
  }

  /** Does the call write the book at all? */
  predicate WritesBook(act: Action) {
    !act.Admin? && !act.HaltSettlement? && !act.ResumeSettlement? && !act.Claim? && !act.Donate?
  }

  predicate WritesAd(act: Action) {
    act.CreateAd? || act.FundAd? || act.WithdrawFromAd? || act.CloseAd? || act.SetSettlementSigner?
  }

  lemma AdCallInv(s: State, act: Action, x: Answers, now: u64)
    requires Inv(s.book) && WritesAd(act) && Accepted(s, act, x, now)
    ensures Inv(BookAfter(s, act, x, now))
  {
    if !act.CreateAd? {
      assert AdInv(s.book.orders, act.id, s.book.ads[act.id]);
    }
    WithAdInv(s.book, act.id, BookAfter(s, act, x, now).ads[act.id]);
  }

  lemma LockCallInv(s: State, o: Order, slot: u32, x: Answers, now: u64)
    requires Inv(s.book) && CanLock(s, o, x, now)
    ensures Inv(Locked(s.book, o, LockRecord(s, o, slot, x, now)))
    ensures 0 < Amount(o)
  {
    ScaleIsExact(o.amount, o.orderDecimals, o.adDecimals, Amount(o));
    LockedInv(s.book, o, LockRecord(s, o, slot, x, now));
  }

  /** Every call keeps the book's invariant. */
  lemma StepInv(s: State, act: Action, x: Answers, now: u64)
    requires Inv(s.book)
    ensures Inv(Step(s, act, x, now).book)
  {
    if Accepted(s, act, x, now) && WritesBook(act) {
      if WritesAd(act) {
        AdCallInv(s, act, x, now);
      } else {
        OrderCallInv(s, act, x, now);
      }
    }
  }

  /** The calls that move an order's status without moving its lock. */
  predicate Rewrites(act: Action) {
    act.ClaimCancel? || act.Dispute? || act.CancelNeverLocked? || act.RepinOrder?
  }

  lemma RewriteCallInv(s: State, act: Action, x: Answers, now: u64)
    requires Inv(s.book) && Rewrites(act) && Accepted(s, act, x, now)
    ensures Inv(BookAfter(s, act, x, now))
  {
    match act {
      case ClaimCancel(o) => ClaimCallInv(s, o, x, now);
      case Dispute(o, filer) => FilingCallInv(s, o, filer, x, now);
      case CancelNeverLocked(o) => RewrittenInv(s.book, o, RecordOf(s.book, o).(status := Cancelled));
      case RepinOrder(o) => RewrittenInv(s.book, o, RecordOf(s.book, o).(pinnedSlot := x.repin.1, repinned := true));
    }
  }

  lemma ClaimCallInv(s: State, o: Order, x: Answers, now: u64)
    requires Inv(s.book) && Accepted(s, ClaimCancel(o), x, now)
    ensures Inv(BookAfter(s, ClaimCancel(o), x, now))
  {
    RewrittenInv(s.book, o, RecordOf(s.book, o).(status := Status.Claimed));
  }

  lemma FilingCallInv(s: State, o: Order, filer: Address, x: Answers, now: u64)
    requires Inv(s.book) && CanDispute(s, o, filer, x, now)
    ensures Inv(BookAfter(s, Dispute(o, filer), x, now))
  {
    UnclaimedInv(s.book, o);
    FilingBook(s, o, filer, x, now);
  }

  lemma FilingBook(s: State, o: Order, filer: Address, x: Answers, now: u64)
    requires CanDispute(s, o, filer, x, now)
    ensures BookAfter(s, Dispute(o, filer), x, now)
         == Rewritten(s.book, o, RecordOf(s.book, o).(status := Disputed)).(claims := s.book.claims - {o})
  {
  }

  lemma UnclaimedInv(b: Book, o: Order)
    requires Inv(b) && (StatusOf(b, o).Open? || StatusOf(b, o).Claimed?)
    ensures Inv(Rewritten(b, o, RecordOf(b, o).(status := Disputed)).(claims := b.claims - {o}))
  {
    RewrittenInv(b, o, RecordOf(b, o).(status := Disputed));
  }

  lemma OrderCallInv(s: State, act: Action, x: Answers, now: u64)
    requires Inv(s.book) && WritesBook(act) && !WritesAd(act) && Accepted(s, act, x, now)
    ensures Inv(BookAfter(s, act, x, now))
  {
    if Rewrites(act) {
      RewriteCallInv(s, act, x, now);
    } else if act.LockForOrder? {
      LockStepInv(s, act.order, act.slot, x, now);
    } else if act.RecordSettled? {
      RecordCallInv(s, act.order, x, now);
    } else {
      ExitCallInv(s, act, x, now);
    }
  }

  lemma LockStepInv(s: State, o: Order, slot: u32, x: Answers, now: u64)
    requires Inv(s.book) && CanLock(s, o, x, now)
    ensures Inv(BookAfter(s, LockForOrder(o, slot), x, now))
  {
    LockCallInv(s, o, slot, x, now);
  }

  lemma ExitCallInv(s: State, act: Action, x: Answers, now: u64)
    requires act.Unlock? || act.PresentSettled? || act.FinalizeCancel? || act.FinalizeDispute?
    requires Inv(s.book) && Accepted(s, act, x, now)
    ensures Inv(BookAfter(s, act, x, now))
  {
    match act {
      case Unlock(o, nullifier) => UnlockCallInv(s, o, nullifier, x, now);
      case PresentSettled(o) => PresentCallInv(s, o, x, now);
      case FinalizeCancel(o) => CancelCallInv(s, o, x, now);
      case FinalizeDispute(o) => DisputeCallInv(s, o, x, now);
    }
  }

  lemma RecordCallInv(s: State, o: Order, x: Answers, now: u64)
    requires Inv(s.book) && Accepted(s, RecordSettled(o), x, now)
    ensures Inv(BookAfter(s, RecordSettled(o), x, now))
  {
  }

  /** What the invariant does not read. */
  lemma SameBook(b: Book, n: Book)
    requires Inv(b) && n.ads == b.ads && n.orders == b.orders && n.claims == b.claims && n.inFlight == b.inFlight
    ensures Inv(n)
  {
  }

  lemma UnlockCallInv(s: State, o: Order, nullifier: Id, x: Answers, now: u64)
    requires Inv(s.book) && CanUnlock(s, o, nullifier, x, now)
    ensures Inv(BookAfter(s, Unlock(o, nullifier), x, now))
  {
    PaidOutFits(o, false);
    EndedInv(s.book, o, Filled, PaidOut(o, false), s.book.claims - {o});
    SameBook(Ended(s.book, o, Filled, PaidOut(o, false)), BookAfter(s, Unlock(o, nullifier), x, now));
  }

  lemma PaidOutFits(o: Order, forfeit: bool)
    requires LpFee(o, forfeit) <= Amount(o)
    ensures 0 <= PaidOut(o, forfeit) <= Amount(o)
  {
  }

  lemma PresentCallInv(s: State, o: Order, x: Answers, now: u64)
    requires Inv(s.book) && CanPresent(s, o, x)
    ensures Inv(BookAfter(s, PresentSettled(o), x, now))
  {
    PaidOutFits(o, false);
    EndedInv(s.book, o, Filled, PaidOut(o, false), s.book.claims - {o});
    SameBook(Ended(s.book, o, Filled, PaidOut(o, false)), BookAfter(s, PresentSettled(o), x, now));
  }

  lemma CancelledInv(b: Book, o: Order)
    requires Inv(b) && StatusOf(b, o).Claimed?
    ensures o.adId in b.ads && Inv(Ended(b, o, Cancelled, 0))
  {
    EndedInv(b, o, Cancelled, 0, b.claims - {o});
  }

  lemma CancelCallInv(s: State, o: Order, x: Answers, now: u64)
    requires Inv(s.book) && CanFinalizeCancel(s, o, x, now)
    ensures Inv(BookAfter(s, FinalizeCancel(o), x, now))
  {
    CancelledInv(s.book, o);
    SameBook(Ended(s.book, o, Cancelled, 0), BookAfter(s, FinalizeCancel(o), x, now));
  }

  lemma DisputedEnds(b: Book, o: Order, paidOut: int)
    requires Inv(b) && StatusOf(b, o).Disputed? && 0 <= paidOut <= Amount(o)
    ensures o.adId in b.ads && Inv(Ended(b, o, Resolved, paidOut).(claims := b.claims))
  {
    EndedInv(b, o, Resolved, paidOut, b.claims);
  }

  lemma DisputeCallInv(s: State, o: Order, x: Answers, now: u64)
    requires Inv(s.book) && CanFinalizeDispute(s, o, x, now)
    ensures Inv(BookAfter(s, FinalizeDispute(o), x, now))
  {
    var paid := if SettledOutcome(x.ruling).MakerForfeit? then PaidOut(o, true) else 0;
    if SettledOutcome(x.ruling).MakerForfeit? {
      PaidOutFits(o, true);
    }
    DisputedEnds(s.book, o, paid);
    SameBook(Ended(s.book, o, Resolved, paid).(claims := s.book.claims), BookAfter(s, FinalizeDispute(o), x, now));
  }

  // ---- what it means ----

  lemma ClaimedHasWindow(b: Book, o: Order)
    requires Inv(b)
    ensures StatusOf(b, o).Claimed? <==> o in b.claims
  {
    assert ClaimsInv(b.claims, b.orders);
  }

  /** A closed ad has no live order, and none can be locked on it. */
  lemma ClosedAdIsEmpty(s: State, o: Order, x: Answers, now: u64)
    requires Inv(s.book) && o.adId in s.book.ads && !s.book.ads[o.adId].open
    ensures !Live(StatusOf(s.book, o)) && !CanLock(s, o, x, now)
  {
    assert AdInv(s.book.orders, o.adId, s.book.ads[o.adId]);
    if Live(StatusOf(s.book, o)) {
      LiveIsReserved(s.book, o);
    }
  }

  /** No door of a live order underflows, whatever it pays out of the order's own amount, and what an
      ad has free is never negative. */
  lemma NoDoorUnderflows(b: Book, o: Order, paidOut: nat, id: AdId)
    requires Inv(b) && Live(StatusOf(b, o)) && paidOut <= Amount(o)
    ensures ReleaseFits(b, o, paidOut)
    ensures id in b.ads ==> b.ads[id].locked <= b.ads[id].balance
  {
    LiveIsReserved(b, o);
    assert id in b.ads ==> AdInv(b.orders, id, b.ads[id]);
  }

  /** Only a lock makes an order live. */
  lemma LiveBefore(s: State, act: Action, x: Answers, now: u64, o: Order)
    requires Live(StatusOf(Step(s, act, x, now).book, o)) && !(act.LockForOrder? && act.order == o)
    ensures Live(StatusOf(s.book, o))
  {
  }

  /** The live orders naming a signer. */
  function LiveOrders(orders: OrderRows, signer: Account): set<Order> {
    set o | o in orders && Live(orders[o].status) && o.adSettlementSigner == signer
  }

  lemma OneOrderLess(orders: OrderRows, o: Order, signer: Account)
    requires o in orders
    ensures |LiveOrders(orders, signer)| == |LiveOrders(orders - {o}, signer)| + Counts(o, orders[o].status, signer)
  {
    var rest := LiveOrders(orders - {o}, signer);
    if Counts(o, orders[o].status, signer) == 1 {
      assert LiveOrders(orders, signer) == rest + {o} && o !in rest;
    } else {
      assert LiveOrders(orders, signer) == rest;
    }
  }

  lemma {:induction false} MarksCount(orders: OrderRows, signer: Account)
    ensures MapSum(FlightMap(orders, signer)) == |LiveOrders(orders, signer)|
    decreases |orders|
  {
    if orders == map[] {
      assert FlightMap(orders, signer) == map[];
    } else {
      var o :| o in orders;
      RemoveShrinks(orders, o);
      MarksCount(orders - {o}, signer);
      MapSumRemove(FlightMap(orders, signer), o);
      OneOrderLess(orders, o, signer);
      assert FlightMap(orders - {o}, signer) == FlightMap(orders, signer) - {o};
    }
  }

  /** A signer's count is the number of live orders naming it: what the registry's guard reads. */
  lemma InFlightCountsLiveOrders(b: Book, signer: Account)
    requires Inv(b)
    ensures Get(b.inFlight, signer) == |LiveOrders(b.orders, signer)|
  {
    MarksCount(b.orders, signer);
    assert FlightInv(b.inFlight, b.orders);
  }
}
