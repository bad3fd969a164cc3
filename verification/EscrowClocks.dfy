/** An order's clocks and endings: its cutoff never moves while it is live, no second enables both a
    co-signed payout and a clock release, and it ends once, with at most one leaf saying how. */
module EscrowClocks {
  import opened Numbers
  import opened Wrappers
  import opened Orders
  import opened Escrow
  import EscrowBook

  // ---- what every live order carries from its lock ----

  /** Versions are written once, never edited. */
  ghost predicate WiringInv(w: Wiring, now: u64) {
    && (forall k :: k in w.timings ==> 1 <= k.1 <= VersionOf(w, k.0) && TimingOk(w.timings[k]))
    && (forall e :: e in w.registryAt ==> 1 <= e <= w.epoch)
    && (w.registry.Some? ==> w.epoch in w.registryAt && w.registryAt[w.epoch] == w.registry.value)
    && (forall c :: c in w.verifierChangedAt ==> w.verifierChangedAt[c] <= now)
  }

  ghost predicate StampInv(w: Wiring, o: Order, r: OrderRecord, now: u64) {
    && (o.orderChainId, r.timingVersion as nat) in w.timings
    && r.registryEpoch as nat in w.registryAt
    && r.lockedAt <= now
    && r.lockedAt + w.timings[(o.orderChainId, r.timingVersion as nat)].minWindow <= o.deadline
    && o.deadline <= r.lockedAt + MAX_ORDER_WINDOW
  }

  /** A claim's window ends where the order's own would. */
  ghost predicate ClaimInv(s: State, o: Order) {
    o in s.book.claims && OrderTiming(s.wiring, s.book, o).Some? ==>
      s.book.claims[o].finalizeAt == SatAdd64(o.deadline, OrderTiming(s.wiring, s.book, o).value.buffer)
  }

  ghost predicate Inv(s: State, now: u64) {
    && WiringInv(s.wiring, now)
    && (forall o :: o in s.book.orders && Live(s.book.orders[o].status) ==> StampInv(s.wiring, o, s.book.orders[o], now))
    && (forall o :: o in s.book.claims ==> ClaimInv(s, o))
    && (forall o :: o in s.book.orders && s.book.orders[o].status.Disputed? ==> o in s.modules)
    && (forall m :: m in s.halts ==> s.halts[m].lastResumedAt <= now)
  }

  lemma NewInv(self: Address, w: Asset, now: u64)
    ensures Inv(New(self, w), now)
  {
  }

  lemma ClockInv(s: State, now: u64, later: u64)
    requires Inv(s, now) && now <= later
    ensures Inv(s, later)
  {
  }

  /** Every row of `n` that was there before is as it was. */
  predicate Extends<K, V(==)>(m: map<K, V>, n: map<K, V>) {
    forall k :: k in m ==> k in n && n[k] == m[k]
  }

  /** A setter adds versions and epochs; it edits none that exists. */
  lemma SetKeeps(w: Wiring, g: Setting, now: u64)
    requires WiringInv(w, now) && SettingOk(w, g)
    ensures WiringInv(Set(w, g, now), now)
    ensures Extends(w.timings, Set(w, g, now).timings) && Extends(w.registryAt, Set(w, g, now).registryAt)
    ensures forall c :: ChangedAt(w, c) <= ChangedAt(Set(w, g, now), c)
  {
    var n := Set(w, g, now);
    match g {
      case KeyRegistryAt(_) => assert w.epoch + 1 !in w.registryAt;
      case RouteTiming(c, t) => RouteTimingKeeps(w, c, t, now);
      case _ =>
    }
  }

  lemma RouteTimingKeeps(w: Wiring, c: ChainId, t: Timing, now: u64)
    requires WiringInv(w, now) && TimingOk(t)
    ensures var n := Set(w, RouteTiming(c, t), now); WiringInv(n, now) && Extends(w.timings, n.timings)
  {
    var n := Set(w, RouteTiming(c, t), now);
    assert (c, VersionOf(w, c) + 1) !in w.timings;
    forall k | k in n.timings ensures 1 <= k.1 <= VersionOf(n, k.0) && TimingOk(n.timings[k]) {
      if k != (c, VersionOf(w, c) + 1) {
        assert k in w.timings;
      }
    }
  }

  lemma StepWiring(s: State, act: Action, x: Answers, now: u64)
    requires WiringInv(s.wiring, now)
    ensures var w, n := s.wiring, Step(s, act, x, now).wiring;
            && WiringInv(n, now)
            && Extends(w.timings, n.timings) && Extends(w.registryAt, n.registryAt)
            && (forall c :: ChangedAt(w, c) <= ChangedAt(n, c))
  {
    if act.Admin? && Accepted(s, act, x, now) {
      SetKeeps(s.wiring, act.setting, now);
    }
  }

  /** The order a call is about. */
  predicate Names(act: Action, o: Order) {
    match act
    case LockForOrder(p, _) => p == o
    case Unlock(p, _) => p == o
    case ClaimCancel(p) => p == o
    case FinalizeCancel(p) => p == o
    case Dispute(p, _) => p == o
    case FinalizeDispute(p) => p == o
    case CancelNeverLocked(p) => p == o
    case RepinOrder(p) => p == o
    case PresentSettled(p) => p == o
    case RecordSettled(p) => p == o
    case _ => false
  }

  lemma OtherRow(s: State, act: Action, x: Answers, now: u64, o: Order)
    requires !Names(act, o)
    ensures RecordOf(Step(s, act, x, now).book, o) == RecordOf(s.book, o)
    ensures o in Step(s, act, x, now).book.claims <==> o in s.book.claims
    ensures o in s.book.claims ==> Step(s, act, x, now).book.claims[o] == s.book.claims[o]
  {
  }

  /** What the order's own calls leave of its lock: its stamps for good, its pin unless re-pinned. */
  predicate SameLock(was: OrderRecord, r: OrderRecord) {
    && r.lockedAt == was.lockedAt && r.registryEpoch == was.registryEpoch
    && r.timingVersion == was.timingVersion && r.anchorDelay == was.anchorDelay
    && (r.pinnedSlot == was.pinnedSlot || r.repinned) && (was.repinned ==> r.repinned)
  }

  lemma OwnRow(s: State, act: Action, x: Answers, now: u64, o: Order)
    requires Names(act, o) && Accepted(s, act, x, now) && !act.LockForOrder?
    ensures var was, r := RecordOf(s.book, o), RecordOf(Step(s, act, x, now).book, o);
            && SameLock(was, r) && (Terminal(was.status) <==> act.RecordSettled?)
            && (was.status.Absent? ==> r.status.Cancelled?) && (act.RecordSettled? ==> r == was)
            && !r.status.Absent? && (Live(was.status) ==> Live(r.status) || Terminal(r.status))
  {
  }

  /** What a call does to one order's row: a lock opens it, its own calls move it, nothing else does,
      and once it has ended nothing does. */
  lemma RowAfter(s: State, act: Action, x: Answers, now: u64, o: Order)
    ensures var was, r := RecordOf(s.book, o), RecordOf(Step(s, act, x, now).book, o);
            && (was.status.Absent? ==>
                  r == was || r.status.Cancelled?
                  || (act.LockForOrder? && act.order == o && CanLock(s, o, x, now)
                      && r == LockRecord(s, o, act.slot, x, now)))
            && (!was.status.Absent? ==> SameLock(was, r) && !r.status.Absent?)
            && (Terminal(was.status) ==> r == was)
            && (Live(was.status) ==> Live(r.status) || Terminal(r.status))
  {
    if !Names(act, o) {
      OtherRow(s, act, x, now, o);
    } else if Accepted(s, act, x, now) && !act.LockForOrder? {
      OwnRow(s, act, x, now, o);
    }
  }

  lemma StampKept(s: State, act: Action, x: Answers, now: u64, o: Order)
    requires Inv(s, now) && Live(StatusOf(Step(s, act, x, now).book, o))
    ensures StampInv(Step(s, act, x, now).wiring, o, RecordOf(Step(s, act, x, now).book, o), now)
  {
    RowAfter(s, act, x, now, o);
    StepWiring(s, act, x, now);
    if Live(StatusOf(s.book, o)) {
      assert StampInv(s.wiring, o, s.book.orders[o], now);
    } else {
      assert act.LockForOrder? && CanLock(s, o, x, now);
    }
  }

  lemma ClaimOpened(s: State, x: Answers, now: u64, o: Order)
    requires Accepted(s, ClaimCancel(o), x, now)
    ensures ClaimInv(Step(s, ClaimCancel(o), x, now), o)
  {
  }

  lemma ClaimKept(s: State, act: Action, x: Answers, now: u64, o: Order)
    requires EscrowBook.Inv(s.book) && Inv(s, now) && o in Step(s, act, x, now).book.claims
    ensures ClaimInv(Step(s, act, x, now), o)
  {
    if act == ClaimCancel(o) && Accepted(s, act, x, now) {
      ClaimOpened(s, x, now, o);
    } else {
      OldClaim(s, act, x, now, o);
      assert StampInv(s.wiring, o, s.book.orders[o], now) && ClaimInv(s, o);
      RowAfter(s, act, x, now, o);
      StepWiring(s, act, x, now);
    }
  }

  lemma OldClaim(s: State, act: Action, x: Answers, now: u64, o: Order)
    requires o in Step(s, act, x, now).book.claims && !(act == ClaimCancel(o) && Accepted(s, act, x, now))
    ensures o in s.book.claims && Step(s, act, x, now).book.claims[o] == s.book.claims[o]
  {
    if !Names(act, o) {
      OtherRow(s, act, x, now, o);
    }
  }

  lemma DisputedHasModule(s: State, act: Action, x: Answers, now: u64, o: Order)
    requires Inv(s, now) && StatusOf(Step(s, act, x, now).book, o).Disputed?
    ensures o in Step(s, act, x, now).modules
  {
    if !Names(act, o) {
      OtherRow(s, act, x, now, o);
    }
  }

  /** Every call keeps it. */
  lemma StepInv(s: State, act: Action, x: Answers, now: u64)
    requires EscrowBook.Inv(s.book) && Inv(s, now)
    ensures Inv(Step(s, act, x, now), now)
  {
    var n := Step(s, act, x, now);
    StepWiring(s, act, x, now);
    forall o | o in n.book.orders && Live(n.book.orders[o].status) ensures StampInv(n.wiring, o, n.book.orders[o], now) {
      StampKept(s, act, x, now, o);
    }
    forall o | o in n.book.claims ensures ClaimInv(n, o) {
      ClaimKept(s, act, x, now, o);
    }
    forall o | o in n.book.orders && n.book.orders[o].status.Disputed? ensures o in n.modules {
      DisputedHasModule(s, act, x, now, o);
    }
  }

  // ---- one cutoff, one end ----

  /** Where the order's own window ends, from its signed deadline and its own version's buffer. */
  function EndOf(o: Order, t: Timing): nat {
    SatAdd64(o.deadline, t.buffer)
  }

  /** While an order is live, claimed or not, its window's end and its cutoff are those of the lock. */
  lemma CutoffIsTheLocks(s: State, now: u64, o: Order)
    requires EscrowBook.Inv(s.book) && Inv(s, now) && Live(StatusOf(s.book, o))
    ensures OrderTiming(s.wiring, s.book, o).Some?
    ensures var t := OrderTiming(s.wiring, s.book, o).value;
            && TimingOk(t) && WindowEnd(s.book, o, o.deadline, t.buffer) == EndOf(o, t)
            && Cutoff(s.book, o, t) == SatSub(EndOf(o, t), t.margin)
  {
    assert StampInv(s.wiring, o, s.book.orders[o], now);
    if o in s.book.claims {
      assert ClaimInv(s, o);
    }
  }

  /** No retiming, claim or dispute moves it: the order's clocks after any call that leaves it live are
      its clocks before. */
  lemma ClocksNeverMove(s: State, act: Action, x: Answers, now: u64, o: Order)
    requires EscrowBook.Inv(s.book) && Inv(s, now) && Live(StatusOf(s.book, o))
    requires Live(StatusOf(Step(s, act, x, now).book, o))
    ensures OrderTiming(Step(s, act, x, now).wiring, Step(s, act, x, now).book, o) == OrderTiming(s.wiring, s.book, o)
  {
    RowAfter(s, act, x, now, o);
    StepWiring(s, act, x, now);
    assert StampInv(s.wiring, o, s.book.orders[o], now);
  }

  /** A co-signed payout goes through only strictly before the cutoff, and a clock release only at or
      after the window's end, which lies at least the margin later. */
  lemma PayoutAndReleaseExclude(s: State, now: u64, o: Order, n: Id, x: Answers)
    requires EscrowBook.Inv(s.book) && Inv(s, now) && Live(StatusOf(s.book, o))
    ensures var t := OrderTiming(s.wiring, s.book, o).value;
            && (CanUnlock(s, o, n, x, now) ==> now < SatSub(EndOf(o, t), t.margin))
            && (CanFinalizeCancel(s, o, x, now) ==> EndOf(o, t) <= now)
            && !(CanUnlock(s, o, n, x, now) && CanFinalizeCancel(s, o, x, now))
  {
    CutoffIsTheLocks(s, now, o);
    if CanFinalizeCancel(s, o, x, now) {
      CancelEndIsAfterWindow(s, o, x);
    }
  }

  lemma CancelEndIsAfterWindow(s: State, o: Order, x: Answers)
    requires o.adId in s.book.ads && OrderTiming(s.wiring, s.book, o).Some?
    ensures var t := OrderTiming(s.wiring, s.book, o).value;
            var end := CancelEnd(s, s.book.ads[o.adId].maker, o, t, x);
            end.Some? ==> WindowEnd(s.book, o, o.deadline, t.buffer) <= end.value
  {
  }
}
