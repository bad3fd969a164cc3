/** Who may make the escrow's calls, when, and on what terms, said of its rows and the answers it was
    given: what a lock was vouched for by, what stops a payout, which clock a release waits for. */
module EscrowRules {
  import opened Numbers
  import opened Wrappers
  import opened Orders
  import opened Escrow
  import B = EscrowBook
  import M = EscrowMoney
  import C = EscrowClocks
  import T = EscrowTheorems

  // ---- taking a lock ----

  /** An accepted lock is of an absent order on an open ad of an unpaused escrow, within its free
      liquidity; the ad's signer is usable in the wired registry and is the maker or approved by it; the
      slot to be pinned is usable; the deadline leaves the chain's window and no more than 7 days; the
      fees are those in force; and the chain's verifier reads no other registry. */
  lemma LockIsVouched(s: State, o: Order, slot: u32, x: Answers, now: u64)
    requires Accepted(s, LockForOrder(o, slot), x, now)
    ensures o in s.book.orders ==> s.book.orders[o].status == Absent
    ensures o.adId in s.book.ads
    ensures var ad := s.book.ads[o.adId];
            && ad.open && !s.wiring.paused && Amount(o) <= ad.balance - ad.locked
            && s.wiring.registry.Some? && x.signerUsable && x.slotUsable
            && o.adSettlementSigner == ad.settlementSigner != 0
            && (o.adSettlementSigner == ad.maker.id || x.makerApproved)
            && (x.verifierRegistry.Some? && o.orderChainId in s.wiring.verifiers ==> x.verifierRegistry == s.wiring.registry)
    ensures o.lpFeeBps == s.wiring.fees.lpBps && o.protocolFeeBps == s.wiring.fees.protocolBps
    ensures o.deadline <= now + 604_800 && x.decimals == o.adDecimals
    ensures var k := (o.orderChainId, if o.orderChainId in s.wiring.timingVersion then s.wiring.timingVersion[o.orderChainId] else 0);
            k in s.wiring.timings && now + s.wiring.timings[k].minWindow <= o.deadline
    ensures o.orderChainId in s.wiring.chains && s.wiring.chains[o.orderChainId] == o.srcOrderPortal
    ensures (o.adChainToken, o.orderChainId) in s.wiring.routes
         && s.wiring.routes[(o.adChainToken, o.orderChainId)] == o.orderChainToken
  {
  }

  /** What a lock leaves: the amount reserved and nothing paid, the order open with the second, the clock
      version, the registry and the anchor delay of its lock and its slot pinned, its signer counted. */
  lemma LockStamps(s: State, o: Order, slot: u32, x: Answers, now: u64)
    requires T.Inv(s, now) && Accepted(s, LockForOrder(o, slot), x, now)
    ensures o.adId in s.book.ads && s.wiring.registry.Some?
    ensures var n, was := Step(s, LockForOrder(o, slot), x, now), s.book.ads[o.adId];
            && n.book.ads == s.book.ads[o.adId := was.(locked := was.locked + Amount(o))]
            && n.money == s.money && n.book.log == s.book.log + [Leaf(o, OrderLeaf)]
            && Get(n.book.inFlight, o.adSettlementSigner) == Get(s.book.inFlight, o.adSettlementSigner) + 1
            && o in n.book.orders
            && var r := n.book.orders[o];
            && r.status == Open && r.lockedAt == now && r.pinnedSlot == slot && !r.repinned
            && r.registryEpoch as nat in s.wiring.registryAt
            && s.wiring.registryAt[r.registryEpoch as nat] == s.wiring.registry.value
            && r.timingVersion == s.wiring.timingVersion[o.orderChainId]
            && r.anchorDelay == (if s.wiring.anchor.None? then 0 else Min(x.anchorDelay.value, U32_MAX))
  {
    LockLeaves(s, o, slot, x, now);
    B.InFlightCountsLiveOrders(s.book, o.adSettlementSigner);
  }

  lemma LockLeaves(s: State, o: Order, slot: u32, x: Answers, now: u64)
    requires CanLock(s, o, x, now)
    ensures var n := Step(s, LockForOrder(o, slot), x, now);
            n.book == Locked(s.book, o, LockRecord(s, o, slot, x, now)) && n.money == s.money
  {
  }

  // ---- the pause ----

  /** The pause lets no new money or lock in: no ad is created or funded and no order locked. */
  lemma PauseStopsEntry(s: State, act: Action, x: Answers, now: u64)
    requires s.wiring.paused && (act.CreateAd? || act.FundAd? || act.LockForOrder?)
    ensures !Accepted(s, act, x, now)
  {
  }

  /** And it stops nothing else: every way out is open under it exactly as without it. */
  lemma PauseStopsNoExit(s: State, act: Action, x: Answers, now: u64, paused: bool)
    requires !act.CreateAd? && !act.FundAd? && !act.LockForOrder?
    ensures Accepted(s.(wiring := s.wiring.(paused := paused)), act, x, now) <==> Accepted(s, act, x, now)
  {
    var p := s.(wiring := s.wiring.(paused := paused));
    match act {
      case Unlock(o, n) => PauseAndProof(s, o, n, x, now, paused);
      case PresentSettled(o) => PauseAndProof(s, o, 0, x, now, paused);
      case FinalizeCancel(o) => PauseAndClocks(s, o, x, now, paused);
      case FinalizeDispute(o) => PauseAndClocks(s, o, x, now, paused);
      case Admin(g) => PauseAndAdmin(s.wiring, g, paused);
      case _ =>
    }
  }

  lemma PauseAndAdmin(w: Wiring, g: Setting, paused: bool)
    ensures SettingOk(w.(paused := paused), g) <==> SettingOk(w, g)
  {
  }

  lemma PauseAndProof(s: State, o: Order, nullifier: Id, x: Answers, now: u64, paused: bool)
    ensures var p := s.(wiring := s.wiring.(paused := paused));
            && (CanUnlock(p, o, nullifier, x, now) <==> CanUnlock(s, o, nullifier, x, now))
            && (CanPresent(p, o, x) <==> CanPresent(s, o, x))
  {
    var p := s.(wiring := s.wiring.(paused := paused));
    assert PayoutFits(p, o, false, x) <==> PayoutFits(s, o, false, x);
  }

  lemma PauseAndClocks(s: State, o: Order, x: Answers, now: u64, paused: bool)
    ensures var p := s.(wiring := s.wiring.(paused := paused));
            && (CanFinalizeCancel(p, o, x, now) <==> CanFinalizeCancel(s, o, x, now))
            && (CanFinalizeDispute(p, o, x, now) <==> CanFinalizeDispute(s, o, x, now))
  {
    var p := s.(wiring := s.wiring.(paused := paused));
    assert PayoutFits(p, o, true, x) <==> PayoutFits(s, o, true, x);
    if o.adId in s.book.ads {
      PauseAndDenial(s, s.book.ads[o.adId].maker, o, x, paused);
    }
  }

  lemma PauseAndDenial(s: State, maker: Address, o: Order, x: Answers, paused: bool)
    ensures var p := s.(wiring := s.wiring.(paused := paused));
            && (forall t :: CancelEnd(p, maker, o, t, x) == CancelEnd(s, maker, o, t, x))
            && (forall outcome :: DisputeEnd(p, maker, o, outcome, x) == DisputeEnd(s, maker, o, outcome, x))
  {
  }

  // ---- the maker's halt ----

  predicate Halted(s: State, maker: Address) {
    maker in s.halts && s.halts[maker].halted
  }

  /** No accepted resume of this maker. */
  predicate Unresumed(calls: seq<T.Call>, maker: Address) {
    forall i :: 0 <= i < |calls| ==> calls[i].act != ResumeSettlement(maker)
  }

  lemma HaltStays(s: State, act: Action, x: Answers, now: u64, maker: Address)
    requires (Halted(s, maker) || (act == HaltSettlement(maker))) && act != ResumeSettlement(maker)
    ensures Halted(Step(s, act, x, now), maker)
  {
  }

  /** A maker's halt stops every co-signed payout of its orders, old and new, until it resumes. */
  lemma {:induction false} HaltStopsPayouts(
    s: State, calls: seq<T.Call>, maker: Address, o: Order, nullifier: Id, x: Answers, now: u64)
    requires Halted(s, maker) && Unresumed(calls, maker)
    ensures var n := T.Run(s, calls);
            Halted(n, maker) && (o.adId in n.book.ads && n.book.ads[o.adId].maker == maker ==>
                                   !Accepted(n, Unlock(o, nullifier), x, now))
    decreases calls
  {
    if calls != [] {
      var c := calls[0];
      HaltStays(s, c.act, c.x, c.now, maker);
      HaltStopsPayouts(Step(s, c.act, c.x, c.now), calls[1..], maker, o, nullifier, x, now);
    }
  }

  // ---- the clocks, to the second ----

  /** The maker side has refused the co-signed payout of an order at some moment since its lock: it was
      re-pinned, the maker's halt is on or was lifted since, its chain's verifier is missing or was
      changed in a later second, or reads another registry, or its pinned slot stopped by `until`. */
  predicate LeverPulled(s: State, o: Order, until: nat, x: Answers)
    requires o in s.book.orders && o.adId in s.book.ads
    requires s.book.orders[o].registryEpoch as nat in s.wiring.registryAt
  {
    var r, maker := s.book.orders[o], s.book.ads[o.adId].maker;
    || r.repinned
    || (maker in s.halts && (s.halts[maker].halted || r.lockedAt <= s.halts[maker].lastResumedAt))
    || o.orderChainId !in s.wiring.verifiers
    || (o.orderChainId in s.wiring.verifierChangedAt && r.lockedAt < s.wiring.verifierChangedAt[o.orderChainId])
    || (x.verifierRegistry.Some? && x.verifierRegistry.value != s.wiring.registryAt[r.registryEpoch as nat])
    || 0 < x.expiredAt <= until
  }

  /** How long the evidence may still take: the longer of the anchor's delay at the lock and now, and a
      buffer to present it in. Nothing is known of it while a wired anchor cannot be read. */
  function Wait(s: State, o: Order, t: Timing, x: Answers): Option<nat>
    requires o in s.book.orders
  {
    if s.wiring.anchor.None? then Some(s.book.orders[o].anchorDelay + t.buffer)
    else if x.anchorDelay.None? then None
    else Some(Max(x.anchorDelay.value, s.book.orders[o].anchorDelay) + t.buffer)
  }

  /** What a live order's clocks are read from. */
  lemma LiveRows(s: State, now: u64, o: Order)
    requires T.Inv(s, now) && Live(StatusOf(s.book, o))
    ensures o in s.book.orders && o.adId in s.book.ads
    ensures s.book.orders[o].registryEpoch as nat in s.wiring.registryAt
    ensures (o.orderChainId, s.book.orders[o].timingVersion as nat) in s.wiring.timings
  {
    assert C.StampInv(s.wiring, o, s.book.orders[o], now);
    B.LiveIsReserved(s.book, o);
  }

  lemma DeniedIsLevered(s: State, now: u64, o: Order, until: nat, x: Answers)
    requires T.Inv(s, now) && Live(StatusOf(s.book, o))
    ensures o in s.book.orders && o.adId in s.book.ads
    ensures s.book.orders[o].registryEpoch as nat in s.wiring.registryAt
    ensures Denied(s, s.book.ads[o.adId].maker, o, until, x) <==> LeverPulled(s, o, until, x)
  {
    LiveRows(s, now, o);
    assert C.WiringInv(s.wiring, now);
  }

  lemma WaitIsGrace(s: State, o: Order, t: Timing, x: Answers)
    requires o in s.book.orders
    ensures Grace(s, o, t.buffer, x).Some? <==> Wait(s, o, t, x).Some?
    ensures Wait(s, o, t, x).Some? ==> Grace(s, o, t.buffer, x).value == Min(Wait(s, o, t, x).value, U64_MAX)
  {
  }

  /** From `end` on, or, with a lever pulled by `until`, from the wait after it on; never, while that
      cannot be read. */
  function ReleaseTime(s: State, o: Order, t: Timing, end: nat, until: nat, x: Answers): Option<nat>
    requires o in s.book.orders && o.adId in s.book.ads
    requires s.book.orders[o].registryEpoch as nat in s.wiring.registryAt
  {
    if !LeverPulled(s, o, until, x) then Some(end)
    else if Wait(s, o, t, x).None? then None
    else Some(Min(end + Wait(s, o, t, x).value, U64_MAX))
  }

  lemma CancelEndIs(s: State, o: Order, t: Timing, x: Answers, now: u64)
    requires T.Inv(s, now) && StatusOf(s.book, o).Claimed? && OrderTiming(s.wiring, s.book, o) == Some(t)
    ensures o in s.book.orders && o.adId in s.book.ads
    ensures s.book.orders[o].registryEpoch as nat in s.wiring.registryAt
    ensures var end := Min(o.deadline + t.buffer, U64_MAX);
            CancelEnd(s, s.book.ads[o.adId].maker, o, t, x) == ReleaseTime(s, o, t, end, Max(end - t.margin, 0), x)
  {
    LiveRows(s, now, o);
    C.CutoffIsTheLocks(s, now, o);
    DeniedIsLevered(s, now, o, Cutoff(s.book, o, t), x);
    WaitIsGrace(s, o, t, x);
  }

  /** A cancel, to the second. A claimed order's lock goes back from the end of its own window on, the
      deadline and a buffer of its lock's clocks; if a lever was pulled by its cutoff, from the wait after
      that on. */
  lemma CancelsExactlyWhen(s: State, o: Order, t: Timing, x: Answers, now: u64)
    requires T.Inv(s, now) && o in s.book.orders && s.book.orders[o].status == Status.Claimed
    requires (o.orderChainId, s.book.orders[o].timingVersion as nat) in s.wiring.timings
    requires t == s.wiring.timings[(o.orderChainId, s.book.orders[o].timingVersion as nat)]
    ensures o.adId in s.book.ads && s.book.orders[o].registryEpoch as nat in s.wiring.registryAt
    ensures var end := Min(o.deadline + t.buffer, U64_MAX);
            var from := ReleaseTime(s, o, t, end, Max(end - t.margin, 0), x);
            Accepted(s, FinalizeCancel(o), x, now) <==> x.appended && from.Some? && from.value <= now
  {
    CancelEndIs(s, o, t, x, now);
    if x.appended {
      T.OnlyTheClock(s, o, t, x, now);
    }
  }

  /** A dispute's end, to the second. From the module's deadline on, and, unless the arbiter ruled against
      the maker, from the wait after that on if a lever was pulled by it. */
  lemma DisputesEndExactlyWhen(s: State, o: Order, t: Timing, x: Answers, now: u64)
    requires T.Inv(s, now) && o in s.book.orders && s.book.orders[o].status == Disputed
    requires (o.orderChainId, s.book.orders[o].timingVersion as nat) in s.wiring.timings
    requires t == s.wiring.timings[(o.orderChainId, s.book.orders[o].timingVersion as nat)]
    requires x.windowOver == (x.challengeDeadline <= now)
    ensures o.adId in s.book.ads && s.book.orders[o].registryEpoch as nat in s.wiring.registryAt
    ensures var end := x.challengeDeadline;
            var from := if x.ruling == MakerForfeit then Some(end as nat) else ReleaseTime(s, o, t, end, end, x);
            Accepted(s, FinalizeDispute(o), x, now)
            <==> x.appended && x.moduleOk && from.Some? && end <= now && from.value <= now
  {
    LiveRows(s, now, o);
    DeniedIsLevered(s, now, o, x.challengeDeadline, x);
    WaitIsGrace(s, o, t, x);
    OnlyItsClock(s, o, x, now);
  }

  lemma OnlyItsClock(s: State, o: Order, x: Answers, now: u64)
    requires T.Inv(s, now) && StatusOf(s.book, o).Disputed? && x.windowOver == (x.challengeDeadline <= now)
    ensures o.adId in s.book.ads
    ensures var end := DisputeEnd(s, s.book.ads[o.adId].maker, o, SettledOutcome(x.ruling), x);
            Accepted(s, FinalizeDispute(o), x, now)
            <==> x.appended && x.moduleOk && x.windowOver && end.Some? && end.value <= now
  {
    B.LiveIsReserved(s.book, o);
    B.NoDoorUnderflows(s.book, o, 0, o.adId);
    T.PayoutNeverTraps(s, o, true, x);
    assert o in s.modules;
  }

  // ---- claims, filings, re-pins ----

  /** A cancel is claimed of an open order from its deadline on, and leaves the clock it always had. */
  lemma ClaimsExactlyWhen(s: State, o: Order, x: Answers, now: u64)
    requires T.Inv(s, now) && o in s.book.orders
    ensures Accepted(s, ClaimCancel(o), x, now) <==> s.book.orders[o].status == Open && o.deadline <= now
    ensures Accepted(s, ClaimCancel(o), x, now) ==>
      Step(s, ClaimCancel(o), x, now).book.orders[o] == s.book.orders[o].(status := Status.Claimed)
  {
    if s.book.orders[o].status == Open {
      LiveRows(s, now, o);
    }
  }

  /** Only the ad's maker and the order's recipient file a dispute, before the order's window is over, on
      a leg not yet ended or disputed; the module wired then keeps it, and the claim is gone. */
  lemma PartiesFile(s: State, o: Order, filer: Address, x: Answers, now: u64)
    requires T.Inv(s, now) && Accepted(s, Dispute(o, filer), x, now)
    ensures o in s.book.orders && o.adId in s.book.ads
    ensures filer == s.book.ads[o.adId].maker || filer == AccountAddress(o.orderRecipient)
    ensures s.book.orders[o].status == Open || s.book.orders[o].status == Status.Claimed
    ensures (o.orderChainId, s.book.orders[o].timingVersion as nat) in s.wiring.timings
    ensures now < o.deadline + s.wiring.timings[(o.orderChainId, s.book.orders[o].timingVersion as nat)].buffer
    ensures s.wiring.disputeManager.Some?
    ensures var n := Step(s, Dispute(o, filer), x, now);
            && n.book.orders == s.book.orders[o := s.book.orders[o].(status := Disputed)]
            && n.modules == s.modules[o := s.wiring.disputeManager.value] && o !in n.book.claims
            && n.book.ads == s.book.ads && n.money == s.money
  {
    LiveRows(s, now, o);
    C.CutoffIsTheLocks(s, now, o);
    DisputeStep(s, o, filer, x, now);
  }

  /** A re-pin moves an open order's pin exactly as its signer consented, from the slot it had to one
      usable now, and marks it for good. */
  lemma RepinsAsConsented(s: State, o: Order, x: Answers, now: u64)
    requires T.Inv(s, now) && Accepted(s, RepinOrder(o), x, now)
    ensures o in s.book.orders && s.book.orders[o].status == Open
    ensures x.repin.0 == s.book.orders[o].pinnedSlot && x.repin.2 != 0 && x.slotUsable && now <= o.deadline
    ensures Step(s, RepinOrder(o), x, now).book
         == s.book.(orders := s.book.orders[o := s.book.orders[o].(pinnedSlot := x.repin.1, repinned := true)])
  {
  }

  /** An order whose deadline passed unlocked can be cancelled, on an anchored proof that it was never
      locked; its row then says so, the leaf is written, and no money or ad moves. */
  lemma NeverLockedCancels(s: State, o: Order, x: Answers, now: u64)
    requires Accepted(s, CancelNeverLocked(o), x, now)
    ensures o in s.book.orders ==> s.book.orders[o].status == Absent
    ensures o.deadline <= now && s.wiring.anchor.Some? && x.anchored && x.proofOk
    ensures var n := Step(s, CancelNeverLocked(o), x, now);
            && o in n.book.orders && n.book.orders[o].status == Cancelled
            && n.book.log == s.book.log + [Leaf(o, CancelLeaf)] && n.book.ads == s.book.ads && n.money == s.money
  {
  }

  /** An ended order, never-locked ones included, is never locked again. */
  lemma {:induction false} EndedNeverLocks(s: State, calls: seq<T.Call>, o: Order, slot: u32, x: Answers, now: u64)
    requires o in s.book.orders
    requires s.book.orders[o].status in {Filled, Cancelled, Resolved}
    ensures var n := T.Run(s, calls);
            o in n.book.orders && n.book.orders[o] == s.book.orders[o] && !Accepted(n, LockForOrder(o, slot), x, now)
    decreases calls
  {
    if calls != [] {
      var c := calls[0];
      C.RowAfter(s, c.act, c.x, c.now, o);
      EndedNeverLocks(Step(s, c.act, c.x, c.now), calls[1..], o, slot, x, now);
    }
  }

  // ---- ads ----

  /** An ad's money comes in as its token delivered it, to the unit, and is what the ad then holds. */
  lemma AdsAreFunded(s: State, act: Action, x: Answers, now: u64)
    requires (act.CreateAd? || act.FundAd?) && Accepted(s, act, x, now)
    ensures act.FundAd? ==> act.id in s.book.ads && s.book.ads[act.id].open
    ensures act.CreateAd? ==> act.id !in s.book.ads
    ensures var n := Step(s, act, x, now);
            && act.id in n.book.ads
            && var ad := n.book.ads[act.id];
            && x.pulled.Some? && (ad.token != NATIVE ==> x.pulled.value == act.amount) && 0 < act.amount
            && ad.balance == act.amount + (if act.FundAd? then s.book.ads[act.id].balance else 0)
            && ad.locked == (if act.FundAd? then s.book.ads[act.id].locked else 0) && ad.open
            && n.book.ads == s.book.ads[act.id := ad]
            && n.money == s.money.(holdings := s.money.holdings[AssetOf(ad.token, s.wNative) :=
                                     Get(s.money.holdings, AssetOf(ad.token, s.wNative)) + act.amount])
            && (act.CreateAd? ==>
                  && ad.maker == act.creator && ad.token == act.token && ad.settlementSigner == act.signer
                  && ad.orderChainId == act.chain && ad.adRecipient == act.recipient
                  && x.signerUsable && (act.signer == act.creator.id || x.makerApproved))
  {
  }

  /** A new settlement signer is usable in the wired registry and the maker's own or approved by it; only
      that field of the ad moves, and no live order's signer. */
  lemma SignersAreVouched(s: State, id: AdId, signer: Account, x: Answers, now: u64)
    requires Accepted(s, SetSettlementSigner(id, signer), x, now)
    ensures id in s.book.ads && s.wiring.registry.Some? && x.signerUsable && signer != 0
    ensures signer == s.book.ads[id].maker.id || x.makerApproved
    ensures Step(s, SetSettlementSigner(id, signer), x, now)
         == s.(book := s.book.(ads := s.book.ads[id := s.book.ads[id].(settlementSigner := signer)]))
  {
  }

  /** A withdrawal takes its amount out of an ad's balance, a close all of it and the ad's openness; the
      lock is untouched, and what leaves the escrow is what left the ad. */
  lemma AdsAreDrained(s: State, act: Action, x: Answers, now: u64)
    requires T.Inv(s, now) && (act.WithdrawFromAd? || act.CloseAd?) && Accepted(s, act, x, now)
    ensures act.id in s.book.ads
    ensures var n, was := Step(s, act, x, now), s.book.ads[act.id];
            var out := if act.CloseAd? then was.balance else act.amount;
            var asset := AssetOf(was.token, s.wNative);
            && 0 <= out <= was.balance - was.locked
            && n.book.ads == s.book.ads[act.id := was.(balance := was.balance - out, open := was.open && !act.CloseAd?)]
            && Get(n.money.holdings, asset) == Get(s.money.holdings, asset) - (if act.to == s.self then 0 else out)
            && n.money.credits == s.money.credits
  {
    assert B.AdInv(s.book.orders, act.id, s.book.ads[act.id]);
  }

  // ---- the admin's settings ----

  /** A setting takes effect where the calls above read it, and only valid ones are accepted: fees up to
      1% each and a protocol fee only with a pool, clocks within their bounds. */
  lemma SettingsTakeEffect(s: State, g: Setting, x: Answers, now: u64)
    ensures Accepted(s, Admin(g), x, now) <==> MayBeSet(s.wiring, g)
    ensures MayBeSet(s.wiring, g) ==> InForce(Step(s, Admin(g), x, now).wiring, g)
  {
  }

  predicate MayBeSet(w: Wiring, g: Setting) {
    match g
    case FeePool(p) => p != 0
    case FeeBps(lp, protocol) => lp <= 100 && protocol <= 100 && (protocol > 0 ==> w.fees.pool.Some?)
    case Chain(_, portal) => portal != 0
    case TokenRoute(a, t, c) => a != 0 && t != 0 && c in w.chains
    case RouteTiming(_, t) =>
      && 1_800 <= t.buffer <= 86_400 && t.margin <= t.buffer / 2 && t.margin <= t.minWindow <= 302_400
      && (t.claimStagger != 0 ==> t.claimStagger < t.minWindow)
    case KeyRegistryAt(_) => w.epoch < U32_MAX
    case _ => true
  }

  /** What a setting says, read back. */
  predicate InForce(w: Wiring, g: Setting) {
    match g
    case Pause(p) => w.paused == p
    case FeePool(p) => w.fees.pool == Some(p)
    case FeeBps(lp, protocol) => w.fees.lpBps == lp && w.fees.protocolBps == protocol
    case Chain(c, portal) => c in w.chains && w.chains[c] == portal
    case RemoveChain(c) => c !in w.chains
    case TokenRoute(a, t, c) => (a, c) in w.routes && w.routes[(a, c)] == t
    case RemoveTokenRoute(a, c) => (a, c) !in w.routes
    case RootVerifier(c, v) => c in w.verifiers && w.verifiers[c] == v
    case UnsetRootVerifier(c) => c !in w.verifiers
    case KeyRegistryAt(r) => w.registry == Some(r)
    case RouteTiming(c, t) =>
      c in w.timingVersion && (c, w.timingVersion[c]) in w.timings && w.timings[(c, w.timingVersion[c])] == t
    case DisputeModule(m) => w.disputeManager == Some(m)
    case RootAnchor(a) => w.anchor == Some(a)
  }
}
