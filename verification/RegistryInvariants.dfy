/** What every reachable registry state keeps, and what it means for keys, dates and approvals. */
module RegistryInvariants {
  import opened Numbers
  import opened Wrappers
  import opened Registry

  predicate Distinct(ids: seq<SlotId>) {
    forall i, j :: 0 <= i < j < |ids| ==> ids[i] != ids[j]
  }

  /** Live ids: distinct, at most five, below the next id, and exactly the stored slots. */
  ghost predicate LiveInv(k: Keys) {
    && |k.live| <= MAX_ACTIVE_SLOTS && Distinct(k.live)
    && (forall id :: id in k.live ==> id < k.nextSlotId)
    && (forall id :: id in k.slots <==> id in k.live)
  }

  /** Commitments: a stored slot's key is used up and its row names that slot; a row, which
      outlives its slot, names no other key's slot. */
  ghost predicate KeyInv(k: Keys) {
    && k.used == k.keySlots.Keys
    && (forall id :: id in k.slots ==>
          k.slots[id].commitment in k.keySlots && k.keySlots[k.slots[id].commitment] == id)
    && (forall c :: c in k.keySlots ==> k.keySlots[c] < k.nextSlotId)
    && (forall c :: c in k.keySlots && k.keySlots[c] in k.slots ==> k.slots[k.keySlots[c]].commitment == c)
  }

  /** Dates: the recorded stop is the named date, or a moment already past after it. */
  ghost predicate DateInv(k: Keys, now: u64) {
    && (forall id :: id in k.expired ==> id in k.slots && k.slots[id].validUntil != 0)
    && (forall id :: id in k.slots && k.slots[id].validUntil != 0 ==>
          id in k.expired
          && (k.expired[id] == k.slots[id].validUntil || k.slots[id].validUntil < k.expired[id] <= now))
  }

  ghost predicate ApprovalInv(k: Keys) {
    forall m :: m in k.approvals ==> k.approvals[m].generation <= k.generation
  }

  ghost predicate KeysInv(k: Keys, now: u64) {
    LiveInv(k) && KeyInv(k) && DateInv(k, now) && ApprovalInv(k)
  }

  ghost predicate Inv(s: State, now: u64) {
    forall a :: a in s.accounts ==> KeysInv(s.accounts[a], now)
  }

  lemma EmptyInv(now: u64)
    ensures Inv(EMPTY, now) && KeysInv(FRESH, now)
  {
  }

  lemma {:induction false} KeptDistinct(k: Keys, live: seq<SlotId>, now: u64, atOnce: bool)
    requires Distinct(live)
    ensures Distinct(Kept(k, live, now, atOnce)) && |Kept(k, live, now, atOnce)| <= |live|
  {
    if live != [] {
      KeptDistinct(k, live[1..], now, atOnce);
      assert live[0] !in live[1..];
    }
  }

  lemma WithLiveInv(k: Keys, live: seq<SlotId>, now: u64)
    requires KeysInv(k, now) && Distinct(live) && |live| <= |k.live|
    requires forall id :: id in live ==> id in k.live
    ensures KeysInv(WithLive(k, live), now)
  {
  }

  lemma RoomForInv(k: Keys, now: u64, atOnce: bool)
    requires KeysInv(k, now)
    ensures KeysInv(RoomFor(k, now, atOnce), now)
  {
    KeptDistinct(k, k.live, now, atOnce);
    WithLiveInv(k, Kept(k, k.live, now, atOnce), now);
  }

  lemma AddedInv(k: Keys, c: Commitment, now: u64, atOnce: bool)
    requires KeysInv(k, now) && CanAdd(k, c, now, atOnce)
    ensures KeysInv(Added(k, c, now, atOnce), now)
  {
    RoomForInv(k, now, atOnce);
    NewSlotInv(RoomFor(k, now, atOnce), c, now);
  }

  lemma NewSlotInv(r: Keys, c: Commitment, now: u64)
    requires KeysInv(r, now) && |r.live| < MAX_ACTIVE_SLOTS && c !in r.used && r.nextSlotId < U32_MAX
    ensures KeysInv(NewSlot(r, c, now), now)
  {
    var n := NewSlot(r, c, now);
    DistinctSnoc(r.live, r.nextSlotId);
    assert forall j :: j in n.live <==> j in r.live || j == r.nextSlotId;
  }

  lemma DistinctSnoc(ids: seq<SlotId>, id: SlotId)
    requires Distinct(ids) && id !in ids
    ensures Distinct(ids + [id])
  {
  }

  lemma ShortenedInv(k: Keys, id: SlotId, validUntil: u64, now: u64)
    requires KeysInv(k, now) && id in k.slots
    requires validUntil != 0 && (k.slots[id].validUntil == 0 || validUntil < k.slots[id].validUntil)
    ensures KeysInv(Shortened(k, id, validUntil, now), now)
  {
  }

  /** Every entry point keeps the invariant. */
  lemma StepInv(s: State, act: Action, now: u64, open: set<Address>)
    requires Inv(s, now)
    ensures Inv(Step(s, act, now, open), now)
  {
    if Accepted(s, act, now, open) && OnAccount(act) {
      KeysAfterInv(s, act, now, open);
    }
  }

  lemma KeysAfterInv(s: State, act: Action, now: u64, open: set<Address>)
    requires Inv(s, now) && Accepted(s, act, now, open)
    requires OnAccount(act)
    ensures KeysInv(KeysAfter(s, act, now, open), now)
  {
    EmptyInv(now);
    var k := KeysOf(s, act.account);
    match act {
      case Register(_, c, n, _, _) => AddedInv(k, c, now, AtOnce(s, open));
      case RegisterByProof(_, c, _, _) => AddedInv(k, c, now, AtOnce(s, open));
      case SetValidUntil(_, c, vu, _) => ShortenedInv(k, k.keySlots[c], vu, now);
      case Revoke(_, _, _) => WithLiveInv(k, [], now);
      case _ =>
    }
  }

  /** Time passing keeps it. */
  lemma ClockInv(s: State, now: u64, later: u64)
    requires Inv(s, now) && now <= later
    ensures Inv(s, later)
  {
  }

  // ---- what it means ----

  /** `expired_at` is the true stop time: a stored slot is usable now exactly while its recorded
      stop lies ahead, and while it is usable the two dates are one. */
  lemma StopTime(k: Keys, id: SlotId, now: u64)
    requires KeysInv(k, now) && id in k.slots
    ensures SlotUsable(k, id, now) <==> ExpiredAt(k, id) == 0 || now < ExpiredAt(k, id)
    ensures SlotUsable(k, id, now) ==> ExpiredAt(k, id) == k.slots[id].validUntil
  {
  }

  /** What a step does to one account: the rows of an accepted call on it, else nothing. */
  lemma StepOn(s: State, act: Action, now: u64, open: set<Address>, a: Account)
    ensures KeysOf(Step(s, act, now, open), a)
         == if Accepted(s, act, now, open) && OnAccount(act) && act.account == a then KeysAfter(s, act, now, open)
            else KeysOf(s, a)
  {
  }

  /** A recorded stop never rises and is never erased while the slot is stored. */
  lemma StopNeverRises(s: State, act: Action, now: u64, open: set<Address>, a: Account, id: SlotId)
    requires Inv(s, now)
    requires ExpiredAt(KeysOf(s, a), id) != 0 && id in KeysOf(Step(s, act, now, open), a).slots
    ensures 0 < ExpiredAt(KeysOf(Step(s, act, now, open), a), id) <= ExpiredAt(KeysOf(s, a), id)
  {
    EmptyInv(now);
    StepOn(s, act, now, open, a);
    if Accepted(s, act, now, open) && OnAccount(act) && act.account == a {
      var k := KeysOf(s, a);
      match act {
        case Register(_, c, _, _, _) => AddedKeepsOrDrops(k, c, now, AtOnce(s, open), id);
        case RegisterByProof(_, c, _, _) => AddedKeepsOrDrops(k, c, now, AtOnce(s, open), id);
        case SetValidUntil(_, c, vu, _) => ShortenedStops(k, k.keySlots[c], vu, now, id);
        case _ =>
      }
    }
  }

  lemma ShortenedStops(k: Keys, target: SlotId, vu: u64, now: u64, id: SlotId)
    requires KeysInv(k, now) && target in k.slots && id in k.slots && ExpiredAt(k, id) != 0
    requires vu != 0 && (k.slots[target].validUntil == 0 || vu < k.slots[target].validUntil)
    ensures 0 < ExpiredAt(Shortened(k, target, vu, now), id) <= ExpiredAt(k, id)
  {
  }

  /** A stop written by a step lies at or after the moment it is written. */
  lemma StopIsNotBackdated(s: State, act: Action, now: u64, open: set<Address>, a: Account, id: SlotId)
    requires Inv(s, now)
    requires id in KeysOf(s, a).slots && id in KeysOf(Step(s, act, now, open), a).slots
    ensures ExpiredAt(KeysOf(Step(s, act, now, open), a), id) == ExpiredAt(KeysOf(s, a), id)
         || now <= ExpiredAt(KeysOf(Step(s, act, now, open), a), id)
  {
    EmptyInv(now);
    StepOn(s, act, now, open, a);
    if Accepted(s, act, now, open) && OnAccount(act) && act.account == a {
      var k := KeysOf(s, a);
      match act {
        case Register(_, c, _, _, _) => AddedKeepsOrDrops(k, c, now, AtOnce(s, open), id);
        case RegisterByProof(_, c, _, _) => AddedKeepsOrDrops(k, c, now, AtOnce(s, open), id);
        case SetValidUntil(_, c, vu, _) => ShortenedIsNotBackdated(k, k.keySlots[c], vu, now, id);
        case _ =>
      }
    }
  }

  lemma ShortenedIsNotBackdated(k: Keys, target: SlotId, vu: u64, now: u64, id: SlotId)
    requires KeysInv(k, now) && target in k.slots && id in k.slots && vu != 0
    requires k.slots[target].validUntil == 0 || vu < k.slots[target].validUntil
    ensures ExpiredAt(Shortened(k, target, vu, now), id) == ExpiredAt(k, id)
         || now <= ExpiredAt(Shortened(k, target, vu, now), id)
  {
  }

  /** Adding a slot leaves every other slot as it was, or drops it because it is prunable. */
  lemma AddedKeepsOrDrops(k: Keys, c: Commitment, now: u64, atOnce: bool, id: SlotId)
    requires KeysInv(k, now) && id in k.slots && k.nextSlotId < U32_MAX
    ensures var n := Added(k, c, now, atOnce);
            (id in n.slots && n.slots[id] == k.slots[id] && ExpiredAt(n, id) == ExpiredAt(k, id))
            || (id !in n.slots && Prunable(k, id, now, atOnce))
  {
    assert id in k.live && id < k.nextSlotId;
  }

  /** A slot leaves the store only by its account's revocation, or because it is strictly past
      its stop. */
  lemma DroppedIsPast(s: State, act: Action, now: u64, open: set<Address>, a: Account, id: SlotId)
    requires Inv(s, now)
    requires id in KeysOf(s, a).slots && id !in KeysOf(Step(s, act, now, open), a).slots
    ensures (act.Revoke? && act.account == a)
         || (ExpiredAt(KeysOf(s, a), id) != 0 && now > ExpiredAt(KeysOf(s, a), id))
  {
    EmptyInv(now);
    var k := KeysOf(s, a);
    if act.Register? || act.RegisterByProof? {
      assert Accepted(s, act, now, open);
      AddedKeepsOrDrops(k, act.commitment, now, AtOnce(s, open), id);
    } else if !act.Revoke? {
      OnlyAddOrRevokeDrop(s, act, now, open, a, id);
    }
  }

  lemma OnlyAddOrRevokeDrop(s: State, act: Action, now: u64, open: set<Address>, a: Account, id: SlotId)
    requires id in KeysOf(s, a).slots && !act.Register? && !act.RegisterByProof? && !act.Revoke?
    ensures id in KeysOf(Step(s, act, now, open), a).slots
  {
  }

  /** While an order is open (or no guard can be asked), a stored slot's stop survives every
      step, until the grace period after it is over. */
  lemma StopSurvives(s: State, act: Action, now: u64, open: set<Address>, a: Account, id: SlotId)
    requires Inv(s, now) && ExpiredAt(KeysOf(s, a), id) != 0
    requires !OnAccount(act) || act.account != a || !AtOnce(s, open)
    ensures var before, after := ExpiredAt(KeysOf(s, a), id), ExpiredAt(KeysOf(Step(s, act, now, open), a), id);
            0 < after <= before || now > SatAdd64(before, GRACE_PERIOD)
  {
    EmptyInv(now);
    if id in KeysOf(Step(s, act, now, open), a).slots {
      StopNeverRises(s, act, now, open, a, id);
    } else {
      StepOn(s, act, now, open, a);
      var k := KeysOf(s, a);
      match act {
        case Register(_, c, _, _, _) => AddedKeepsOrDrops(k, c, now, AtOnce(s, open), id);
        case RegisterByProof(_, c, _, _) => AddedKeepsOrDrops(k, c, now, AtOnce(s, open), id);
        case _ =>
      }
    }
  }

  /** A retirement acts on exactly the slot of the key it names and touches no other. */
  lemma RetirementNamesItsKey(s: State, a: Account, c: Commitment, vu: u64, ownerOk: bool, now: u64, open: set<Address>)
    requires Inv(s, now) && CanSetValidUntil(KeysOf(s, a), c, vu, ownerOk)
    ensures var k, n := KeysOf(s, a), KeysOf(Step(s, SetValidUntil(a, c, vu, ownerOk), now, open), a);
            && n.slots.Keys == k.slots.Keys
            && (forall id :: id in k.slots ==> n.slots[id].commitment == k.slots[id].commitment)
            && (forall id :: id in k.slots && k.slots[id].commitment != c ==>
                  n.slots[id] == k.slots[id] && ExpiredAt(n, id) == ExpiredAt(k, id))
            && (forall id :: id in k.slots && k.slots[id].commitment == c ==> n.slots[id].validUntil == vu)
  {
    EmptyInv(now);
    StepOn(s, SetValidUntil(a, c, vu, ownerOk), now, open, a);
    ShortenedTouchesOne(KeysOf(s, a), KeysOf(s, a).keySlots[c], vu, now);
  }

  lemma ShortenedTouchesOne(k: Keys, id: SlotId, vu: u64, now: u64)
    requires id in k.slots
    ensures var n := Shortened(k, id, vu, now);
            n.slots.Keys == k.slots.Keys && n.slots[id] == k.slots[id].(validUntil := vu)
            && (forall j :: j in k.slots && j != id ==>
                  n.slots[j] == k.slots[j] && ExpiredAt(n, j) == ExpiredAt(k, j))
  {
  }

  /** A key's row, once written, is never rewritten, and a used key never enters another slot. */
  lemma KeyRowIsPermanent(s: State, act: Action, now: u64, open: set<Address>, a: Account, c: Commitment)
    requires Inv(s, now) && c in KeysOf(s, a).keySlots
    ensures var n := KeysOf(Step(s, act, now, open), a);
            c in n.keySlots && n.keySlots[c] == KeysOf(s, a).keySlots[c]
  {
    EmptyInv(now);
    StepOn(s, act, now, open, a);
    UsedHasRow(s, now, a, c);
    if Accepted(s, act, now, open) && OnAccount(act) && act.account == a {
      RowKept(s, act, now, open, c);
    }
  }

  lemma RowKept(s: State, act: Action, now: u64, open: set<Address>, c: Commitment)
    requires Accepted(s, act, now, open) && OnAccount(act)
    requires var k := KeysOf(s, act.account); c in k.keySlots && c in k.used
    ensures var n := KeysAfter(s, act, now, open);
            c in n.keySlots && n.keySlots[c] == KeysOf(s, act.account).keySlots[c]
  {
  }

  /** Only an approval of this pair can make the pair approved. */
  lemma ApprovalNeedsApproval(s: State, act: Action, now: u64, open: set<Address>, a: Account, maker: Account)
    requires Inv(s, now) && !IsApprovedMaker(KeysOf(s, a), maker)
    requires !(act.ApproveMaker? && act.account == a && act.maker == maker && act.approved)
    ensures !IsApprovedMaker(KeysOf(Step(s, act, now, open), a), maker)
  {
    EmptyInv(now);
    StepOn(s, act, now, open, a);
  }

  /** A revocation leaves no maker approved. */
  lemma RevokeClearsApprovals(s: State, a: Account, nonce: u64, ownerOk: bool, now: u64, open: set<Address>, maker: Account)
    requires Inv(s, now) && CanRevoke(s, a, nonce, ownerOk, open)
    ensures !IsApprovedMaker(KeysOf(Step(s, Revoke(a, nonce, ownerOk), now, open), a), maker)
  {
    EmptyInv(now);
  }

  // ---- runs ----

  /** One call: its ledger time, its action, and the guards that report an open position. */
  datatype Call = Call(now: u64, act: Action, open: set<Address>)

  /** Ledger time never goes back. */
  predicate Timed(from: u64, calls: seq<Call>)
    decreases calls
  {
    calls == [] || (from <= calls[0].now && Timed(calls[0].now, calls[1..]))
  }

  function EndTime(from: u64, calls: seq<Call>): u64
    decreases calls
  {
    if calls == [] then from else EndTime(calls[0].now, calls[1..])
  }

  function Run(s: State, calls: seq<Call>): State
    decreases calls
  {
    if calls == [] then s else Run(Step(s, calls[0].act, calls[0].now, calls[0].open), calls[1..])
  }

  /** Every run keeps the invariant. */
  lemma {:induction false} RunInv(s: State, from: u64, calls: seq<Call>)
    requires Inv(s, from) && Timed(from, calls)
    ensures Inv(Run(s, calls), EndTime(from, calls))
    decreases calls
  {
    if calls != [] {
      var c := calls[0];
      ClockInv(s, from, c.now);
      StepInv(s, c.act, c.now, c.open);
      RunInv(Step(s, c.act, c.now, c.open), c.now, calls[1..]);
    }
  }

  /** Every state a new registry can reach has the invariant. */
  lemma ReachableInv(from: u64, calls: seq<Call>)
    requires Timed(from, calls)
    ensures Inv(Run(EMPTY, calls), EndTime(from, calls))
  {
    EmptyInv(from);
    RunInv(EMPTY, from, calls);
  }

  lemma UsedHasRow(s: State, now: u64, a: Account, c: Commitment)
    requires Inv(s, now)
    ensures c in KeysOf(s, a).used <==> c in KeysOf(s, a).keySlots
  {
    EmptyInv(now);
  }

  /** Each key enters at most one slot ever: in every later state of a run, a slot that holds a
      key the account used before is the slot that key was first put in. */
  lemma {:induction false} OneSlotPerKey(s: State, from: u64, calls: seq<Call>, a: Account, c: Commitment)
    requires Inv(s, from) && Timed(from, calls) && c in KeysOf(s, a).used
    ensures var n := KeysOf(Run(s, calls), a);
            && c in n.keySlots && n.keySlots[c] == KeysOf(s, a).keySlots[c]
            && (forall id :: id in n.slots && n.slots[id].commitment == c ==> id == KeysOf(s, a).keySlots[c])
    decreases calls
  {
    if calls == [] {
      EmptyInv(from);
    } else {
      var x := calls[0];
      ClockInv(s, from, x.now);
      UsedHasRow(s, x.now, a, c);
      KeyRowIsPermanent(s, x.act, x.now, x.open, a, c);
      StepInv(s, x.act, x.now, x.open);
      UsedHasRow(Step(s, x.act, x.now, x.open), x.now, a, c);
      OneSlotPerKey(Step(s, x.act, x.now, x.open), x.now, calls[1..], a, c);
    }
  }

  predicate Approves(act: Action, a: Account, maker: Account) {
    act.ApproveMaker? && act.account == a && act.maker == maker && act.approved
  }

  /** After a revocation a maker stays unapproved through any run that does not approve it again. */
  lemma {:induction false} UnapprovedUntilApproved(s: State, from: u64, calls: seq<Call>, a: Account, maker: Account)
    requires Inv(s, from) && Timed(from, calls) && !IsApprovedMaker(KeysOf(s, a), maker)
    requires forall i :: 0 <= i < |calls| ==> !Approves(calls[i].act, a, maker)
    ensures !IsApprovedMaker(KeysOf(Run(s, calls), a), maker)
    decreases calls
  {
    if calls != [] {
      var x := calls[0];
      ClockInv(s, from, x.now);
      ApprovalNeedsApproval(s, x.act, x.now, x.open, a, maker);
      StepInv(s, x.act, x.now, x.open);
      UnapprovedUntilApproved(Step(s, x.act, x.now, x.open), x.now, calls[1..], a, maker);
    }
  }
}
