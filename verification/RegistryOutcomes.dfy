/** What the key registry's calls leave, said of its rows: what a registration, a retirement, an approval
    and a revocation do, and that no signature is ever used twice. */
module RegistryOutcomes {
  import opened Numbers
  import opened Wrappers
  import opened Registry
  import opened RegistryInvariants

  // ---- keys ----

  /** A key enters its account in a slot of its own, under an id never used before and with no end, live and
      usable from now on. No other key of the account is touched, but for slots strictly past their stop. */
  predicate Enters(k: Keys, n: Keys, c: Commitment, now: u64) {
    var id := k.nextSlotId;
    && n.nextSlotId == id + 1 && id !in k.slots
    && id in n.slots && n.slots[id] == KeySlot(c, 0, now) && id in n.live
    && n.used == k.used + {c} && c in n.keySlots && n.keySlots[c] == id && SlotUsable(n, id, now)
    && |n.live| <= 5
    && (forall j :: j in n.slots && j != id ==> j in k.slots && n.slots[j] == k.slots[j])
    && (forall j :: j in k.slots && j !in n.slots ==> k.slots[j].validUntil != 0 && k.slots[j].validUntil < now)
    && n.approvals == k.approvals && n.generation == k.generation
  }

  lemma AddedEnters(k: Keys, c: Commitment, now: u64, atOnce: bool)
    requires KeysInv(k, now) && CanAdd(k, c, now, atOnce)
    ensures c !in k.used && Enters(k, Added(k, c, now, atOnce), c, now)
  {
    AddedInv(k, c, now, atOnce);
    var n := Added(k, c, now, atOnce);
    forall j | j in k.slots ensures j in n.slots ==> n.slots[j] == k.slots[j]
                            ensures j !in n.slots ==> k.slots[j].validUntil != 0 && k.slots[j].validUntil < now {
      AddedKeepsOrDrops(k, c, now, atOnce, j);
    }
    RoomKeepsUsed(k, now, atOnce);
  }

  lemma RoomKeepsUsed(k: Keys, now: u64, atOnce: bool)
    ensures var r := RoomFor(k, now, atOnce);
            r.used == k.used && r.keySlots == k.keySlots && r.nextSlotId == k.nextSlotId
            && r.approvals == k.approvals && r.generation == k.generation
  {
  }

  /** A registration is the account's own, checked, of a key it never used, under its next nonce, which is
      then used up, by a deadline no further than 7 days; the registry is not paused. */
  lemma RegistrationEnters(
    s: State, a: Account, c: Commitment, nonce: u64, deadline: u64, checked: bool, now: u64, open: set<Address>)
    requires Inv(s, now) && Accepted(s, Register(a, c, nonce, deadline, checked), now, open)
    ensures !s.paused && checked && now <= deadline <= now + 604_800 && nonce == KeysOf(s, a).nonce
    ensures c !in KeysOf(s, a).used
    ensures var n := KeysOf(Step(s, Register(a, c, nonce, deadline, checked), now, open), a);
            Enters(KeysOf(s, a), n, c, now) && n.nonce == nonce + 1
  {
    EmptyInv(now);
    StepOn(s, Register(a, c, nonce, deadline, checked), now, open, a);
    AddedEnters(KeysOf(s, a), c, now, AtOnce(s, open));
  }

  /** By proof it is the same, with a proof checked from an allowed source while that way is enabled, and no
      nonce. */
  lemma ProofRegistrationEnters(
    s: State, a: Account, c: Commitment, source: Address, checked: bool, now: u64, open: set<Address>)
    requires Inv(s, now) && Accepted(s, RegisterByProof(a, c, source, checked), now, open)
    ensures !s.paused && checked && s.proofReg.Some? && s.proofReg.value.enabled && source in s.proofReg.value.sources
    ensures c !in KeysOf(s, a).used
    ensures var n := KeysOf(Step(s, RegisterByProof(a, c, source, checked), now, open), a);
            Enters(KeysOf(s, a), n, c, now) && n.nonce == KeysOf(s, a).nonce
  {
    EmptyInv(now);
    StepOn(s, RegisterByProof(a, c, source, checked), now, open, a);
    AddedEnters(KeysOf(s, a), c, now, AtOnce(s, open));
  }

  /** A retirement is the owner's, of a stored key, to a date it does not already stop by; from that date, or
      from now if that is past, the key is not usable. */
  lemma RetirementStops(
    s: State, a: Account, c: Commitment, vu: u64, ownerOk: bool, now: u64, open: set<Address>, later: u64)
    requires Inv(s, now) && Accepted(s, SetValidUntil(a, c, vu, ownerOk), now, open)
    ensures ownerOk && vu != 0 && c in KeysOf(s, a).keySlots
    ensures var k, n := KeysOf(s, a), KeysOf(Step(s, SetValidUntil(a, c, vu, ownerOk), now, open), a);
            var id := k.keySlots[c];
            && id in k.slots && k.slots[id].commitment == c
            && (k.slots[id].validUntil == 0 || vu < k.slots[id].validUntil)
            && id in n.slots && n.slots[id] == k.slots[id].(validUntil := vu)
            && (vu <= later ==> !SlotUsable(n, id, later))
            && (later < vu ==> SlotUsable(n, id, later))
            && 0 < ExpiredAt(n, id) <= Max(vu, now)
  {
    EmptyInv(now);
    StepOn(s, SetValidUntil(a, c, vu, ownerOk), now, open, a);
  }

  /** Leaving is the owner's, under its next nonce, and only with nothing stored or no open position reported
      by wired guards. It empties the account: no slot, no live id, every approval void, the nonce used up;
      no key is forgotten, so none comes back. */
  lemma RevocationEmpties(s: State, a: Account, nonce: u64, ownerOk: bool, now: u64, open: set<Address>)
    requires Inv(s, now) && Accepted(s, Revoke(a, nonce, ownerOk), now, open)
    ensures !s.paused && ownerOk && nonce == KeysOf(s, a).nonce
    ensures KeysOf(s, a).live == [] || (s.guards != [] && forall g :: g in s.guards ==> g !in open)
    ensures var k, n := KeysOf(s, a), KeysOf(Step(s, Revoke(a, nonce, ownerOk), now, open), a);
            && n.live == [] && n.slots == map[] && n.nonce == nonce + 1 && n.generation == k.generation + 1
            && n.used == k.used && n.keySlots == k.keySlots && n.nextSlotId == k.nextSlotId
  {
    EmptyInv(now);
    StepOn(s, Revoke(a, nonce, ownerOk), now, open, a);
    var k := KeysOf(s, a);
    assert forall id :: id in k.slots ==> id in k.live;
  }

  // ---- approvals ----

  /** An approval is the owner's, in time, under the pair's own nonce, which is then used up, and not while
      paused; it makes the maker approved, and its withdrawal not. No other maker's standing moves. */
  lemma ApprovalTakesEffect(
    s: State, a: Account, maker: Account, approved: bool, nonce: u64, deadline: u64, ownerOk: bool, now: u64,
    open: set<Address>, other: Account)
    requires Inv(s, now) && Accepted(s, ApproveMaker(a, maker, approved, nonce, deadline, ownerOk), now, open)
    ensures ownerOk && now <= deadline <= now + 604_800 && (approved ==> !s.paused)
    ensures var k := KeysOf(s, a);
            var n := KeysOf(Step(s, ApproveMaker(a, maker, approved, nonce, deadline, ownerOk), now, open), a);
            && nonce == ApprovalOf(k, maker).nonce && ApprovalOf(n, maker).nonce == nonce + 1
            && IsApprovedMaker(n, maker) == approved
            && (other != maker ==> IsApprovedMaker(n, other) == IsApprovedMaker(k, other))
  {
    StepOn(s, ApproveMaker(a, maker, approved, nonce, deadline, ownerOk), now, open, a);
  }

  /** An approval stands until it is withdrawn or the account left. */
  lemma ApprovalStands(s: State, act: Action, now: u64, open: set<Address>, a: Account, maker: Account)
    requires Inv(s, now) && IsApprovedMaker(KeysOf(s, a), maker)
    requires !(act.ApproveMaker? && act.account == a && act.maker == maker && !act.approved)
    requires !(act.Revoke? && act.account == a)
    ensures IsApprovedMaker(KeysOf(Step(s, act, now, open), a), maker)
  {
    StepOn(s, act, now, open, a);
    if Accepted(s, act, now, open) && OnAccount(act) && act.account == a {
      RoomKeepsUsed(KeysOf(s, a), now, AtOnce(s, open));
    }
  }

  /** A re-pin consent is the owner's, under the order's own nonce, and is recorded as given. */
  lemma RepinIsRecorded(
    s: State, a: Account, o: OrderHash, from: u32, to: u32, nonce: u64, ownerOk: bool, now: u64, open: set<Address>)
    requires Accepted(s, ApproveRepin(a, o, from, to, nonce, ownerOk), now, open)
    ensures ownerOk && nonce == RepinOf(KeysOf(s, a), o).nonce
    ensures KeysOf(Step(s, ApproveRepin(a, o, from, to, nonce, ownerOk), now, open), a)
         == KeysOf(s, a).(repins := KeysOf(s, a).repins[o := RepinConsent(from, to, nonce + 1)])
  {
  }

  // ---- no signature twice ----

  /** The account's own signatures: a registration, a revocation, a cancellation. */
  predicate Signs(act: Action, a: Account) {
    (act.Register? || act.Revoke? || act.CancelPending?) && act.account == a
  }

  lemma NonceMoves(s: State, act: Action, now: u64, open: set<Address>, a: Account)
    ensures var before, after := KeysOf(s, a).nonce, KeysOf(Step(s, act, now, open), a).nonce;
            if Signs(act, a) && Accepted(s, act, now, open) then act.nonce == before && after == before + 1
            else after == before
  {
    StepOn(s, act, now, open, a);
    RoomNonce(KeysOf(s, a), now, AtOnce(s, open));
  }

  lemma RoomNonce(k: Keys, now: u64, atOnce: bool)
    ensures RoomFor(k, now, atOnce).nonce == k.nonce && RoomFor(k, now, atOnce).repins == k.repins
  {
  }

  lemma {:induction false} NonceNeverFalls(s: State, calls: seq<Call>, a: Account)
    ensures KeysOf(s, a).nonce <= KeysOf(Run(s, calls), a).nonce
    decreases calls
  {
    if calls != [] {
      NonceMoves(s, calls[0].act, calls[0].now, calls[0].open, a);
      NonceNeverFalls(Step(s, calls[0].act, calls[0].now, calls[0].open), calls[1..], a);
    }
  }

  /** No owner signature is used twice: once a registration, revocation or cancellation under a nonce is
      accepted, none under that nonce ever is again, whatever else is called. A cancelled registration is
      dead for good. */
  lemma NoSignatureTwice(
    s: State, act: Action, now: u64, open: set<Address>, a: Account, calls: seq<Call>, again: Action, later: u64,
    open': set<Address>)
    requires Signs(act, a) && Accepted(s, act, now, open) && Signs(again, a) && again.nonce == act.nonce
    ensures !Accepted(Run(Step(s, act, now, open), calls), again, later, open')
  {
    NonceMoves(s, act, now, open, a);
    NonceNeverFalls(Step(s, act, now, open), calls, a);
  }

  predicate Consents(act: Action, a: Account, maker: Account) {
    act.ApproveMaker? && act.account == a && act.maker == maker
  }

  lemma ApprovalNonceMoves(s: State, act: Action, now: u64, open: set<Address>, a: Account, maker: Account)
    ensures var before, after := ApprovalOf(KeysOf(s, a), maker).nonce, ApprovalOf(KeysOf(Step(s, act, now, open), a), maker).nonce;
            if Consents(act, a, maker) && Accepted(s, act, now, open) then act.nonce == before && after == before + 1
            else after == before
  {
    StepOn(s, act, now, open, a);
    RoomKeepsUsed(KeysOf(s, a), now, AtOnce(s, open));
  }

  lemma {:induction false} ApprovalNonceNeverFalls(s: State, calls: seq<Call>, a: Account, maker: Account)
    ensures ApprovalOf(KeysOf(s, a), maker).nonce <= ApprovalOf(KeysOf(Run(s, calls), a), maker).nonce
    decreases calls
  {
    if calls != [] {
      ApprovalNonceMoves(s, calls[0].act, calls[0].now, calls[0].open, a, maker);
      ApprovalNonceNeverFalls(Step(s, calls[0].act, calls[0].now, calls[0].open), calls[1..], a, maker);
    }
  }

  /** Nor is an approval's: a withdrawn approval cannot be replayed, not even after the account is left. */
  lemma NoApprovalTwice(
    s: State, act: Action, now: u64, open: set<Address>, a: Account, maker: Account, calls: seq<Call>, again: Action,
    later: u64, open': set<Address>)
    requires Consents(act, a, maker) && Accepted(s, act, now, open)
    requires Consents(again, a, maker) && again.nonce == act.nonce
    ensures !Accepted(Run(Step(s, act, now, open), calls), again, later, open')
  {
    ApprovalNonceMoves(s, act, now, open, a, maker);
    ApprovalNonceNeverFalls(Step(s, act, now, open), calls, a, maker);
  }

  // ---- the admin's settings ----

  /** The pause, the position guards and the proof sources are what was last set, and no account moves. */
  lemma SettingsAreStored(s: State, act: Action, now: u64, open: set<Address>)
    requires !OnAccount(act)
    ensures var n := Step(s, act, now, open);
            && n.accounts == s.accounts
            && n.paused == (if act.SetPaused? then act.paused else s.paused)
            && n.guards == (if act.SetGuards? then act.guards else s.guards)
            && n.proofReg == (if act.SetProofRegistration? then Some(act.cfg) else s.proofReg)
  {
  }
}
