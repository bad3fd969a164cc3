/** The registry contract: entry points that read rows, update them and write them back, each
    proved to be the step of the state machine, whose runs keep the invariants proved about it. */
module KeyRegistry {
  import opened Numbers
  import opened Wrappers
  import opened Registry

  datatype Error =
    | ContractPaused | DeadlineExpired | DeadlineTooFar | BadNonce | NotAuthorized
    | KeyPreviouslyUsed | RegistryFull | Overflow
    | ProofRegistrationDisabled | SourceNotAllowed
    | NoSuchSlot | BadValidUntil
    | GuardsUnset | AccountInFlight

  lemma {:induction false} KeptSnoc(k: Keys, live: seq<SlotId>, id: SlotId, now: u64, atOnce: bool)
    ensures Kept(k, live + [id], now, atOnce)
         == Kept(k, live, now, atOnce) + (if Prunable(k, id, now, atOnce) then [] else [id])
  {
    if live == [] {
      assert live + [id] == [id] && [id][1..] == [];
    } else {
      KeptSnoc(k, live[1..], id, now, atOnce);
      assert (live + [id])[1..] == live[1..] + [id];
    }
  }

  ghost function Dropped(k: Keys, live: seq<SlotId>, now: u64, atOnce: bool): set<SlotId> {
    set id | id in live && Prunable(k, id, now, atOnce)
  }

  /** The rows with those of a set of slots removed. */
  function Without(k: Keys, gone: set<SlotId>): Keys {
    k.(slots := k.slots - gone, expired := k.expired - gone)
  }

  /** `prune`: one pass over the live ids, removing rows as it goes and rebuilding the list. */
  method Prune(k: Keys, now: u64, atOnce: bool) returns (r: Keys)
    ensures r == Pruned(k, now, atOnce)
  {
    var kept: seq<SlotId> := [];
    r := k;
    for i := 0 to |k.live|
      invariant kept == Kept(k, k.live[..i], now, atOnce)
      invariant r == Without(k, Dropped(k, k.live[..i], now, atOnce))
    {
      OnePass(k, k.live[..i], k.live[i], now, atOnce);
      assert k.live[..i + 1] == k.live[..i] + [k.live[i]];
      if Prunable(r, k.live[i], now, atOnce) {
        r := Without(r, {k.live[i]});
      } else {
        kept := kept + [k.live[i]];
      }
    }
    assert k.live[..|k.live|] == k.live;
    WholePass(k, now, atOnce);
    r := r.(live := kept);
  }

  lemma WholePass(k: Keys, now: u64, atOnce: bool)
    ensures Without(k, Dropped(k, k.live, now, atOnce)).(live := Kept(k, k.live, now, atOnce)) == Pruned(k, now, atOnce)
  {
    assert Dropped(k, k.live, now, atOnce) == set id | id in k.live && id !in Kept(k, k.live, now, atOnce);
  }

  /** One turn of the pass: rows already removed change no later verdict, and the verdict on the
      next id moves the kept list and the removed rows by that id. */
  lemma OnePass(k: Keys, done: seq<SlotId>, id: SlotId, now: u64, atOnce: bool)
    ensures var current := Without(k, Dropped(k, done, now, atOnce));
            var next := Without(k, Dropped(k, done + [id], now, atOnce));
            && Prunable(current, id, now, atOnce) == Prunable(k, id, now, atOnce)
            && next == (if Prunable(k, id, now, atOnce) then Without(current, {id}) else current)
            && Kept(k, done + [id], now, atOnce)
               == Kept(k, done, now, atOnce) + (if Prunable(k, id, now, atOnce) then [] else [id])
  {
    KeptSnoc(k, done, id, now, atOnce);
    var gone := Dropped(k, done, now, atOnce);
    if Prunable(k, id, now, atOnce) {
      assert Dropped(k, done + [id], now, atOnce) == gone + {id};
      assert k.slots - (gone + {id}) == k.slots - gone - {id};
      assert k.expired - (gone + {id}) == k.expired - gone - {id};
    } else {
      assert Dropped(k, done + [id], now, atOnce) == gone;
    }
  }

  /** `revoke`'s loop: every live slot's rows go. */
  method RemoveAll(k: Keys) returns (r: Keys)
    ensures r == WithLive(k, [])
  {
    var slots, expired := k.slots, k.expired;
    for i := 0 to |k.live|
      invariant slots == k.slots - (set id | id in k.live[..i])
      invariant expired == k.expired - (set id | id in k.live[..i])
    {
      assert k.live[..i + 1] == k.live[..i] + [k.live[i]];
      slots := slots - {k.live[i]};
      expired := expired - {k.live[i]};
    }
    assert k.live[..|k.live|] == k.live;
    assert (set id | id in k.live && id !in []) == set id | id in k.live;
    r := k.(live := [], slots := slots, expired := expired);
  }

  lemma OneReports(s: State, open: set<Address>, g: Address)
    requires g in s.guards && g in open
    ensures HasOpen(s, open)
  {
  }

  class Contract {
    var paused: bool
    var guards: seq<Address>
    var proofReg: Option<ProofRegistration>
    var accounts: map<Account, Keys>

    ghost function Rows(): State
      reads this
    {
      State(paused, guards, proofReg, accounts)
    }

    constructor ()
      ensures Rows() == EMPTY
    {
      paused := false;
      guards := [];
      proofReg := None;
      accounts := map[];
    }

    function Account(a: Account): Keys
      reads this
      ensures Account(a) == KeysOf(Rows(), a)
    {
      if a in accounts then accounts[a] else FRESH
    }

    /** `has_open_positions`: the first wired guard that reports one. */
    method HasOpenPositions(open: set<Address>) returns (r: bool)
      ensures r == HasOpen(Rows(), open)
    {
      r := false;
      for i := 0 to |guards|
        invariant r ==> HasOpen(Rows(), open)
        invariant !r ==> forall j :: 0 <= j < i ==> guards[j] !in open
      {
        if guards[i] in open {
          OneReports(Rows(), open, guards[i]);
          r := true;
        }
      }
    }

    /** A full account is pruned first. */
    method MakeRoom(k: Keys, now: u64, open: set<Address>) returns (room: Keys)
      ensures room == RoomFor(k, now, AtOnce(Rows(), open))
    {
      room := k;
      if |k.live| >= MAX_ACTIVE_SLOTS {
        var reported := HasOpenPositions(open);
        room := Prune(k, now, guards != [] && !reported);
      }
    }

    /** `add_slot`: refuses a used key and a full account, pruning first when full. */
    method AddSlot(a: Account, c: Commitment, now: u64, open: set<Address>) returns (r: Result<SlotId, Error>)
      modifies this`accounts
      ensures var k, atOnce := KeysOf(old(Rows()), a), AtOnce(old(Rows()), open);
              && (r.Ok? <==> CanAdd(k, c, now, atOnce))
              && (r.Ok? ==> r.value == RoomFor(k, now, atOnce).nextSlotId
                            && accounts == old(accounts)[a := Added(k, c, now, atOnce)])
              && (r.Err? ==> accounts == old(accounts))
    {
      var k := Account(a);
      if c in k.used {
        return Err(KeyPreviouslyUsed);
      }
      k := MakeRoom(k, now, open);
      if |k.live| >= MAX_ACTIVE_SLOTS {
        return Err(RegistryFull);
      }
      var id := k.nextSlotId;
      if id >= U32_MAX {
        return Err(Overflow);
      }
      k := k.(nextSlotId := id + 1, live := k.live + [id]);
      k := k.(slots := k.slots[id := KeySlot(c, 0, now)]);
      k := k.(used := k.used + {c});
      k := k.(keySlots := k.keySlots[c := id]);
      accounts := accounts[a := k];
      return Ok(id);
    }

    method Register(
      a: Account, c: Commitment, nonce: u64, deadline: u64, checked: bool, now: u64, open: set<Address>)
      returns (r: Result<SlotId, Error>)
      modifies this`accounts
      ensures r.Ok? <==> CanRegister(old(Rows()), a, c, nonce, deadline, checked, now, open)
      ensures Rows() == Step(old(Rows()), Action.Register(a, c, nonce, deadline, checked), now, open)
    {
      if paused {
        return Err(ContractPaused);
      }
      if now > deadline {
        return Err(DeadlineExpired);
      }
      if deadline - now > MAX_REGISTER_TTL {
        return Err(DeadlineTooFar);
      }
      if nonce != Account(a).nonce {
        return Err(BadNonce);
      }
      if !checked {
        return Err(NotAuthorized);
      }
      if nonce >= U64_MAX {
        return Err(Overflow);
      }
      r := AddSlot(a, c, now, open);
      if r.Ok? {
        var k := accounts[a];
        accounts := accounts[a := k.(nonce := nonce + 1)];
        assert accounts == old(accounts)[a := k.(nonce := nonce + 1)];
      }
    }

    method RegisterByProof(a: Account, c: Commitment, source: Address, checked: bool, now: u64, open: set<Address>)
      returns (r: Result<SlotId, Error>)
      modifies this`accounts
      ensures r.Ok? <==> CanRegisterByProof(old(Rows()), a, c, source, checked, now, open)
      ensures Rows() == Step(old(Rows()), Action.RegisterByProof(a, c, source, checked), now, open)
    {
      if paused {
        return Err(ContractPaused);
      }
      if proofReg.None? || !proofReg.value.enabled {
        return Err(ProofRegistrationDisabled);
      }
      if c in Account(a).used {
        return Err(KeyPreviouslyUsed);
      }
      if source !in proofReg.value.sources {
        return Err(SourceNotAllowed);
      }
      if !checked {
        return Err(NotAuthorized);
      }
      r := AddSlot(a, c, now, open);
    }

    /** Shorten-only, nonce-free, never paused: the retirement lever. */
    method SetValidUntil(a: Account, c: Commitment, validUntil: u64, ownerOk: bool, now: u64)
      returns (r: Result<(), Error>)
      modifies this`accounts
      ensures r.Ok? <==> CanSetValidUntil(KeysOf(old(Rows()), a), c, validUntil, ownerOk)
      ensures Rows() == Step(old(Rows()), Action.SetValidUntil(a, c, validUntil, ownerOk), now, {})
    {
      var k := Account(a);
      if c !in k.keySlots {
        return Err(NoSuchSlot);
      }
      var id := k.keySlots[c];
      if id !in k.slots {
        return Err(NoSuchSlot);
      }
      var slot := k.slots[id];
      if validUntil == 0 || (slot.validUntil != 0 && validUntil >= slot.validUntil) {
        return Err(BadValidUntil);
      }
      if !ownerOk {
        return Err(NotAuthorized);
      }
      slot := slot.(validUntil := validUntil);
      k := k.(slots := k.slots[id := slot]);
      var eff := Max(validUntil, now);
      var prev := RecordedExpiry(k, id);
      var at := if prev == 0 then eff else Min(prev, eff);
      k := k.(expired := k.expired[id := at]);
      accounts := accounts[a := k];
      return Ok(());
    }

    /** `require_no_open_positions`: fails closed with no guard to ask. */
    method RequireNoOpenPositions(open: set<Address>) returns (r: Result<(), Error>)
      ensures r.Ok? <==> AtOnce(Rows(), open)
    {
      if guards == [] {
        return Err(GuardsUnset);
      }
      var reported := HasOpenPositions(open);
      if reported {
        return Err(AccountInFlight);
      }
      return Ok(());
    }

    method Revoke(a: Account, nonce: u64, ownerOk: bool, now: u64, open: set<Address>)
      returns (r: Result<(), Error>)
      modifies this`accounts
      ensures r.Ok? <==> CanRevoke(old(Rows()), a, nonce, ownerOk, open)
      ensures Rows() == Step(old(Rows()), Action.Revoke(a, nonce, ownerOk), now, open)
    {
      if paused {
        return Err(ContractPaused);
      }
      var k := Account(a);
      if nonce != k.nonce {
        return Err(BadNonce);
      }
      if k.live != [] {
        var free := RequireNoOpenPositions(open);
        if free.Err? {
          return free;
        }
      }
      if !ownerOk {
        return Err(NotAuthorized);
      }
      if nonce >= U64_MAX || k.generation >= U64_MAX {
        return Err(Overflow);
      }
      k := RemoveAll(k);
      k := k.(nonce := nonce + 1, generation := k.generation + 1);
      accounts := accounts[a := k];
      return Ok(());
    }

    method CancelPending(a: Account, nonce: u64, ownerOk: bool, now: u64) returns (r: Result<(), Error>)
      modifies this`accounts
      ensures r.Ok? <==> CanCancelPending(old(Rows()), a, nonce, ownerOk)
      ensures Rows() == Step(old(Rows()), Action.CancelPending(a, nonce, ownerOk), now, {})
    {
      if paused {
        return Err(ContractPaused);
      }
      var k := Account(a);
      if nonce != k.nonce {
        return Err(BadNonce);
      }
      if !ownerOk {
        return Err(NotAuthorized);
      }
      if nonce >= U64_MAX {
        return Err(Overflow);
      }
      accounts := accounts[a := k.(nonce := nonce + 1)];
      return Ok(());
    }

    /** Approving is pausable; withdrawing never is. */
    method ApproveMaker(
      a: Account, maker: Account, approved: bool, nonce: u64, deadline: u64, ownerOk: bool, now: u64)
      returns (r: Result<(), Error>)
      modifies this`accounts
      ensures r.Ok? <==> CanApproveMaker(old(Rows()), a, maker, approved, nonce, deadline, ownerOk, now)
      ensures Rows() == Step(old(Rows()), Action.ApproveMaker(a, maker, approved, nonce, deadline, ownerOk), now, {})
    {
      if approved && paused {
        return Err(ContractPaused);
      }
      if now > deadline {
        return Err(DeadlineExpired);
      }
      if deadline - now > MAX_REGISTER_TTL {
        return Err(DeadlineTooFar);
      }
      var k := Account(a);
      if nonce != ApprovalOf(k, maker).nonce {
        return Err(BadNonce);
      }
      if !ownerOk {
        return Err(NotAuthorized);
      }
      if nonce >= U64_MAX {
        return Err(Overflow);
      }
      k := k.(approvals := k.approvals[maker := Approval(approved, nonce + 1, k.generation)]);
      accounts := accounts[a := k];
      return Ok(());
    }

    method ApproveRepin(a: Account, order: OrderHash, fromSlot: u32, toSlot: u32, nonce: u64, ownerOk: bool, now: u64)
      returns (r: Result<(), Error>)
      modifies this`accounts
      ensures r.Ok? <==> CanApproveRepin(old(Rows()), a, order, nonce, ownerOk)
      ensures Rows() == Step(old(Rows()), Action.ApproveRepin(a, order, fromSlot, toSlot, nonce, ownerOk), now, {})
    {
      var k := Account(a);
      if nonce != RepinOf(k, order).nonce {
        return Err(BadNonce);
      }
      if !ownerOk {
        return Err(NotAuthorized);
      }
      if nonce >= U64_MAX {
        return Err(Overflow);
      }
      k := k.(repins := k.repins[order := RepinConsent(fromSlot, toSlot, nonce + 1)]);
      accounts := accounts[a := k];
      return Ok(());
    }

    method SetPositionGuards(gs: seq<Address>)
      modifies this`guards
      ensures Rows() == old(Rows()).(guards := gs)
    {
      guards := gs;
    }
  }
}
