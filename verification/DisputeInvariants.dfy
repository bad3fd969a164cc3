/** What every run of the dispute module keeps: each token's balance is exactly the open bonds and
    credits in it, no bond is lost or paid twice, a response stands, and no deadline is early. */
module DisputeInvariants {
  import opened Numbers
  import opened Wrappers
  import opened Fees
  import opened Orders
  import opened Sums
  import opened Disputes

  // ---- the ledgers ----

  function BondMap(disputes: map<Order, Dispute>, token: Asset): map<Order, int> {
    map o | o in disputes :: if disputes[o].bondToken == token then disputes[o].bond else 0
  }

  function TokenCredits(claims: map<(Address, Asset), int>, token: Asset): map<(Address, Asset), int> {
    map k | k in claims :: if k.1 == token then claims[k] else 0
  }

  ghost function OpenBonds(s: State, token: Asset): int {
    MapSum(BondMap(s.disputes, token))
  }

  ghost function Credits(m: Money, token: Asset): int {
    (if Some(token) == m.wNative then MapSum(m.claims) else 0) + MapSum(TokenCredits(m.tokenClaims, token))
  }

  /** Holdings are open bonds, credits and what is owed to nobody, to the unit; and a balance is an i128. */
  ghost predicate Conserved(s: State, token: Asset) {
    && Get(s.money.holdings, token) == OpenBonds(s, token) + Credits(s.money, token) + Get(s.money.surplus, token)
    && Get(s.money.holdings, token) <= I128_MAX && Get(s.money.surplus, token) >= 0
  }

  /** No credit is negative, and the native and the per-token ledgers never overlap. */
  ghost predicate CreditInv(m: Money) {
    && (forall w :: w in m.claims ==> m.claims[w] >= 0)
    && (forall k :: k in m.tokenClaims ==> m.tokenClaims[k] >= 0 && Some(k.1) != m.wNative)
  }

  ghost predicate RecordInv(self: Address, d: Dispute, ruledAt: Option<u64>) {
    && 0 < d.bond <= I128_MAX && d.initiator != self
    && d.orderDeadline + d.buffer <= d.challengeDeadline
    && !d.ruling.TradeProceeds?
    && (d.ruling == NoRuling <==> ruledAt.None?)
    && (ruledAt.Some? ==> ruledAt.value + d.buffer <= d.challengeDeadline)
  }

  function RuledAt(s: State, o: Order): Option<u64> {
    if o in s.ruledAt then Some(s.ruledAt[o]) else None
  }

  ghost predicate SettingsInv(g: Settings) {
    && (forall c :: c in g.params ==> ParamsOk(g.params[c]))
    && (forall c :: c in g.bondConfigs ==> BondOk(g.bondConfigs[c]) && g.bondConfigs[c].minBond > 0)
  }

  ghost predicate Inv(s: State) {
    && (s.money.wNative.None? ==> s.settings.params == map[] && s.money.claims == map[] && s.money.tokenClaims == map[])
    && SettingsInv(s.settings) && CreditInv(s.money)
    && (forall o :: o in s.disputes ==> s.money.wNative.Some? && RecordInv(s.self, s.disputes[o], RuledAt(s, o)))
    && (forall o :: o in s.ruledAt ==> o in s.disputes)
    && (forall t :: Conserved(s, t))
  }

  lemma NewInv(self: Address)
    ensures Inv(New(self))
  {
    forall t ensures Conserved(New(self), t) {
      assert BondMap(map[], t) == map[] && TokenCredits(map[], t) == map[];
    }
  }

  /** Nothing owed is negative, so the module always holds what it owes, and the surplus besides. */
  lemma Solvent(s: State, token: Asset)
    requires Inv(s)
    ensures 0 <= OpenBonds(s, token) && 0 <= Credits(s.money, token)
    ensures OpenBonds(s, token) + Credits(s.money, token) <= Get(s.money.holdings, token)
  {
    MapSumNonnegative(BondMap(s.disputes, token));
    MapSumNonnegative(s.money.claims);
    MapSumNonnegative(TokenCredits(s.money.tokenClaims, token));
    assert Conserved(s, token);
  }

  /** Any one open bond, and any one credit, is within what the module holds of its token. */
  lemma EachIsHeld(s: State, o: Order, who: Address, token: Asset)
    requires Inv(s)
    ensures o in s.disputes ==> s.disputes[o].bond <= Get(s.money.holdings, s.disputes[o].bondToken)
    ensures 0 <= Owed(s.money, who, token) <= Get(s.money.holdings, token)
    ensures o in s.disputes && s.disputes[o].bondToken == token ==>
              Owed(s.money, who, token) + s.disputes[o].bond <= Get(s.money.holdings, token)
  {
    Solvent(s, token);
    if o in s.disputes {
      Solvent(s, s.disputes[o].bondToken);
      MapSumCovers(BondMap(s.disputes, s.disputes[o].bondToken), o);
    }
    MapSumNonnegative(TokenCredits(s.money.tokenClaims, token));
    if Some(token) == s.money.wNative {
      MapSumNonnegative(s.money.claims);
      if who in s.money.claims {
        MapSumCovers(s.money.claims, who);
      }
    } else if (who, token) in s.money.tokenClaims {
      MapSumCovers(TokenCredits(s.money.tokenClaims, token), (who, token));
    }
  }

  // ---- how each write moves the sums ----

  lemma OpenMoves(disputes: map<Order, Dispute>, o: Order, d: Dispute, token: Asset)
    requires o !in disputes
    ensures MapSum(BondMap(disputes[o := d], token))
         == MapSum(BondMap(disputes, token)) + (if d.bondToken == token then d.bond else 0)
  {
    var v := if d.bondToken == token then d.bond else 0;
    assert BondMap(disputes[o := d], token) == BondMap(disputes, token)[o := v];
    MapSumWrite(BondMap(disputes, token), o, v);
  }

  lemma CloseMoves(disputes: map<Order, Dispute>, o: Order, token: Asset)
    requires o in disputes
    ensures MapSum(BondMap(disputes - {o}, token))
         == MapSum(BondMap(disputes, token)) - (if disputes[o].bondToken == token then disputes[o].bond else 0)
  {
    assert BondMap(disputes - {o}, token) == BondMap(disputes, token) - {o};
    MapSumRemove(BondMap(disputes, token), o);
  }

  lemma RewriteMoves(disputes: map<Order, Dispute>, o: Order, d: Dispute, token: Asset)
    requires o in disputes && d.bond == disputes[o].bond && d.bondToken == disputes[o].bondToken
    ensures BondMap(disputes[o := d], token) == BondMap(disputes, token)
  {
  }

  lemma TokenCreditMoves(claims: map<(Address, Asset), int>, k: (Address, Asset), amount: int, t: Asset)
    ensures MapSum(TokenCredits(claims[k := amount], t))
         == MapSum(TokenCredits(claims, t)) + (if t == k.1 then amount - Get(claims, k) else 0)
  {
    var v := if k.1 == t then amount else 0;
    assert TokenCredits(claims[k := amount], t) == TokenCredits(claims, t)[k := v];
    MapSumWrite(TokenCredits(claims, t), k, v);
  }

  /** What the money says bonds are owed: holdings less surplus and credits. */
  ghost function ForBonds(m: Money, token: Asset): int {
    Get(m.holdings, token) - Get(m.surplus, token) - Credits(m, token)
  }

  /** Money after `amount` of a token stopped being owed by way of a bond or a credit: one token's
      balance, less its surplus and credits, is down by exactly that, and no other token's moves. */
  ghost predicate Drawn(m: Money, n: Money, token: Asset, amount: int, t: Asset) {
    && ForBonds(n, t) == ForBonds(m, t) - (if t == token then amount else 0)
    && Get(n.holdings, t) <= Get(m.holdings, t) && Get(n.surplus, t) >= Get(m.surplus, t)
    && n.wNative == m.wNative
  }

  lemma SentMoves(m: Money, toSelf: bool, token: Asset, amount: nat, t: Asset)
    ensures Drawn(m, Sent(m, toSelf, token, amount), token, amount, t)
  {
  }

  /** Writing one credit moves its own token's credits by the difference, and no other token's. */
  lemma CreditMoves(m: Money, who: Address, token: Asset, amount: nat, t: Asset)
    ensures Drawn(m, WithCredit(m, who, token, amount), token, amount - Owed(m, who, token), t)
  {
    if Some(token) == m.wNative {
      MapSumWrite(m.claims, who, amount);
    } else {
      TokenCreditMoves(m.tokenClaims, (who, token), amount, t);
    }
  }

  lemma WriteKeepsCredits(m: Money, who: Address, token: Asset, amount: nat)
    requires CreditInv(m)
    ensures CreditInv(WithCredit(m, who, token, amount))
  {
  }

  lemma CreditsStay(m: Money, self: Address, to: Address, token: Asset, amount: nat, pays: bool)
    requires CreditInv(m) && 0 <= Owed(m, to, token)
    ensures CreditInv(PaidOrCredited(m, self, to, token, amount, pays))
  {
    WriteKeepsCredits(m, to, token, Owed(m, to, token) + amount);
  }

  // ---- each call ----

  /** Every bond a route can ask for is positive and can be moved as an i128, whatever the order's
      amount; and a filer that is the module itself can never deliver one. */
  lemma BondInRange(s: State, act: Action)
    requires SettingsInv(s.settings) && act.Open? && OpenBond(s, act).Some?
    ensures 0 < OpenBond(s, act).value.1 <= I128_MAX
    ensures Delivered(s, act.filer, act.arrives) == Some(OpenBond(s, act).value.1) ==> act.filer != s.self
  {
    if (act.token, act.chain) in s.settings.bondConfigs {
      var c := s.settings.bondConfigs[(act.token, act.chain)];
      BpsOfIsFloor(act.amount, c.bondBps);
      MulMonotone(c.bondBps, MAX_BOND_BPS, act.amount);
    } else {
      assert ParamsOk(s.settings.params[act.chain]);
    }
  }

  lemma OpenedInv(s: State, act: Action, now: u64)
    requires Inv(s) && act.Open? && CanOpen(s, act, now)
    ensures Inv(Opened(s, act, now))
  {
    var n := Opened(s, act, now);
    BondInRange(s, act);
    forall t ensures Conserved(n, t) {
      assert Conserved(s, t);
      OpenMoves(s.disputes, act.order, n.disputes[act.order], t);
    }
  }

  lemma PaidOrCreditedMoves(m: Money, self: Address, to: Address, token: Asset, amount: nat, pays: bool, t: Asset)
    requires 0 <= Owed(m, to, token)
    ensures Drawn(m, PaidOrCredited(m, self, to, token, amount, pays), token, amount, t)
  {
    if pays && amount <= Get(m.holdings, token) {
      SentMoves(m, to == self, token, amount, t);
    } else {
      CreditMoves(m, to, token, Owed(m, to, token) + amount, t);
    }
  }

  lemma SettledConserves(s: State, o: Order, to: Address, pays: bool, t: Asset)
    requires Inv(s) && o in s.disputes
    ensures Conserved(Settled(s, o, to, pays), t)
    ensures Settled(s, o, to, pays).money.wNative == s.money.wNative
  {
    var d := s.disputes[o];
    assert RecordInv(s.self, d, RuledAt(s, o)) && Conserved(s, t);
    CloseMoves(s.disputes, o, t);
    EachIsHeld(s, o, to, d.bondToken);
    PaidOrCreditedMoves(s.money, s.self, to, d.bondToken, d.bond, pays, t);
  }

  lemma SettledInv(s: State, o: Order, to: Address, pays: bool)
    requires Inv(s) && o in s.disputes
    ensures Inv(Settled(s, o, to, pays))
  {
    var n := Settled(s, o, to, pays);
    SettledConserves(s, o, to, pays, 0);
    forall t ensures Conserved(n, t) {
      SettledConserves(s, o, to, pays, t);
    }
    EachIsHeld(s, o, to, s.disputes[o].bondToken);
    CreditsStay(s.money, s.self, to, s.disputes[o].bondToken, s.disputes[o].bond, pays);
    forall x | x in n.disputes ensures RecordInv(n.self, n.disputes[x], RuledAt(n, x)) {
      assert RuledAt(n, x) == RuledAt(s, x);
    }
  }

  lemma ClaimedMoves(m: Money, self: Address, who: Address, token: Asset, t: Asset)
    requires 0 < Owed(m, who, token)
    ensures Drawn(m, Claimed(m, self, who, token), token, 0, t)
  {
    CreditMoves(m, who, token, 0, t);
    SentMoves(WithCredit(m, who, token, 0), who == self, token, Owed(m, who, token), t);
  }

  lemma ClaimedInv(s: State, who: Address, token: Asset)
    requires Inv(s) && 0 < Owed(s.money, who, token)
    ensures Inv(s.(money := Claimed(s.money, s.self, who, token)))
  {
    var n := s.(money := Claimed(s.money, s.self, who, token));
    ClaimedMoves(s.money, s.self, who, token, 0);
    WriteKeepsCredits(s.money, who, token, 0);
    forall t ensures Conserved(n, t) {
      assert Conserved(s, t);
      ClaimedMoves(s.money, s.self, who, token, t);
    }
    forall o | o in n.disputes ensures RecordInv(n.self, n.disputes[o], RuledAt(n, o)) {
      assert RuledAt(n, o) == RuledAt(s, o);
    }
  }

  lemma RewrittenInv(s: State, n: State, o: Order)
    requires Inv(s) && o in s.disputes && o in n.disputes
    requires n == s.(disputes := s.disputes[o := n.disputes[o]], ruledAt := n.ruledAt)
    requires n.disputes[o].bond == s.disputes[o].bond && n.disputes[o].bondToken == s.disputes[o].bondToken
    requires RecordInv(s.self, n.disputes[o], RuledAt(n, o))
    requires forall x :: x != o ==> RuledAt(n, x) == RuledAt(s, x)
    ensures Inv(n)
  {
    forall t ensures Conserved(n, t) {
      assert Conserved(s, t);
      RewriteMoves(s.disputes, o, n.disputes[o], t);
    }
    forall x | x in n.ruledAt ensures x in n.disputes {
      assert x != o ==> RuledAt(n, x) == RuledAt(s, x);
    }
    forall x | x in n.disputes ensures RecordInv(n.self, n.disputes[x], RuledAt(n, x)) {
      assert x != o ==> RuledAt(n, x) == RuledAt(s, x);
    }
  }

  lemma DonatedInv(s: State, token: Asset, gift: nat)
    requires Inv(s) && Get(s.money.holdings, token) + gift <= I128_MAX
    ensures Inv(Step(s, Donate(token, gift), 0))
  {
    var n := Step(s, Donate(token, gift), 0);
    forall t ensures Conserved(n, t) {
      assert Conserved(s, t);
    }
  }

  lemma InitializedInv(s: State, w: Asset)
    requires Inv(s) && s.money.wNative.None?
    ensures Inv(s.(money := s.money.(wNative := Some(w))))
  {
    var n := s.(money := s.money.(wNative := Some(w)));
    forall t ensures Conserved(n, t) {
      assert Conserved(s, t);
    }
  }

  lemma SettingsWriteInv(s: State, g: Settings)
    requires Inv(s) && SettingsInv(g) && (s.money.wNative.None? ==> g.params == map[])
    ensures Inv(s.(settings := g))
  {
    var n := s.(settings := g);
    forall t ensures Conserved(n, t) {
      assert Conserved(s, t);
    }
    forall o | o in n.disputes ensures RecordInv(n.self, n.disputes[o], RuledAt(n, o)) {
      assert RuledAt(n, o) == RuledAt(s, o);
    }
  }

  lemma RespondedInv(s: State, act: Action, now: u64)
    requires Inv(s) && act.Respond? && CanRespond(s, act, now)
    ensures Inv(Step(s, act, now))
  {
    RewrittenInv(s, Step(s, act, now), act.order);
  }

  lemma RuledInv(s: State, o: Order, outcome: Outcome, now: u64)
    requires Inv(s) && CanResolve(s, o, outcome, now)
    ensures Inv(Ruled(s, o, outcome, now))
  {
    RewrittenInv(s, Ruled(s, o, outcome, now), o);
  }

  predicate IsSetting(act: Action) {
    act.SetEscrow? || act.SetParams? || act.SetArbiter? || act.SetFeePool? || act.SetBondConfig?
  }

  lemma SettingInv(s: State, act: Action, now: u64)
    requires Inv(s) && IsSetting(act)
    ensures Inv(Step(s, act, now))
  {
    if Accepted(s, act, now) {
      SettingsWriteInv(s, Step(s, act, now).settings);
    }
  }

  /** Every call keeps the invariant. */
  lemma StepInv(s: State, act: Action, now: u64)
    requires Inv(s)
    ensures Inv(Step(s, act, now))
  {
    if Accepted(s, act, now) && !IsSetting(act) {
      match act {
        case Initialize(w) => InitializedInv(s, w);
        case Open(_, _, _, _, _, _, _, _, _, _) => OpenedInv(s, act, now);
        case Settle(_, o, out, fb, rf, pays) => SettledInv(s, o, BondTo(s, o, out, fb, rf), pays);
        case Respond(_, _, _, _) => RespondedInv(s, act, now);
        case Resolve(o, out) => RuledInv(s, o, out, now);
        case Claim(who, _) => ClaimedInv(s, who, s.money.wNative.value);
        case ClaimToken(who, token, _) => ClaimedInv(s, who, token);
        case Donate(token, gift) => DonatedInv(s, token, gift);
      }
    } else {
      if IsSetting(act) {
        SettingInv(s, act, now);
      }
    }
  }
}
