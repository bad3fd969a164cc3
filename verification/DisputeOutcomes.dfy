/** What the dispute module's calls do, said of its records and of what was asked: who may file and for
    what bond, whose ruling is recorded, who gets the bond, who may answer and claim. */
module DisputeOutcomes {
  import opened Numbers
  import opened Wrappers
  import opened Fees
  import opened Orders
  import opened Disputes
  import opened DisputeInvariants
  import DT = DisputeTheorems

  // ---- filing ----

  /** The bond a route asks: the larger of its floor and its share of the amount in the order's own token
      where one is configured, else the chain's flat floor in wrapped native. */
  predicate IsBond(s: State, act: Action, token: Asset, bond: nat)
    requires act.Open? && act.chain in s.settings.params
  {
    if (act.token, act.chain) in s.settings.bondConfigs then
      var c := s.settings.bondConfigs[(act.token, act.chain)];
      token == act.token && bond == Max(act.amount * c.bondBps / 10_000, c.minBond)
    else s.money.wNative == Some(token) && bond == s.settings.params[act.chain].bondFloor
  }

  /** A filing is an allowed escrow's, on an order with no record, for a configured chain. It takes in
      exactly the route's bond, which the filer's transfer delivered, and records it as the filer's, for
      that escrow, unruled and unanswered, decided no earlier than the challenge period from now and the
      order's own deadline and buffer. */
  lemma FilingRecords(s: State, act: Action, now: u64)
    requires Inv(s) && act.Open? && Accepted(s, act, now)
    ensures act.escrow in s.settings.escrows && act.order !in s.disputes && act.chain in s.settings.params
    ensures var n := Step(s, act, now);
            && act.order in n.disputes && n.disputes == s.disputes[act.order := n.disputes[act.order]]
            && var d := n.disputes[act.order];
            && IsBond(s, act, d.bondToken, d.bond) && act.arrives == Some(d.bond) && 0 < d.bond
            && d.initiator == act.filer && d.escrow == act.escrow && d.initiatorEvidence == act.evidence
            && d.responderEvidence == NO_EVIDENCE && d.ruling == NoRuling
            && d.orderDeadline == act.deadline && d.buffer == act.buffer
            && d.challengeDeadline
               == Max(now + s.settings.params[act.chain].challengePeriod, act.deadline + act.buffer)
            && n.money == s.money.(holdings := s.money.holdings[d.bondToken := Get(s.money.holdings, d.bondToken) + d.bond])
  {
    BondInRange(s, act);
    if (act.token, act.chain) in s.settings.bondConfigs {
      BpsOfIsFloor(act.amount, s.settings.bondConfigs[(act.token, act.chain)].bondBps);
    }
  }

  // ---- the arbiter's ruling ----

  /** A ruling is the arbiter's, one of the three it may give, on an open dispute before its deadline; it
      is recorded as given, and moves the deadline to the later of now and the order's own, and a buffer. */
  lemma RulingIsRecorded(s: State, o: Order, out: Outcome, now: u64)
    requires Accepted(s, Resolve(o, out), now)
    ensures s.settings.arbiter.Some? && out in {MutualRefund, BridgerForfeit, MakerForfeit}
    ensures o in s.disputes && now < s.disputes[o].challengeDeadline
    ensures var d := s.disputes[o];
            && Max(now, d.orderDeadline) + d.buffer <= U64_MAX
            && Step(s, Resolve(o, out), now)
               == s.(disputes := s.disputes[o := d.(ruling := out, challengeDeadline := Max(now, d.orderDeadline) + d.buffer)],
                     ruledAt := s.ruledAt[o := now])
  {
  }

  /** A record's ruling after a call: none when it is filed, the arbiter's when it rules, else what it was. */
  function RulingStep(s: State, act: Action, now: u64, o: Order, ruling: Outcome): Outcome {
    if act.Open? && act.order == o && Accepted(s, act, now) then NoRuling
    else if act.Resolve? && act.order == o && Accepted(s, act, now) then act.outcome
    else ruling
  }

  /** No other call changes a ruling. */
  lemma OnlyTheArbiterRules(s: State, act: Action, now: u64, o: Order, ruling: Outcome)
    requires o in Step(s, act, now).disputes && (o in s.disputes ==> s.disputes[o].ruling == ruling)
    ensures Step(s, act, now).disputes[o].ruling == RulingStep(s, act, now, o, ruling)
  {
  }

  /** The last ruling of a run since the last filing, from what stood before. */
  function LastRuling(s: State, calls: seq<DT.Call>, o: Order, ruling: Outcome): Outcome
    decreases calls
  {
    if calls == [] then ruling
    else
      LastRuling(Step(s, calls[0].act, calls[0].now), calls[1..], o, RulingStep(s, calls[0].act, calls[0].now, o, ruling))
  }

  /** What an open dispute is ruled is the outcome the arbiter last gave since it was filed, and none if
      it gave none. */
  lemma {:induction false} RulingIsTheArbiters(s: State, calls: seq<DT.Call>, o: Order, ruling: Outcome)
    requires o in s.disputes ==> s.disputes[o].ruling == ruling
    ensures o in DT.Run(s, calls).disputes ==> DT.Run(s, calls).disputes[o].ruling == LastRuling(s, calls, o, ruling)
    decreases calls
  {
    if calls != [] {
      var c := calls[0];
      var n := Step(s, c.act, c.now);
      if o in n.disputes {
        OnlyTheArbiterRules(s, c.act, c.now, o, ruling);
      }
      RulingIsTheArbiters(n, calls[1..], o, RulingStep(s, c.act, c.now, o, ruling));
    }
  }

  // ---- the answer ----

  /** One answer, by someone other than the filer, of something, before any ruling and the deadline; it is
      recorded, and nothing else changes. */
  lemma ResponseIsRecorded(s: State, escrow: Address, o: Order, responder: Address, evidence: Evidence, now: u64)
    requires Accepted(s, Respond(escrow, o, responder, evidence), now)
    ensures o in s.disputes && evidence != NO_EVIDENCE
    ensures var d := s.disputes[o];
            && d.escrow == escrow && d.initiator != responder && d.responderEvidence == NO_EVIDENCE
            && d.ruling == NoRuling && now < d.challengeDeadline
            && Step(s, Respond(escrow, o, responder, evidence), now)
               == s.(disputes := s.disputes[o := d.(responderEvidence := evidence)])
  {
  }

  // ---- the bond ----

  /** Who a settled bond goes to: back to the filer when the escrow vouches for it, when nobody was found
      at fault, or when the other side was; to the pool otherwise, or to the filer if there is no pool. */
  function BondGoesTo(s: State, d: Dispute, out: Outcome, filerIsBridger: bool, returnToFiler: bool): Address {
    var wins :=
      || returnToFiler
      || out == MutualRefund
      || (out == MakerForfeit && filerIsBridger)
      || (out == BridgerForfeit && !filerIsBridger);
    if wins then d.initiator else match s.settings.feePool case Some(p) => p case None => d.initiator
  }

  /** A settlement is its own escrow's. It closes the record and nothing else; the whole bond goes to that
      one party, sent if its token lets it through, credited to that party in the bond's token if not. */
  lemma BondIsSettled(s: State, act: Action, now: u64, who: Address, token: Asset)
    requires Inv(s) && act.Settle? && Accepted(s, act, now)
    ensures act.order in s.disputes && s.disputes[act.order].escrow == act.escrow
    ensures var d, n := s.disputes[act.order], Step(s, act, now);
            var to := BondGoesTo(s, d, act.outcome, act.filerIsBridger, act.returnToFiler);
            && n.disputes == s.disputes - {act.order}
            && Owed(n.money, who, token) == Owed(s.money, who, token)
               + (if !act.pays && who == to && token == d.bondToken then d.bond else 0)
            && Get(n.money.holdings, token) == Get(s.money.holdings, token)
               - (if act.pays && to != s.self && token == d.bondToken then d.bond else 0)
  {
    DT.SettleRoutesTheBond(s, act, now, who, token);
    SettleCloses(s, act, now);
  }

  lemma SettleCloses(s: State, act: Action, now: u64)
    requires act.Settle? && Accepted(s, act, now)
    ensures act.order in s.disputes && s.disputes[act.order].escrow == act.escrow
    ensures Step(s, act, now).disputes == s.disputes - {act.order}
    ensures BondTo(s, act.order, act.outcome, act.filerIsBridger, act.returnToFiler)
         == BondGoesTo(s, s.disputes[act.order], act.outcome, act.filerIsBridger, act.returnToFiler)
  {
  }

  // ---- the credits ----

  /** Where a credit is kept: the wrapped native token's in its own ledger, any other by its token. */
  lemma CreditsAreApart(s: State, who: Address, token: Asset)
    requires Inv(s)
    ensures Owed(s.money, who, token)
         == (if Some(token) == s.money.wNative then Get(s.money.claims, who) else 0) + Get(s.money.tokenClaims, (who, token))
  {
    if Some(token) == s.money.wNative {
      assert (who, token) !in s.money.tokenClaims;
    }
  }

  /** Either claim pays its own recipient's credit in full, when the token lets it, and no other moves. */
  lemma NativeClaimPays(s: State, who: Address, other: Address, token: Asset, now: u64)
    requires Inv(s) && s.money.wNative.Some? && 0 < Get(s.money.claims, who)
    ensures var n, w := Step(s, Claim(who, true), now), s.money.wNative.value;
            && Accepted(s, Claim(who, true), now)
            && Owed(n.money, other, token) == (if (other, token) == (who, w) then 0 else Owed(s.money, other, token))
            && (who != s.self ==> Get(n.money.holdings, w) == Get(s.money.holdings, w) - Get(s.money.claims, who))
  {
    DT.CreditHeld(s, who, s.money.wNative.value);
  }

  /** Nothing but its own claim lowers a credit. */
  lemma CreditStands(s: State, act: Action, now: u64, who: Address, token: Asset)
    requires Inv(s)
    requires !(act.Claim? && act.recipient == who && s.money.wNative == Some(token))
    requires !(act.ClaimToken? && act.recipient == who && act.asset == token)
    requires s.money.wNative.Some?
    ensures Owed(s.money, who, token) <= Owed(Step(s, act, now).money, who, token)
  {
    if act.Settle? && Accepted(s, act, now) {
      DT.SettleRoutesTheBond(s, act, now, who, token);
      assert RecordInv(s.self, s.disputes[act.order], RuledAt(s, act.order));
    }
  }

  // ---- the admin's settings ----

  /** Who may file, who rules, where forfeited bonds go and what a bond costs are as last set, within bounds:
      a challenge period of an hour to 7 days, a positive floor, a share of at most 5% with a floor, and a
      route's bond cleared by a zero floor. The wrapped native token is set once. */
  lemma SettingsAreStored(s: State, act: Action, now: u64)
    requires IsSetting(act) && Accepted(s, act, now)
    ensures act.SetParams? ==> 3_600 <= act.params.challengePeriod <= 604_800 && 0 < act.params.bondFloor <= I128_MAX
    ensures act.SetBondConfig? ==>
      if act.config.minBond == 0 then act.config.bondBps == 0 else act.config.bondBps <= 500 && act.config.minBond <= I128_MAX
    ensures var g, n := s.settings, Step(s, act, now).settings;
            && n.escrows == (if !act.SetEscrow? then g.escrows
                             else if act.allowed then g.escrows + {act.who} else g.escrows - {act.who})
            && n.arbiter == (if act.SetArbiter? then Some(act.who) else g.arbiter)
            && n.feePool == (if act.SetFeePool? then Some(act.who) else g.feePool)
            && n.params == (if act.SetParams? then g.params[act.chain := act.params] else g.params)
            && n.bondConfigs == (if !act.SetBondConfig? then g.bondConfigs
                                 else if act.config.minBond == 0 then g.bondConfigs - {(act.asset, act.chain)}
                                 else g.bondConfigs[(act.asset, act.chain) := act.config])
    ensures Step(s, act, now) == s.(settings := Step(s, act, now).settings)
  {
  }
}
