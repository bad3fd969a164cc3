/** The agent account's data and calls (`agent-account`): policies, volume rows, guard rails,
    announced calls. The account's own address and the called functions' names are values; an
    argument list is one of the shapes the account decodes, or one it cannot. */
module Account {
  import opened Numbers
  import opened Wrappers
  import opened RateLimit
  import opened Scaling

  type Address = int
  type AgentId = int
  /** A 32-byte token id; 0 is the zero id. */
  type Token = int
  type Identity = int
  type AdId = string

  const MAX_WHITELIST_TOKENS: nat := 16
  const MAX_TARGETS: nat := 2
  const MAX_AD_SCOPE: nat := 16
  const MAX_AD_ID_BYTES: nat := 512
  const MAX_GUARD_DELAY: nat := 30 * 86_400
  const MIN_GUARD_WINDOW: nat := 3_600
  const MAX_VALID_UNTIL: nat := 0x1_0000_0000_0000
  const MAX_GUARDED_ADS: nat := 16

  /** Function names. `Other` is every name the account does not know. */
  datatype Fn =
    | LockForOrder | WithdrawFromAd | CloseAd | SetGuardRail | SetSettlementSigner
    | Upgrade | SetPolicy | SetAccountLimit | SetTargets | Sweep | ResumeSettlement
    | CreateAd | FundAd | HaltSettlement | Dispute | RespondToDispute | FinalizeDispute
    | ClaimCancel | FinalizeCancel | CancelNeverLocked | RepinOrder | Unlock
    | PresentSettled | RecordSettled | Claim
    | Transfer | TransferFrom | Approve | Burn | BurnFrom
    | Other(name: int)

  /** The calls an owner announces on a guarded ad. */
  const AD_ACTIONS: seq<Fn> := [WithdrawFromAd, CloseAd, LockForOrder, SetGuardRail, SetSettlementSigner]

  /** The account-wide calls an owner announces. */
  const ACCOUNT_ACTIONS: seq<Fn> := [Upgrade, SetPolicy, SetAccountLimit, SetTargets, Sweep, ResumeSettlement]

  /** The escrow functions that stay instant while any ad is guarded. */
  const INSTANT_CALLS: seq<Fn> := [
    CreateAd, FundAd, HaltSettlement, Dispute, RespondToDispute, FinalizeDispute, ClaimCancel,
    FinalizeCancel, CancelNeverLocked, RepinOrder, Unlock, PresentSettled, RecordSettled, Claim]

  predicate IsTokenFunction(fn: Fn) {
    fn.Transfer? || fn.TransferFrom? || fn.Approve? || fn.Burn? || fn.BurnFrom?
  }

  datatype TokenLimit = TokenLimit(token: Token, maxPerOrder: u128, rate: Limit)

  datatype TokenBucket = TokenBucket(token: Token, bucket: Bucket)

  datatype AgentPolicy = AgentPolicy(
    allowedAction: Fn,
    adTokens: seq<TokenLimit>,
    orderTokens: seq<Token>,
    validUntil: u64,
    revoked: bool,
    settlementSigner: Identity,
    adScope: Option<seq<AdId>>,
    buckets: seq<TokenBucket>)

  datatype AccountVolume = AccountVolume(limit: Limit, bucket: Bucket)

  type Volumes = map<Token, AccountVolume>

  datatype GuardRail = GuardRail(threshold: u128, delay: u64, window: u64, rate: Limit, bucket: Bucket)

  /** The keys of a lock's order that only the agent path reads. */
  datatype Reach = Reach(adCreator: Address, settlementSigner: Identity, adToken: Token, orderToken: Token)

  /** A call's argument list, by its decoded shape. A lock's `reach` is `None` when one of those
      keys is missing or mistyped; `rest` stands for everything no check reads. */
  datatype Args =
    | WithdrawArgs(ad: AdId, amount: u128, to: Address)
    | CloseArgs(ad: AdId, to: Address)
    | LockArgs(ad: AdId, amount: u128, orderDecimals: u32, adDecimals: u32, reach: Option<Reach>, rest: int)
    | RailArgs(ad: AdId, rail: Option<GuardRail>)
    | SignerArgs(ad: AdId, identity: Identity)
    | UpgradeArgs(hash: int)
    | PolicyArgs(agent: AgentId, action: Fn, adTokens: seq<TokenLimit>, orderTokens: seq<Token>,
                 validUntil: u64, signer: Identity, adScope: Option<seq<AdId>>)
    | LimitArgs(token: Token, limit: Limit)
    | TargetsArgs(targets: seq<Address>)
    | SweepArgs(asset: Address, to: Address, amount: u128)
    | ResumeArgs(maker: Address)
    | OtherArgs(raw: int)

  datatype Scope = Ad(ad: AdId) | Whole

  /** Where a pending announcement is stored. */
  datatype Row = Row(scope: Scope, fn: Fn)

  /** One announced call: bound to its exact arguments (the commitment is injective). */
  datatype Schedule = Schedule(args: Args, readyAt: u64, expiresAt: u64)

  type Schedules = map<Row, Schedule>
  type Rails = map<AdId, GuardRail>

  datatype Error =
    | BadTargets | TargetNotAllowed | BadPolicy | AgentRevoked | NoVolumeLimit | BadGuardRail
    | GuardRailOutOfBounds | GuardRailArchived | NoGuardRail | NotScheduled | AdNotClosed
    | DisarmLowersTimelock | BadArgs | ActionNotAllowed | ScopeMismatch | NoPolicyForAgent
    | PolicyExpired | UnsupportedContext | SettlementSignerMismatch | TokenNotAllowed | AdNotAllowed
    | CapExceeded | VolumeExceeded | FunctionNotAllowed | CallFailed | Overflow

  function ActionsFor(scope: Scope): seq<Fn> {
    if scope.Ad? then AD_ACTIONS else ACCOUNT_ACTIONS
  }

  /** An ad-scope call, decoded in its own shape: the ad it names and the amount the threshold reads. */
  function DecodeAdCall(fn: Fn, args: Args): Result<(AdId, nat), Error> {
    match fn
    case WithdrawFromAd => if args.WithdrawArgs? then Ok((args.ad, args.amount)) else Err(BadArgs)
    case CloseAd => if args.CloseArgs? then Ok((args.ad, 0)) else Err(BadArgs)
    case LockForOrder =>
      if !args.LockArgs? then Err(BadArgs)
      else (match Scale(args.amount, args.orderDecimals, args.adDecimals)
            case Ok(v) => Ok((args.ad, v))
            case Err(_) => Err(BadArgs))
    case SetGuardRail => if args.RailArgs? then Ok((args.ad, 0)) else Err(BadArgs)
    case SetSettlementSigner => if args.SignerArgs? then Ok((args.ad, 0)) else Err(BadArgs)
    case _ => Err(ActionNotAllowed)
  }

  /** An account-scope call's arguments, in the call's own shape. */
  function CheckAccountCall(fn: Fn, args: Args): Result<(), Error> {
    match fn
    case Upgrade => if args.UpgradeArgs? then Ok(()) else Err(BadArgs)
    case SetTargets => if args.TargetsArgs? then Ok(()) else Err(BadArgs)
    case SetAccountLimit => if args.LimitArgs? then Ok(()) else Err(BadArgs)
    case ResumeSettlement => if args.ResumeArgs? then Ok(()) else Err(BadArgs)
    case Sweep => if args.SweepArgs? then Ok(()) else Err(BadArgs)
    case SetPolicy =>
      if !args.PolicyArgs? then Err(BadArgs) else if args.agent == 0 then Err(BadPolicy) else Ok(())
    case _ => Err(ActionNotAllowed)
  }

  lemma AdActionList(fn: Fn)
    ensures fn in AD_ACTIONS <==>
      fn.WithdrawFromAd? || fn.CloseAd? || fn.LockForOrder? || fn.SetGuardRail? || fn.SetSettlementSigner?
  {
    assert AD_ACTIONS[0].WithdrawFromAd? && AD_ACTIONS[1].CloseAd? && AD_ACTIONS[2].LockForOrder?;
    assert AD_ACTIONS[3].SetGuardRail? && AD_ACTIONS[4].SetSettlementSigner?;
  }

  lemma AccountActionList(fn: Fn)
    ensures fn in ACCOUNT_ACTIONS <==>
      fn.Upgrade? || fn.SetPolicy? || fn.SetAccountLimit? || fn.SetTargets? || fn.Sweep? || fn.ResumeSettlement?
  {
    assert ACCOUNT_ACTIONS[0].Upgrade? && ACCOUNT_ACTIONS[1].SetPolicy? && ACCOUNT_ACTIONS[2].SetAccountLimit?;
    assert ACCOUNT_ACTIONS[3].SetTargets? && ACCOUNT_ACTIONS[4].Sweep? && ACCOUNT_ACTIONS[5].ResumeSettlement?;
  }

  /** Which calls can ever be announced: exactly the actions enumerated for the scope, in their
      own shape. Nothing else can leave a pending row that clearing the scope would miss. */
  lemma OnlyListedActions(fn: Fn, args: Args)
    ensures fn in AD_ACTIONS <==> DecodeAdCall(fn, args) != Err(ActionNotAllowed)
    ensures fn in ACCOUNT_ACTIONS <==> CheckAccountCall(fn, args) != Err(ActionNotAllowed)
  {
    AdActionList(fn);
    AccountActionList(fn);
  }
}
