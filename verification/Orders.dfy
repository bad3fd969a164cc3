/** What the escrow and the dispute module share about orders (`proofbridge_core::types`). The
    order hash is injective, so an order's signed parameters stand for its hash. */
module Orders {
  import opened Numbers
  import opened Wrappers
  import opened Scaling

  /** Addresses, token and chain ids, ad names: compared and looked up, never computed with. */
  type Id = int

  /** An address is an account's or a contract's; either has a 32-byte id. */
  datatype Address = AccountAddress(id: Id) | ContractAddress(id: Id)

  type Account = Id
  type AdId = Id
  type ChainId = Id
  /** A token id; the native marker stands for the wrapped native token. */
  type Token = Id
  /** The token contract that moves a token id's funds. */
  type Asset = Id

  const NATIVE: Token := 0xEEEE_EEEE_EEEE_EEEE_EEEE_EEEE_EEEE_EEEE_EEEE_EEEE_EEEE_EEEE_EEEE_EEEE_EEEE_EEEE

  function AssetOf(token: Token, wNative: Asset): Asset {
    if token == NATIVE then wNative else token
  }

  /** The signed parameters the ad leg's contracts read; `salt` is whatever else tells two orders apart. */
  datatype Order = Order(
    orderChainToken: Token,
    adChainToken: Token,
    amount: u128,
    bridger: Account,
    orderChainId: ChainId,
    srcOrderPortal: Id,
    orderRecipient: Account,
    adId: AdId,
    adCreator: Account,
    adRecipient: Account,
    salt: Id,
    orderDecimals: u32,
    adDecimals: u32,
    deadline: u64,
    adSettlementSigner: Account,
    lpFeeBps: u32,
    protocolFeeBps: u32)

  /** The signed amount in ad-chain units: what the lock reserves and a payout releases. */
  function AdAmount(o: Order): Result<nat, ScalingError> {
    Scale(o.amount, o.orderDecimals, o.adDecimals)
  }

  datatype Outcome = NoRuling | MutualRefund | TradeProceeds | BridgerForfeit | MakerForfeit
}
