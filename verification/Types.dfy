/** Wire types of facilitator/types.go. */
module Types {
  import opened Wrappers

  const TWO_TO_63 := 0x8000_0000_0000_0000
  const TWO_TO_64 := 0x1_0000_0000_0000_0000

  type uint64 = x: int | 0 <= x < TWO_TO_64
  type int64 = x: int | -TWO_TO_63 <= x < TWO_TO_63

  /** Conversions and subtraction wrap around. */
  function ToUint64(x: int64): uint64 {
    if x < 0 then x + TWO_TO_64 else x
  }

  function ToInt64(x: uint64): int64 {
    if x < TWO_TO_63 then x else x - TWO_TO_64
  }

  function Sub64(x: uint64, y: uint64): uint64 {
    (x - y) % TWO_TO_64
  }

  const SCHEME := "exact_cosmos_authz"

  datatype Authorization = Authorization(
    from: string,
    to: string,
    denom: string,
    amount: string,
    nonce: string,
    validAfter: uint64,
    validBefore: uint64,
    resource: string,
    chainId: string)

  datatype CosmosPayload = CosmosPayload(
    from: string,
    publicKey: string,
    signature: string,
    authorization: Authorization)

  datatype PaymentPayload = PaymentPayload(
    x402Version: int,
    scheme: string,
    network: string,
    payload: CosmosPayload)

  datatype RequirementsExtra = RequirementsExtra(
    facilitator: string,
    chainId: string,
    decimals: nat,
    symbol: string)

  datatype PaymentRequirements = PaymentRequirements(
    scheme: string,
    network: string,
    maxAmountRequired: string,
    asset: string,
    payTo: string,
    resource: string,
    description: string,
    mimeType: string,
    maxTimeoutSeconds: uint64,
    extra: RequirementsExtra)

  /** Body of both /verify and /settle. */
  datatype PaymentRequest = PaymentRequest(
    payload: PaymentPayload,
    requirements: PaymentRequirements)
  {
    function Auth(): Authorization {
      payload.payload.authorization
    }
  }

  datatype ErrorCode =
    | InvalidSignature
    | InvalidAuthorization
    | NonceAlreadyUsed
    | ExpiredAuthorization
    | InsufficientGrant
    | InsufficientFunds
    | BroadcastFailed
    | Unexpected

  datatype SettleResponse = SettleResponse(
    success: bool,
    errorReason: Option<ErrorCode>,
    transaction: string,
    network: string,
    payer: string)
}
