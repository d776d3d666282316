/** Record shapes of the donation canisters, the inter-canister calls they
    issue, and the replies those calls bring back.

    The Candid integer widths are kept as subset types; no endpoint does
    arithmetic on them, so no wrap-around needs modelling. */
module CoffeeTypes {
  import opened Outcomes

  const Nat64Limit: int := 0x1_0000_0000_0000_0000

  type Nat64 = x: int | 0 <= x < Nat64Limit

  type Int8 = x: int | -128 <= x < 128

  /** A principal as its textual form (`toText()` / `toString()`). */
  datatype Principal = Principal(text: string)

  /** A `Principal` object as JavaScript sees it: an object with an identity
      of its own and the principal it denotes. Two objects may denote the
      same principal and still be different objects. */
  datatype PrincipalRef = PrincipalRef(objectId: nat, principal: Principal)

  /** A stored donation. */
  datatype Coffee = Coffee(id: string, name: string, timestamp: Nat64, message: string)

  /** The argument of `sendCoffee`. */
  datatype CoffeePayload = CoffeePayload(name: string, message: string, amount: Nat64)

  /** The argument of `initialize`: 0 selects the local token canister. */
  datatype InitPayload = InitPayload(network: Int8)

  /** The argument of `walletBalanceLocal`: "" means the caller's own account. */
  datatype AddressPayload = AddressPayload(address: string)

  /** The ledger's answer to a transfer: the block it was recorded in, or the
      ledger's reason for refusing it. */
  datatype TransferResult = TransferOk(blockIndex: Nat64) | TransferErr(reason: string)

  /** An inter-canister call, in the order the endpoint issues it.
      Ledger addresses are kept textual; their binary encoding is not modelled. */
  datatype Call =
    | TokenInitializeSupply(name: string, originalAddress: string, ticker: string, totalSupply: Nat64)
    | TokenTransfer(from: string, to: string, amount: Nat64)
    | TokenBalance(account: string)
    | LedgerAccountBalance(address: string)
    | LedgerTransferFee
      /** `from_subaccount` and `created_at_time` are always absent. */
    | LedgerTransfer(memo: Nat64, amount: Nat64, fee: Nat64, to: string)

  /** The answers the environment gives to the calls above, and the other
      inputs the environment supplies (clock, generated identifier). Each
      endpoint calls each service method at most once, so one answer per
      method suffices. */
  datatype Replies = Replies(
    accountBalance: Option<Nat64>,            // `(await getAccountBalance(…)).Ok?.e8s`
    transferFee: Option<Nat64>,               // `(await getTransferFee()).Ok?.transfer_fee.e8s`
    ledgerTransfer: CallResult<TransferResult>,
    tokenTransfer: CallResult<bool>,
    tokenBalance: CallResult<Nat64>,
    time: Nat64,                              // `ic.time()`
    freshId: string                           // `uuidv4()`
  )

  /** What one endpoint invocation does: how it ends, the state after it,
      and the inter-canister calls it issued. */
  datatype Step<S, T> = Step(outcome: Outcome<T>, state: S, calls: seq<Call>)

  /** The same for a helper that touches no canister state. */
  datatype Effect<T> = Effect(outcome: Outcome<T>, calls: seq<Call>)
}
