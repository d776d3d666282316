/** The ledger-side decision rules both canisters share: the fee default,
    the strict funding check, the balance-gated transfer that `depositCoffee`
    and the mainnet `withdrawFunds` perform, and the owner guard. */
module Payment {
  import opened Outcomes
  import opened CoffeeTypes

  /** Fee used when the ledger reports none, or reports 0. */
  const DefaultFee: Nat64 := 10000

  const FundFirstMessage := "Fund your account first"
  const OnlyOwnerMessage := "Only owner can withdraw funds"

  /** `transfer_fee ? transfer_fee : 10000n`: a bigint is falsy exactly when
      it is 0, so a missing fee and a reported fee of 0 both become the
      default. */
  function FeeOf(reported: Option<Nat64>): (fee: Nat64)
    ensures fee > 0
    ensures fee == DefaultFee || reported == Some(fee)
    ensures reported.Some? && reported.value != 0 ==> fee == reported.value
  {
    match reported
    case Some(f) => if f != 0 then f else DefaultFee
    case None => DefaultFee
  }

  /** `balance !== undefined && balance > amount`. */
  function Funded(balance: Option<Nat64>, amount: Nat64): (ok: bool)
    ensures balance.None? ==> !ok
    ensures balance == Some(amount) ==> !ok
    ensures ok <==> balance.Some? && balance.value >= amount + 1
  {
    balance.Some? && balance.value > amount
  }

  /** The transfer a funded request submits: memo 0, exactly `amount`, the
      resolved fee on top, to `to`. */
  function TransferCall(amount: Nat64, reportedFee: Option<Nat64>, to: string): Call {
    LedgerTransfer(0, amount, FeeOf(reportedFee), to)
  }

  /** True when some call of `calls` is a ledger transfer. */
  predicate MovesLedgerFunds(calls: seq<Call>) {
    exists i :: 0 <= i < |calls| && calls[i].LedgerTransfer?
  }

  /** Read the balance of `account`, read the fee, and, only if the balance
      strictly exceeds `amount`, submit the transfer to `to` and hand back
      the ledger call's result unchanged. Otherwise trap. */
  function GatedTransfer(account: string, to: string, amount: Nat64, replies: Replies)
    : (r: Effect<CallResult<TransferResult>>)
    ensures |r.calls| >= 2
    ensures r.calls[0] == LedgerAccountBalance(account) && r.calls[1] == LedgerTransferFee
    ensures MovesLedgerFunds(r.calls) <==> Funded(replies.accountBalance, amount)
    ensures r.outcome.Trap? <==> !Funded(replies.accountBalance, amount)
    ensures r.outcome.Trap? ==> r.outcome.reason == FundFirstMessage && |r.calls| == 2
    ensures !r.outcome.Trap? ==>
              r.outcome == Ok(replies.ledgerTransfer)
              && r.calls == [LedgerAccountBalance(account), LedgerTransferFee,
                             LedgerTransfer(0, amount, FeeOf(replies.transferFee), to)]
  {
    var queries := [LedgerAccountBalance(account), LedgerTransferFee];
    if Funded(replies.accountBalance, amount) then
      var calls := queries + [TransferCall(amount, replies.transferFee, to)];
      assert calls[2].LedgerTransfer?;
      Effect(Ok(replies.ledgerTransfer), calls)
    else
      Effect(Trap(FundFirstMessage), queries)
  }

  /** `depositCoffee(amount)`: the caller's own ledger balance must exceed
      `amount`; the transfer goes to the canister's address. */
  function DepositCoffee(canisterAddress: string, caller: Principal, amount: Nat64, replies: Replies)
    : (r: Effect<CallResult<TransferResult>>)
    ensures |r.calls| >= 2 && r.calls[..2] == [LedgerAccountBalance(caller.text), LedgerTransferFee]
    ensures MovesLedgerFunds(r.calls) <==> Funded(replies.accountBalance, amount)
    ensures r.outcome.Trap? <==> !Funded(replies.accountBalance, amount)
    ensures r.outcome.Trap? ==> r.outcome.reason == FundFirstMessage && |r.calls| == 2
    ensures !r.outcome.Trap? ==> r.outcome == Ok(replies.ledgerTransfer) && |r.calls| == 3
                                 && r.calls[2] == TransferCall(amount, replies.transferFee, canisterAddress)
  {
    GatedTransfer(caller.text, canisterAddress, amount, replies)
  }

  /** The owner guard `ic.caller() !== owner`: JavaScript compares objects
      by reference, so the guard passes only for the very object `owner`,
      whatever principal the two objects denote. */
  function IsOwner(caller: PrincipalRef, owner: PrincipalRef): (ok: bool)
    ensures caller.objectId != owner.objectId ==> !ok
    ensures caller.objectId == owner.objectId ==> ok
  {
    caller.objectId == owner.objectId
  }

  /** A balance equal to the amount is refused, and so is an unknown one. */
  lemma FundingIsStrict(balance: Nat64, amount: Nat64)
    ensures !Funded(Some(amount), amount)
    ensures !Funded(None, amount)
    ensures Funded(Some(balance), amount) <==> balance >= amount + 1
  {
  }

  /** The funding check ignores the fee: a balance one above the amount
      lets the transfer through whatever fee the ledger reports, even though
      that balance cannot pay amount plus fee once the fee exceeds 1. */
  lemma FeeNotCountedInFundingCheck(account: string, to: string, amount: Nat64, replies: Replies)
    requires amount + 1 < Nat64Limit
    requires replies.accountBalance == Some(amount + 1)
    ensures var t := GatedTransfer(account, to, amount, replies);
            && !t.outcome.Trap?
            && t.calls[2] == TransferCall(amount, replies.transferFee, to)
            && (FeeOf(replies.transferFee) > 1 ==>
                  replies.accountBalance.value < t.calls[2].amount + t.calls[2].fee)
  {
  }

  /** A reported fee of 0 is replaced by the default just like a missing one. */
  lemma ZeroFeeBecomesDefault()
    ensures FeeOf(Some(0)) == FeeOf(None) == DefaultFee
  {
  }
}
