/** The older, ledger-only donation canister (src/index.ts): no
    initialization gate and no network choice; every donation goes through
    the ICP ledger. Its `getCoffee` and `deleteCoffee` are
    `RecordStore.GetCoffee` and `RecordStore.DeleteCoffee`, and `getCoffees`
    lists `RecordStore.ValuesOf`. */
module LedgerOnlyCanister {
  import opened Outcomes
  import opened CoffeeTypes
  import RecordStore
  import opened Payment

  /** The ledger's id, used also as the canister's own account. */
  const CanisterAddress := "bkyz2-fmaaa-aaaaa-qaaaq-cai"

  /** The principal the owner object is built from at module load. */
  const OwnerText := "bnz7o-iuaaa-aaaaa-qaaaa-cai"

  /** The owner object: the configured principal, with an object identity
      fixed when the module was loaded. */
  function Owner(objectId: nat): PrincipalRef {
    PrincipalRef(objectId, Principal(OwnerText))
  }

  /** `sendCoffee(payload)`: `depositCoffee` checks the caller's balance,
      then asks the ledger for a transfer to the canister's address; unless
      it traps, a record is filed, whatever the ledger answered. The
      transfer request names no sender (`from_subaccount` is empty), so the
      ledger debits the account of whoever makes the call: the canister
      itself, not the donor. */
  function SendCoffee(store: RecordStore.Store, caller: PrincipalRef, payload: CoffeePayload, replies: Replies)
    : (r: Step<RecordStore.Store, Coffee>)
    ensures !r.outcome.Err?
    ensures |r.calls| >= 2 && r.calls[..2] == [LedgerAccountBalance(caller.principal.text), LedgerTransferFee]
    ensures MovesLedgerFunds(r.calls) <==> Funded(replies.accountBalance, payload.amount)
    ensures r.outcome.Trap? <==> !Funded(replies.accountBalance, payload.amount)
    ensures r.outcome.Trap? ==> r.state == store && r.outcome.reason == FundFirstMessage && |r.calls| == 2
    ensures r.outcome.Ok? ==>
              && r.outcome.value == RecordStore.NewRecord(replies.freshId, replies.time, payload)
              && r.state == RecordStore.Insert(store, r.outcome.value)
              && r.calls == [LedgerAccountBalance(caller.principal.text), LedgerTransferFee,
                             TransferCall(payload.amount, replies.transferFee, CanisterAddress)]
  {
    var deposit := DepositCoffee(CanisterAddress, caller.principal, payload.amount, replies);
    if deposit.outcome.Trap? then
      Step(Trap(deposit.outcome.reason), store, deposit.calls)
    else
      var c := RecordStore.NewRecord(replies.freshId, replies.time, payload);
      Step(Ok(c), RecordStore.Insert(store, c), deposit.calls)
  }

  /** `withdrawFunds(to, amount)`: owner only; the canister's own balance
      must exceed `amount`; the ledger call's result is returned as it came. */
  function WithdrawFunds(ownerObject: nat, store: RecordStore.Store, caller: PrincipalRef, to: string,
                         amount: Nat64, replies: Replies)
    : (r: Step<RecordStore.Store, TransferResult>)
    ensures r.state == store
    ensures !IsOwner(caller, Owner(ownerObject)) ==> r.outcome == Trap(OnlyOwnerMessage) && r.calls == []
    ensures IsOwner(caller, Owner(ownerObject)) ==>
              && |r.calls| >= 2
              && r.calls[..2] == [LedgerAccountBalance(CanisterAddress), LedgerTransferFee]
              && (MovesLedgerFunds(r.calls) <==> Funded(replies.accountBalance, amount))
              && (r.outcome.Trap? <==> !Funded(replies.accountBalance, amount))
              && (r.outcome.Trap? ==> r.outcome.reason == FundFirstMessage && |r.calls| == 2)
              && (!r.outcome.Trap? ==>
                    && r.outcome == replies.ledgerTransfer.ToOutcome()
                    && |r.calls| == 3 && r.calls[2] == TransferCall(amount, replies.transferFee, to))
  {
    if !IsOwner(caller, Owner(ownerObject)) then
      Step(Trap(OnlyOwnerMessage), store, [])
    else
      var t := GatedTransfer(CanisterAddress, to, amount, replies);
      if t.outcome.Trap? then Step(Trap(t.outcome.reason), store, t.calls)
      else Step(t.outcome.value.ToOutcome(), store, t.calls)
  }

  /** One message to the ledger-only canister. */
  datatype Event =
    | Send(caller: PrincipalRef, coffee: CoffeePayload, replies: Replies)
    | Withdraw(caller: PrincipalRef, to: string, amount: Nat64, replies: Replies)
    | Get(id: string)
    | List
    | Delete(id: string)

  /** The only key a message may change: the fresh id of a donation, or the
      id being deleted. */
  function TouchedKey(e: Event): Option<string> {
    match e
    case Send(_, _, replies) => Some(replies.freshId)
    case Delete(id) => Some(id)
    case _ => None
  }

  /** The store after one message. Every entry other than the message's own
      key is left exactly as it was, and a store keyed by id stays so. */
  function Apply(ownerObject: nat, store: RecordStore.Store, e: Event): (s': RecordStore.Store)
    ensures forall k :: Some(k) != TouchedKey(e) && k in store ==> k in s' && s'[k] == store[k]
    ensures forall k :: Some(k) != TouchedKey(e) && k in s' ==> k in store
    ensures RecordStore.KeyedById(store) ==> RecordStore.KeyedById(s')
  {
    match e
    case Send(caller, p, replies) => SendCoffee(store, caller, p, replies).state
    case Withdraw(caller, to, amount, replies) => WithdrawFunds(ownerObject, store, caller, to, amount, replies).state
    case Get(_) => store
    case List => store
    case Delete(id) => RecordStore.DeleteCoffee(store, id).state
  }

  /** The store after the messages `evs`, one after the other. */
  function Run(ownerObject: nat, store: RecordStore.Store, evs: seq<Event>): RecordStore.Store
    decreases |evs|
  {
    if evs == [] then store else Run(ownerObject, Apply(ownerObject, store, evs[0]), evs[1..])
  }

  /** Every message sequence keeps each record filed under its own id, so
      `getCoffees` never lists two records with the same id. */
  lemma {:induction false} RunKeepsKeyedById(ownerObject: nat, store: RecordStore.Store, evs: seq<Event>)
    requires RecordStore.KeyedById(store)
    ensures RecordStore.KeyedById(Run(ownerObject, store, evs))
    ensures RecordStore.DistinctIds(RecordStore.ValuesOf(Run(ownerObject, store, evs)))
    decreases |evs|
  {
    if evs != [] {
      RunKeepsKeyedById(ownerObject, Apply(ownerObject, store, evs[0]), evs[1..]);
    }
  }

  /** A record no message of `evs` touches survives them unchanged. */
  lemma {:induction false} UntouchedRecordsSurvive(ownerObject: nat, store: RecordStore.Store,
                                                   evs: seq<Event>, k: string)
    requires k in store
    requires forall i :: 0 <= i < |evs| ==> TouchedKey(evs[i]) != Some(k)
    ensures k in Run(ownerObject, store, evs) && Run(ownerObject, store, evs)[k] == store[k]
    decreases |evs|
  {
    if evs != [] {
      UntouchedRecordsSurvive(ownerObject, Apply(ownerObject, store, evs[0]), evs[1..], k);
    }
  }

  /** `sendCoffee` does not look at the ledger's reply: a rejected call or a
      refused transfer files the record all the same. */
  lemma SendIgnoresTransferReply(store: RecordStore.Store, caller: PrincipalRef, payload: CoffeePayload,
                                 replies: Replies, other: CallResult<TransferResult>)
    ensures SendCoffee(store, caller, payload, replies.(ledgerTransfer := other))
            == SendCoffee(store, caller, payload, replies)
  {
  }

  /** A caller whose balance equals the amount is refused, and nothing is filed. */
  lemma SendRefusesExactBalance(store: RecordStore.Store, caller: PrincipalRef, payload: CoffeePayload,
                                replies: Replies)
    requires replies.accountBalance == Some(payload.amount)
    ensures SendCoffee(store, caller, payload, replies).outcome == Trap(FundFirstMessage)
    ensures SendCoffee(store, caller, payload, replies).state == store
  {
  }

  /** With a fresh id, a successful donation adds exactly one record, which
      reads back with the payload's name and message and the current time;
      deleting it restores the store. */
  lemma SendThenGetAndDelete(store: RecordStore.Store, caller: PrincipalRef, payload: CoffeePayload,
                             replies: Replies)
    requires replies.freshId !in store
    requires Funded(replies.accountBalance, payload.amount)
    ensures var s' := SendCoffee(store, caller, payload, replies).state;
            var c := Coffee(replies.freshId, payload.name, replies.time, payload.message);
            && |s'| == |store| + 1
            && RecordStore.GetCoffee(s', replies.freshId) == Ok(c)
            && RecordStore.DeleteCoffee(s', replies.freshId) == Step(Ok(c), store, [])
  {
    var c := Coffee(replies.freshId, payload.name, replies.time, payload.message);
    RecordStore.InsertFreshGrowsByOne(store, c);
    RecordStore.DeleteUndoesInsert(store, c);
  }

  /** The ledger transfer a funded donation submits names no donor: it is
      the same for every caller, and it is the very transfer a funded owner
      withdrawal to the canister's own address submits. */
  lemma DepositTransferNamesNoDonor(ownerObject: nat, store: RecordStore.Store, caller: PrincipalRef,
                                    other: PrincipalRef, payload: CoffeePayload, replies: Replies)
    requires Funded(replies.accountBalance, payload.amount)
    ensures var send := SendCoffee(store, caller, payload, replies);
            var withdraw := WithdrawFunds(ownerObject, store, Owner(ownerObject), CanisterAddress,
                                          payload.amount, replies);
            && send.calls[2] == SendCoffee(store, other, payload, replies).calls[2]
            && send.calls[2] == withdraw.calls[2]
            && send.calls[2].to == CanisterAddress
  {
  }

  /** A caller object other than the owner object is refused before any
      ledger call, even when it denotes the owner's principal. `ic.caller()`
      builds a new object on every call, so this is the case every real
      caller is in. */
  lemma WithdrawRefusesOtherObjects(ownerObject: nat, objectId: nat, store: RecordStore.Store, to: string,
                                    amount: Nat64, replies: Replies)
    requires objectId != ownerObject
    ensures WithdrawFunds(ownerObject, store, PrincipalRef(objectId, Principal(OwnerText)), to, amount, replies)
            == Step(Trap(OnlyOwnerMessage), store, [])
  {
  }
}
