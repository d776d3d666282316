/** The two-backend donation canister (src/coffeeCanister/index.ts): a
    local test-token canister or the ICP ledger, chosen by `initialize`.

    Each endpoint is one atomic step: the replies of the inter-canister calls
    it awaits are inputs (`Replies`), and the step reports the calls it issued
    in order. Interleaving of other messages at those awaits is not modelled. */
module CoffeeCanister {
  import opened Outcomes
  import opened CoffeeTypes
  import RecordStore
  import opened Payment

  /** Deployment settings the source leaves as placeholders: the address
      used both as the ledger's id and as the canister's own account, the
      owner object, and the text `ic.caller.toString()` yields (the source
      of the `caller` function, not any principal). */
  datatype Config = Config(canisterAddress: string, owner: PrincipalRef, callerFunctionText: string)

  /** Module state. `initialized` is declared and never assigned, so it
      starts (and stays) falsy; `network` starts `undefined`. */
  datatype State = State(initialized: bool, network: Option<Int8>, store: RecordStore.Store)

  function Init(): State {
    State(false, None, map[])
  }

  /** `network == 0`; an `undefined` network is not 0, so it selects the ledger. */
  function IsLocal(s: State): (ok: bool)
    ensures ok ==> s.network.Some? && s.network.value == 0
    ensures s.network == Some(0) ==> ok
    ensures s.network == None ==> !ok
  {
    s.network == Some(0)
  }

  const AlreadyInitializedMessage := "Canister already initialized"
  const InitializedMessage := "Canister Initialized"
  const NotInitializedMessage := "Canister not yet initialized"
  const FailedToDonateMessage := "Failed to Donate"
  const SuccessMessage := "Successful"
  const FaucetDrainMessage := "To prevent faucet drain, please utilize your existing tokens"

  const InitialSupply: Nat64 := 1_000_000_000_000
  const FaucetAmount: Nat64 := 100

  /** The test-token supply `initialize` seeds to the canister's address. */
  function SeedSupply(cfg: Config): Call {
    TokenInitializeSupply("ICToken", cfg.canisterAddress, "ICT", InitialSupply)
  }

  /** `initialize(payload)`: network 0 selects the local token canister and
      seeds its supply; every other value selects the ledger. */
  function Initialize(cfg: Config, s: State, payload: InitPayload): (r: Step<State, string>)
    ensures r.outcome.Trap? <==> s.initialized
    ensures r.outcome.Trap? ==> r == Step(Trap(AlreadyInitializedMessage), s, [])
    ensures !r.outcome.Trap? ==>
              && r.outcome == Ok(InitializedMessage)
              && r.state.initialized == s.initialized
              && r.state.store == s.store
              && (r.state.network == Some(0) || r.state.network == Some(1))
              && (IsLocal(r.state) <==> payload.network == 0)
    ensures r.calls != [] <==> !s.initialized && payload.network == 0
    ensures r.calls != [] ==> r.calls == [SeedSupply(cfg)]
  {
    if s.initialized then
      Step(Trap(AlreadyInitializedMessage), s, [])
    else if payload.network == 0 then
      Step(Ok(InitializedMessage), s.(network := Some(0)), [SeedSupply(cfg)])
    else
      Step(Ok(InitializedMessage), s.(network := Some(1)), [])
  }

  /** Files the donation record built from the payload and the
      environment's id and time, and returns it. */
  function Record(s: State, payload: CoffeePayload, replies: Replies, calls: seq<Call>): Step<State, Coffee> {
    var c := RecordStore.NewRecord(replies.freshId, replies.time, payload);
    Step(Ok(c), s.(store := RecordStore.Insert(s.store, c)), calls)
  }

  /** `sendCoffee(payload)`: pay, then file a record. Locally the token
      transfer must answer `true`; on the ledger `depositCoffee` must not
      trap, and what it returns is ignored. */
  function SendCoffee(cfg: Config, s: State, caller: PrincipalRef, payload: CoffeePayload, replies: Replies)
    : (r: Step<State, Coffee>)
    ensures !s.initialized ==> r == Step(Trap(NotInitializedMessage), s, [])
    ensures !r.outcome.Err?
    ensures r.outcome.Trap? ==> r.state == s
    ensures r.outcome.Ok? ==>
              && r.outcome.value == RecordStore.NewRecord(replies.freshId, replies.time, payload)
              && r.state == s.(store := RecordStore.Insert(s.store, r.outcome.value))
    ensures s.initialized && IsLocal(s) ==>
              && r.calls == [TokenTransfer(caller.principal.text, cfg.canisterAddress, payload.amount)]
              && (r.outcome.Ok? <==> replies.tokenTransfer == CallOk(true))
              && (r.outcome.Trap? ==> r.outcome.reason == FailedToDonateMessage)
    ensures s.initialized && !IsLocal(s) ==>
              && |r.calls| >= 2
              && r.calls[..2] == [LedgerAccountBalance(caller.principal.text), LedgerTransferFee]
              && (r.outcome.Ok? <==> Funded(replies.accountBalance, payload.amount))
              && (MovesLedgerFunds(r.calls) <==> r.outcome.Ok?)
              && (r.outcome.Trap? ==> r.outcome.reason == FundFirstMessage && |r.calls| == 2)
              && (r.outcome.Ok? ==> r.calls == [LedgerAccountBalance(caller.principal.text), LedgerTransferFee,
                                                TransferCall(payload.amount, replies.transferFee, cfg.canisterAddress)])
  {
    if !s.initialized then
      Step(Trap(NotInitializedMessage), s, [])
    else if IsLocal(s) then
      var calls := [TokenTransfer(caller.principal.text, cfg.canisterAddress, payload.amount)];
      if replies.tokenTransfer.OkField() == Some(true) then Record(s, payload, replies, calls)
      else Step(Trap(FailedToDonateMessage), s, calls)
    else
      var deposit := DepositCoffee(cfg.canisterAddress, caller.principal, payload.amount, replies);
      if deposit.outcome.Trap? then Step(Trap(deposit.outcome.reason), s, deposit.calls)
      else Record(s, payload, replies, deposit.calls)
  }

  /** `withdrawFunds(to, amount)`: owner only. Locally the tokens go to the
      text of the `ic.caller` function, with no balance check and `to`
      unused; on the ledger the canister's balance must exceed `amount`,
      and any reply of the transfer call counts as success. */
  function WithdrawFunds(cfg: Config, s: State, caller: PrincipalRef, to: string, amount: Nat64, replies: Replies)
    : (r: Step<State, string>)
    ensures r.state == s
    ensures !IsOwner(caller, cfg.owner) ==> r.outcome == Trap(OnlyOwnerMessage) && r.calls == []
    ensures IsOwner(caller, cfg.owner) && IsLocal(s) ==>
              && r.calls == [TokenTransfer(cfg.canisterAddress, cfg.callerFunctionText, amount)]
              && (r.outcome.Ok? <==> replies.tokenTransfer == CallOk(true))
              && (r.outcome.Ok? ==> r.outcome.value == SuccessMessage)
              && (!r.outcome.Ok? ==> r.outcome == Trap(FailedToDonateMessage))
    ensures IsOwner(caller, cfg.owner) && !IsLocal(s) ==>
              && |r.calls| >= 2
              && r.calls[..2] == [LedgerAccountBalance(cfg.canisterAddress), LedgerTransferFee]
              && (MovesLedgerFunds(r.calls) <==> Funded(replies.accountBalance, amount))
              && (r.outcome.Trap? <==> !Funded(replies.accountBalance, amount))
              && (r.outcome.Trap? ==> r.outcome.reason == FundFirstMessage && |r.calls| == 2)
              && (r.outcome == Ok(SuccessMessage) <==> Funded(replies.accountBalance, amount) && replies.ledgerTransfer.CallOk?)
              && (r.outcome.Err? <==> Funded(replies.accountBalance, amount) && replies.ledgerTransfer.CallErr?)
              && (r.outcome.Err? ==> r.outcome.error == replies.ledgerTransfer.message)
              && (MovesLedgerFunds(r.calls) ==> |r.calls| == 3 && r.calls[2] == TransferCall(amount, replies.transferFee, to))
  {
    if !IsOwner(caller, cfg.owner) then
      Step(Trap(OnlyOwnerMessage), s, [])
    else if IsLocal(s) then
      var calls := [TokenTransfer(cfg.canisterAddress, cfg.callerFunctionText, amount)];
      if replies.tokenTransfer.OkField() == Some(true) then Step(Ok(SuccessMessage), s, calls)
      else Step(Trap(FailedToDonateMessage), s, calls)
    else
      var t := GatedTransfer(cfg.canisterAddress, to, amount, replies);
      if t.outcome.Trap? then Step(Trap(t.outcome.reason), s, t.calls)
      else if t.outcome.value.OkField().Some? then Step(Ok(SuccessMessage), s, t.calls)
      else Step(Err(t.outcome.value.message), s, t.calls)
  }

  /** `getFaucetTokens()`: a caller holding no tokens (or whose balance
      cannot be read) receives 100 from the canister's address; anyone
      holding some is refused. */
  function GetFaucetTokens(cfg: Config, s: State, caller: PrincipalRef, replies: Replies)
    : (r: Step<State, bool>)
    ensures r.state == s
    ensures |r.calls| >= 1 && r.calls[0] == TokenBalance(caller.principal.text)
    ensures r.outcome.Trap? <==> replies.tokenBalance.CallOk? && replies.tokenBalance.value > 0
    ensures r.outcome.Trap? ==> r.outcome.reason == FaucetDrainMessage && |r.calls| == 1
    ensures !r.outcome.Trap? ==>
              && r.calls == [TokenBalance(caller.principal.text),
                             TokenTransfer(cfg.canisterAddress, caller.principal.text, FaucetAmount)]
              && (r.outcome.Ok? <==> replies.tokenTransfer.CallOk?)
              && (r.outcome.Ok? ==> r.outcome.value == replies.tokenTransfer.value)
              && (r.outcome.Err? ==> r.outcome.error == replies.tokenTransfer.message)
  {
    var balance := replies.tokenBalance.OkField().GetOr(0);
    var query := [TokenBalance(caller.principal.text)];
    if balance > 0 then
      Step(Trap(FaucetDrainMessage), s, query)
    else
      Step(replies.tokenTransfer.ToOutcome(), s,
           query + [TokenTransfer(cfg.canisterAddress, caller.principal.text, FaucetAmount)])
  }

  /** `walletBalanceLocal(payload)`: the token balance of the given address,
      or of the caller when the address is empty. */
  function WalletBalanceLocal(s: State, caller: PrincipalRef, payload: AddressPayload, replies: Replies)
    : (r: Step<State, Nat64>)
    ensures r.state == s && !r.outcome.Trap?
    ensures r.outcome.Ok? <==> replies.tokenBalance.CallOk?
    ensures r.outcome.Ok? ==> r.outcome.value == replies.tokenBalance.value
    ensures r.outcome.Err? ==> r.outcome.error == replies.tokenBalance.message
    ensures |r.calls| == 1 && r.calls[0].TokenBalance?
    ensures payload.address != "" ==> r.calls[0].account == payload.address
    ensures payload.address == "" ==> r.calls[0].account == caller.principal.text
  {
    var address := if payload.address == "" then caller.principal.text else payload.address;
    Step(replies.tokenBalance.ToOutcome(), s, [TokenBalance(address)])
  }

  /** `getCoffee(id)`. */
  function GetCoffee(s: State, id: string): (r: Step<State, Coffee>)
    ensures r.state == s && r.calls == []
    ensures r.outcome.Ok? <==> id in s.store
    ensures r.outcome.Ok? ==> r.outcome.value == s.store[id]
    ensures !r.outcome.Ok? ==> r.outcome == Err(RecordStore.NotFoundMessage(id))
  {
    Step(RecordStore.GetCoffee(s.store, id), s, [])
  }

  /** `getCoffees()`: every stored record, once. */
  ghost function GetCoffees(s: State): (r: Step<State, seq<Coffee>>)
    ensures r.state == s && r.calls == [] && r.outcome.Ok?
    ensures |r.outcome.value| == |s.store|
    ensures forall c :: c in r.outcome.value <==> c in s.store.Values
    ensures RecordStore.KeyedById(s.store) ==> RecordStore.DistinctIds(r.outcome.value)
  {
    Step(Ok(RecordStore.ValuesOf(s.store)), s, [])
  }

  /** `deleteCoffee(id)`. */
  function DeleteCoffee(s: State, id: string): (r: Step<State, Coffee>)
    ensures r.calls == [] && !r.outcome.Trap?
    ensures r.state.initialized == s.initialized && r.state.network == s.network
    ensures r.outcome.Ok? <==> id in s.store
    ensures r.outcome.Ok? ==> r.outcome.value == s.store[id]
    ensures !r.outcome.Ok? ==> r.outcome == Err(RecordStore.NotDeletedMessage(id)) && r.state == s
    ensures r.state.store.Keys == s.store.Keys - {id}
    ensures forall k :: k in r.state.store ==> r.state.store[k] == s.store[k]
  {
    var d := RecordStore.DeleteCoffee(s.store, id);
    Step(d.outcome, s.(store := d.state), [])
  }

  /** One message to the canister, with the caller and the environment's
      replies it will see. */
  datatype Event =
    | Init(payload: InitPayload)
    | Send(caller: PrincipalRef, coffee: CoffeePayload, replies: Replies)
    | Withdraw(caller: PrincipalRef, to: string, amount: Nat64, replies: Replies)
    | Faucet(caller: PrincipalRef, replies: Replies)
    | WalletBalance(caller: PrincipalRef, address: AddressPayload, replies: Replies)
    | Get(id: string)
    | List
    | Delete(id: string)

  /** The reply of any endpoint. */
  datatype Reply =
    | TextReply(text: string)
    | CoffeeReply(coffee: Coffee)
    | CoffeesReply(coffees: seq<Coffee>)
    | BoolReply(flag: bool)
    | Nat64Reply(amount: Nat64)

  /** Dispatches one message. Whatever it is, a trap leaves the state as it
      was, nothing sets `initialized`, only `initialize` changes the network,
      and a store keyed by id stays keyed by id. */
  ghost function Apply(cfg: Config, s: State, e: Event): (r: Step<State, Reply>)
    ensures r.outcome.Trap? ==> r.state == s
    ensures r.state.initialized == s.initialized
    ensures !e.Init? ==> r.state.network == s.network
    ensures RecordStore.KeyedById(s.store) ==> RecordStore.KeyedById(r.state.store)
    ensures !s.initialized ==> r.state.store.Keys <= s.store.Keys
  {
    match e
    case Init(p) =>
      var t := Initialize(cfg, s, p);
      Step(t.outcome.Map(x => TextReply(x)), t.state, t.calls)
    case Send(caller, p, replies) =>
      var t := SendCoffee(cfg, s, caller, p, replies);
      Step(t.outcome.Map(x => CoffeeReply(x)), t.state, t.calls)
    case Withdraw(caller, to, amount, replies) =>
      var t := WithdrawFunds(cfg, s, caller, to, amount, replies);
      Step(t.outcome.Map(x => TextReply(x)), t.state, t.calls)
    case Faucet(caller, replies) =>
      var t := GetFaucetTokens(cfg, s, caller, replies);
      Step(t.outcome.Map(x => BoolReply(x)), t.state, t.calls)
    case WalletBalance(caller, p, replies) =>
      var t := WalletBalanceLocal(s, caller, p, replies);
      Step(t.outcome.Map(x => Nat64Reply(x)), t.state, t.calls)
    case Get(id) =>
      var t := GetCoffee(s, id);
      Step(t.outcome.Map(x => CoffeeReply(x)), t.state, t.calls)
    case List =>
      var t := GetCoffees(s);
      Step(t.outcome.Map(x => CoffeesReply(x)), t.state, t.calls)
    case Delete(id) =>
      var t := DeleteCoffee(s, id);
      Step(t.outcome.Map(x => CoffeeReply(x)), t.state, t.calls)
  }

  /** The state after the messages `evs`, one after the other. */
  ghost function Run(cfg: Config, s: State, evs: seq<Event>): State
    decreases |evs|
  {
    if evs == [] then s else Run(cfg, Apply(cfg, s, evs[0]).state, evs[1..])
  }

  /** From an uninitialized state no sequence of messages sets `initialized`
      or adds a record. */
  lemma {:induction false} RunNeverInitializes(cfg: Config, s: State, evs: seq<Event>)
    requires !s.initialized
    ensures !Run(cfg, s, evs).initialized
    ensures Run(cfg, s, evs).store.Keys <= s.store.Keys
    decreases |evs|
  {
    if evs != [] {
      RunNeverInitializes(cfg, Apply(cfg, s, evs[0]).state, evs[1..]);
    }
  }

  /** Every state the canister can reach is uninitialized and has an empty store. */
  lemma ReachableStatesAreEmpty(cfg: Config, evs: seq<Event>)
    ensures !Run(cfg, Init(), evs).initialized
    ensures Run(cfg, Init(), evs).store == map[]
  {
    RunNeverInitializes(cfg, Init(), evs);
  }

  /** `sendCoffee` traps in every reachable state, issuing no call and
      writing nothing. */
  lemma SendCoffeeNeverSucceeds(cfg: Config, evs: seq<Event>, caller: PrincipalRef,
                                payload: CoffeePayload, replies: Replies)
    ensures var s := Run(cfg, Init(), evs);
            SendCoffee(cfg, s, caller, payload, replies) == Step(Trap(NotInitializedMessage), s, [])
  {
    ReachableStatesAreEmpty(cfg, evs);
  }

  /** The "already initialized" trap never fires: `initialize` succeeds in
      every reachable state, so a later call overrides an earlier one. */
  lemma InitializeLastWriterWins(cfg: Config, evs: seq<Event>, first: InitPayload, second: InitPayload)
    ensures var s := Run(cfg, Init(), evs);
            var s1 := Initialize(cfg, s, first).state;
            && Initialize(cfg, s, first).outcome == Ok(InitializedMessage)
            && Initialize(cfg, s1, second).outcome == Ok(InitializedMessage)
            && (IsLocal(Initialize(cfg, s1, second).state) <==> second.network == 0)
  {
    ReachableStatesAreEmpty(cfg, evs);
  }

  /** No reachable state holds a record: every read and delete is an error. */
  lemma ReachableReadsFail(cfg: Config, evs: seq<Event>, id: string)
    ensures GetCoffee(Run(cfg, Init(), evs), id).outcome == Err(RecordStore.NotFoundMessage(id))
    ensures DeleteCoffee(Run(cfg, Init(), evs), id).outcome == Err(RecordStore.NotDeletedMessage(id))
  {
    ReachableStatesAreEmpty(cfg, evs);
  }

  /** Every message sequence keeps the store keyed by id. */
  lemma {:induction false} RunKeepsKeyedById(cfg: Config, s: State, evs: seq<Event>)
    requires RecordStore.KeyedById(s.store)
    ensures RecordStore.KeyedById(Run(cfg, s, evs).store)
    decreases |evs|
  {
    if evs != [] {
      RunKeepsKeyedById(cfg, Apply(cfg, s, evs[0]).state, evs[1..]);
    }
  }

  /** On the ledger, `sendCoffee` does not look at the transfer's reply:
      a rejected call or a refused transfer still files the record. */
  lemma MainnetSendIgnoresTransferReply(cfg: Config, s: State, caller: PrincipalRef, payload: CoffeePayload,
                                        replies: Replies, other: CallResult<TransferResult>)
    requires s.initialized && !IsLocal(s)
    ensures SendCoffee(cfg, s, caller, payload, replies.(ledgerTransfer := other))
            == SendCoffee(cfg, s, caller, payload, replies)
  {
  }

  /** A fresh id makes a successful `sendCoffee` add exactly one record,
      readable under that id, and leaves every other record alone. */
  lemma SendCoffeeAddsOneRecord(cfg: Config, s: State, caller: PrincipalRef, payload: CoffeePayload,
                                replies: Replies, id: string)
    requires replies.freshId !in s.store
    requires SendCoffee(cfg, s, caller, payload, replies).outcome.Ok?
    ensures var s' := SendCoffee(cfg, s, caller, payload, replies).state;
            && |s'.store| == |s.store| + 1
            && GetCoffee(s', replies.freshId).outcome == Ok(RecordStore.NewRecord(replies.freshId, replies.time, payload))
            && (id != replies.freshId ==> GetCoffee(s', id) == GetCoffee(s, id).(state := s'))
  {
  }

  /** The owner guard compares objects: a caller object other than `owner`
      is refused before any call, even when it denotes the owner's principal.
      `ic.caller()` builds a new object on every call, so this is the case
      every real caller is in. */
  lemma WithdrawRefusesOtherObjects(cfg: Config, s: State, objectId: nat, to: string, amount: Nat64, replies: Replies)
    requires objectId != cfg.owner.objectId
    ensures var caller := PrincipalRef(objectId, cfg.owner.principal);
            WithdrawFunds(cfg, s, caller, to, amount, replies) == Step(Trap(OnlyOwnerMessage), s, [])
  {
  }

  /** A local withdrawal reads no balance and sends to the same recipient
      whoever the (owner) caller object and whatever `to` is. */
  lemma LocalWithdrawIgnoresDestination(cfg: Config, s: State, c1: PrincipalRef, c2: PrincipalRef,
                                        to1: string, to2: string, amount: Nat64,
                                        replies: Replies, balance: Option<Nat64>)
    requires IsLocal(s) && IsOwner(c1, cfg.owner) && IsOwner(c2, cfg.owner)
    ensures WithdrawFunds(cfg, s, c1, to1, amount, replies)
            == WithdrawFunds(cfg, s, c2, to2, amount, replies.(accountBalance := balance))
    ensures WithdrawFunds(cfg, s, c1, to1, amount, replies).calls[0].to == cfg.callerFunctionText
  {
  }

  /** On the ledger a transfer the ledger refuses is still reported as
      "Successful": only a rejected call is an error. */
  lemma LedgerRefusalReportedAsSuccess(cfg: Config, s: State, caller: PrincipalRef, to: string,
                                       amount: Nat64, replies: Replies, reason: string)
    requires IsOwner(caller, cfg.owner) && !IsLocal(s)
    requires Funded(replies.accountBalance, amount)
    requires replies.ledgerTransfer == CallOk(TransferErr(reason))
    ensures WithdrawFunds(cfg, s, caller, to, amount, replies).outcome == Ok(SuccessMessage)
  {
  }

  /** An unreadable token balance counts as 0, so the faucet pays out. */
  lemma FaucetTreatsUnreadableBalanceAsZero(cfg: Config, s: State, caller: PrincipalRef, replies: Replies)
    requires replies.tokenBalance.CallErr?
    ensures GetFaucetTokens(cfg, s, caller, replies).calls[1]
            == TokenTransfer(cfg.canisterAddress, caller.principal.text, FaucetAmount)
  {
  }

  /** An empty or unreadable account is sent 100 tokens; a later request
      whose balance query reads those 100 tokens is refused with no
      transfer. Balances are not tracked, so the second reply is given. */
  lemma FaucetRefusesOnceBalanceIsRead(cfg: Config, s: State, caller: PrincipalRef,
                                   first: Replies, second: Replies)
    requires first.tokenBalance == CallOk(0) || first.tokenBalance.CallErr?
    requires second.tokenBalance == CallOk(FaucetAmount)
    ensures var t1 := GetFaucetTokens(cfg, s, caller, first);
            var t2 := GetFaucetTokens(cfg, t1.state, caller, second);
            && t1.calls[1] == TokenTransfer(cfg.canisterAddress, caller.principal.text, FaucetAmount)
            && t2.outcome == Trap(FaucetDrainMessage)
            && t2.calls == [TokenBalance(caller.principal.text)]
            && t2.state == s
  {
  }

  /** Asking for one's own balance with an empty address or with one's own
      principal text is the same request. */
  lemma WalletBalanceDefaultsToCaller(s: State, caller: PrincipalRef, replies: Replies)
    ensures WalletBalanceLocal(s, caller, AddressPayload(""), replies)
            == WalletBalanceLocal(s, caller, AddressPayload(caller.principal.text), replies)
  {
  }
}
