# Buy-Me-A-Coffee donation canisters, modelled in Dafny

This project models the guard-and-dispatch logic of two Internet Computer
canisters that take donations ("buy me a coffee"):

- `src/coffeeCanister/index.ts`, the two-backend canister. `initialize` selects
  either a local test-token canister (network 0) or the ICP ledger (any other
  value). Its endpoints are `sendCoffee` (with the private `depositCoffee`),
  `withdrawFunds`, `getFaucetTokens`, `walletBalanceLocal`, `getCoffee`,
  `getCoffees` and `deleteCoffee`.
- `src/index.ts`, the older ledger-only canister. It has the same donation,
  withdrawal and record endpoints, but no initialization and no network choice.

Each endpoint is a pure function from the configuration, the state, the caller
and the replies of the inter-canister calls it awaits to a `Step`. A `Step`
holds three things:

- the outcome: a trap, `Ok` or `Err`;
- the state afterwards;
- the list of inter-canister calls issued, in order.

The list of calls makes two kinds of claim statable: that a guard refuses a
request before any call, and that a transfer is submitted only once a check has
passed. Every trap leaves the state as it was. The environment supplies these
inputs: the call replies (`Replies`), the clock (`ic.time()`) and the generated
id (`uuidv4()`).

Modules:

- `Outcomes` (outcomes.dfy): `Option`, `CallResult` (what an awaited `.call()`
  resolves to) and `Outcome` (trap, `Ok` or `Err`).
- `CoffeeTypes` (types.dfy): record shapes, integer widths, principals as
  objects, the `Call` and `Replies` datatypes.
- `RecordStore` (record_store.dfy): the `StableBTreeMap` of donations as a
  `map<string, Coffee>`, with `getCoffee`/`deleteCoffee`/`getCoffees` and the
  round trips between insert, read and delete.
- `Payment` (payment.dfy): the rules both canisters share. The fee is the
  ledger's reported fee when it is present and nonzero, and 10000 otherwise.
  The funding check is a strict `balance > amount`. The balance-gated ledger
  transfer serves `depositCoffee` and both mainnet withdrawals. The owner guard
  is here too.
- `CoffeeCanister` (coffee_canister.dfy): the two-backend canister, its message
  dispatcher `Apply`, runs of messages from the initial state, and the
  reachability facts.
- `LedgerOnlyCanister` (ledger_only_canister.dfy): the ledger-only canister, its
  dispatcher, and the facts about runs.

Quirks of the code that the model reproduces and proves:

- `initialized` is declared and never assigned. From the initial state, no
  message sequence makes `sendCoffee` succeed (`SendCoffeeNeverSucceeds`). The
  store stays empty (`ReachableStatesAreEmpty`). The "already initialized" trap
  never fires, so a later `initialize` overrides an earlier one
  (`InitializeLastWriterWins`).
- The owner guard `ic.caller() !== owner` compares JavaScript objects by
  reference. A principal is modelled as an object with its own identity
  (`PrincipalRef`). The guard passes only for the owner object itself. A
  different object that denotes the owner's principal is refused. In both
  files `owner` is a module-private constant (src/coffeeCanister/index.ts:27,
  src/index.ts:35) that is never handed out. `ic.caller()` builds a new
  `Principal` object on every call. So no caller passes the guard, and both
  `withdrawFunds` endpoints always trap "Only owner can withdraw funds". The
  owner branches of `CoffeeCanister.WithdrawFunds` and
  `LedgerOnlyCanister.WithdrawFunds`, and the lemmas
  `LocalWithdrawIgnoresDestination` and `LedgerRefusalReportedAsSuccess`,
  describe code that no caller can reach. The model keeps the owner object's
  identity as a parameter so that this code is still described.
- A local withdrawal reads no balance, ignores `to`, and sends to the text of
  the `ic.caller` function (`Config.callerFunctionText`) rather than to any
  principal.
- On the ledger, `sendCoffee` ignores what `depositCoffee` returns. A mainnet
  `withdrawFunds` in the two-backend canister reports "Successful" whenever the
  transfer call itself was answered, even when the ledger refused the transfer.
- The ledger transfer that `depositCoffee` submits names no sender. Its only
  source field is `from_subaccount: Opt.None` (src/coffeeCanister/index.ts:118,
  src/index.ts:89), so the ledger debits the default account of the account
  that calls it, which is the canister itself. The donor's balance is checked,
  but the donor is never charged: the canister pays its own address. The local
  token transfer is different, because it names `from` explicitly. In the
  model, `LedgerTransfer` has no sender field, and
  `DepositTransferNamesNoDonor` shows that the submitted transfer is the same
  for every donor and equal to an owner withdrawal to the canister's address.

Further facts about the code that the model keeps as written:

- `initialize` has no effective once-only check: it can run again, and the
  last call decides the network.
- Refusals such as an unfunded deposit, a non-owner withdrawal or a second
  faucet request are traps (`ic.trap`), not `Err` values.
- The owner check is object identity, not principal equality.

## Model

| member | source | states |
|---|---|---|
| `Payment.FeeOf` | src/coffeeCanister/index.ts:116 | the fee sent is always positive; it is the reported fee when present and nonzero, and 10000 otherwise |
| `Payment.GatedTransfer` | src/index.ts:107-127 | reads the account balance and then the fee; a transfer is issued iff the balance is known and strictly above the amount; it carries exactly the amount, memo 0 and the resolved fee to the destination; the call's result is handed back unchanged; otherwise it traps "Fund your account first" after the two queries |
| `Payment.DepositCoffee` | src/coffeeCanister/index.ts:102-126 | the caller's own balance and then the fee are queried; funds move iff that balance exceeds the amount, and then the one transfer goes to the canister's address with the resolved fee and the ledger's reply is handed back; otherwise it traps "Fund your account first" after just the two queries |
| `Payment.FundingIsStrict` | src/index.ts:79 | a balance equal to the amount is refused, and so is an unknown balance; otherwise funding means balance at least amount + 1 |
| `Payment.FeeNotCountedInFundingCheck` | src/coffeeCanister/index.ts:105-116 | with a balance of amount + 1 the transfer of the amount with the resolved fee is issued all the same, although that balance is below amount plus fee whenever the fee exceeds 1 |
| `Payment.ZeroFeeBecomesDefault` | src/index.ts:87 | a reported fee of 0 is replaced by 10000, just like a missing fee |
| `Payment.Funded` | src/index.ts:79 | an unknown balance is refused and so is a balance equal to the amount; funded iff the balance is known and at least amount + 1 |
| `Payment.IsOwner` | src/coffeeCanister/index.ts:134 | passes for the owner object itself and fails for every other object, whatever principal it denotes |
| `RecordStore.NewRecord` | src/index.ts:60 | the new record carries the fresh id, the current time as its timestamp, and the payload's name and message |
| `CoffeeCanister.IsLocal` | src/coffeeCanister/index.ts:78 | the local branch is taken exactly when the network is 0; a network never set selects the ledger branch |
| `RecordStore.Insert` | src/index.ts:60-61 | the record is filed under its own id and replaces any previous entry there; the key set grows by that id only; every other entry is unchanged |
| `RecordStore.GetCoffee` | src/index.ts:50-55 | never traps; Ok with the stored record iff the id is present; otherwise Err naming the id |
| `RecordStore.DeleteCoffee` | src/index.ts:66-71 | returns the removed record iff the id is present and removes only that key; otherwise Err naming the id, with the store unchanged |
| `RecordStore.ValuesOf` | src/index.ts:45-47 | lists exactly the stored records, one per key; in a store keyed by id, no id appears twice |
| `RecordStore.GetAfterDelete` | src/index.ts:50-71 | after deleteCoffee(id), getCoffee(id) is the not-found error |
| `RecordStore.GetAfterInsert` | src/index.ts:50-61 | an inserted record reads back unchanged; reads of other ids are unaffected |
| `RecordStore.DeleteUndoesInsert` | src/index.ts:60-71 | deleting a record just inserted under a fresh id returns it and restores the store exactly |
| `RecordStore.InsertFreshGrowsByOne` | src/index.ts:60-61 | inserting under a fresh id adds exactly one record |
| `RecordStore.UpdatesKeepKeyedById` | src/index.ts:60-71 | insert and delete keep every record filed under its own id |
| `CoffeeCanister.Initialize` | src/coffeeCanister/index.ts:36-50 | traps iff already initialized, with no change and no call; otherwise the network becomes 0 iff the payload's network is 0 and 1 for every other int8; the test-token supply of 1_000_000_000_000 is seeded to the canister address exactly in the 0 case; the store and the initialized flag are untouched |
| `CoffeeCanister.SendCoffee` | src/coffeeCanister/index.ts:70-91 | uninitialized: traps with no call and no write; never returns Err; a trap changes nothing; success files exactly one new record (the fresh id, the current time, the payload's name and message) and returns it; locally, success iff the caller-to-canister token transfer of the amount answered true; on the ledger, the caller's own balance and then the fee are queried first; success iff that balance exceeds the amount, and then the calls are exactly those two queries and one transfer of the amount to the canister's address; otherwise it traps "Fund your account first" after just those two queries |
| `CoffeeCanister.WithdrawFunds` | src/coffeeCanister/index.ts:129-173 | never changes state; a caller failing the owner guard traps before any call; locally, one token transfer from the canister to the caller-function text, and "Successful" iff it answered true, otherwise a trap; on the ledger, the canister's own balance and then the fee are queried, funds move iff that balance exceeds the amount, otherwise it traps "Fund your account first" after just those two queries; the result is "Successful" iff the call was answered, and Err carries the call's error verbatim |
| `CoffeeCanister.GetFaucetTokens` | src/coffeeCanister/index.ts:193-202 | never changes state; traps iff the caller's token balance was read and is positive, and then makes no transfer; otherwise transfers exactly 100 from the canister address to the caller and returns that call's result unchanged: Ok with its value, or Err with its rejection message |
| `CoffeeCanister.WalletBalanceLocal` | src/coffeeCanister/index.ts:205-212 | one balance query, never a trap, no state change; it queries the given address, or the caller when the address is empty, and returns the reply unchanged: Ok with the balance, or Err with the rejection message |
| `CoffeeCanister.GetCoffee` | src/coffeeCanister/index.ts:62-68 | Ok with the stored record iff present, otherwise the not-found Err; no call, no change |
| `CoffeeCanister.GetCoffees` | src/coffeeCanister/index.ts:52-55 | Ok with exactly the stored records, as many as there are keys; in a store keyed by id, no id appears twice, so each record appears once; no call, no change |
| `CoffeeCanister.DeleteCoffee` | src/coffeeCanister/index.ts:93-99 | removes and returns the record iff present, touching no other key, flag or network; otherwise Err with the state unchanged |
| `CoffeeCanister.Apply` | src/coffeeCanister/index.ts:29-33 | for any message: a trap leaves the state unchanged; nothing sets `initialized`; only initialize changes the network; a store keyed by id stays keyed by id; while uninitialized, no key is added |
| `CoffeeCanister.RunNeverInitializes` | src/coffeeCanister/index.ts:32 | from an uninitialized state, no message sequence sets `initialized` or adds a record |
| `CoffeeCanister.ReachableStatesAreEmpty` | src/coffeeCanister/index.ts:32-33 | every reachable state is uninitialized and has an empty store |
| `CoffeeCanister.SendCoffeeNeverSucceeds` | src/coffeeCanister/index.ts:72-75 | in every reachable state, sendCoffee traps "Canister not yet initialized" with no call and no write |
| `CoffeeCanister.InitializeLastWriterWins` | src/coffeeCanister/index.ts:37-49 | in every reachable state, initialize succeeds; a second call succeeds as well, and its payload decides the network |
| `CoffeeCanister.ReachableReadsFail` | src/coffeeCanister/index.ts:62-99 | in every reachable state, getCoffee and deleteCoffee return their not-found errors |
| `CoffeeCanister.RunKeepsKeyedById` | src/coffeeCanister/index.ts:88-89 | every message sequence keeps each record filed under its own id |
| `CoffeeCanister.MainnetSendIgnoresTransferReply` | src/coffeeCanister/index.ts:83-86 | on the ledger, sendCoffee's result and state do not depend on the ledger transfer's reply |
| `CoffeeCanister.SendCoffeeAddsOneRecord` | src/coffeeCanister/index.ts:88-90 | with a fresh id, a successful sendCoffee adds exactly one record; it is readable under that id, and every other read is unchanged |
| `CoffeeCanister.WithdrawRefusesOtherObjects` | src/coffeeCanister/index.ts:134-136 | an object other than the owner object is refused with no call and no change, even when it denotes the owner's principal; every real caller is such an object |
| `CoffeeCanister.LocalWithdrawIgnoresDestination` | src/coffeeCanister/index.ts:138-143 | a local withdrawal is the same for every owner caller object, every `to` and every ledger balance; it pays the caller-function text |
| `CoffeeCanister.LedgerRefusalReportedAsSuccess` | src/coffeeCanister/index.ts:164-168 | a funded ledger withdrawal that the ledger refuses still returns "Successful" |
| `CoffeeCanister.FaucetTreatsUnreadableBalanceAsZero` | src/coffeeCanister/index.ts:196-201 | when the balance query fails, the faucet transfers 100 to the caller |
| `CoffeeCanister.FaucetRefusesOnceBalanceIsRead` | src/coffeeCanister/index.ts:194-201 | an empty or unreadable account is sent 100 tokens from the canister; when a later balance query reads 100 (balances are not tracked, so that reply is given), the second request traps "To prevent faucet drain, please utilize your existing tokens" after only the balance query, with no change |
| `CoffeeCanister.WalletBalanceDefaultsToCaller` | src/coffeeCanister/index.ts:207-211 | an empty address gives the same query and reply as the caller's own principal text |
| `LedgerOnlyCanister.SendCoffee` | src/index.ts:57-63 | never returns Err; it first queries the caller's own balance and then the fee; funds move iff that balance exceeds the amount; traps iff the caller's balance is unknown or not above the amount, and then only the two queries are made and nothing is written; otherwise it transfers the amount to the canister address with the resolved fee, then files and returns the new record |
| `LedgerOnlyCanister.WithdrawFunds` | src/index.ts:99-128 | never changes the store; a caller failing the owner guard traps before any call; the owner's request reads the canister's own balance, not the caller's, and then the fee; funds move iff that balance exceeds the amount; it traps iff it does not, after just those two queries; otherwise it transfers to `to` and returns the ledger call's result unchanged |
| `LedgerOnlyCanister.Apply` | src/index.ts:57-71 | any message changes at most the entry of its own key (the fresh id or the deleted id) and keeps the store keyed by id |
| `LedgerOnlyCanister.RunKeepsKeyedById` | src/index.ts:45-71 | every message sequence keeps the store keyed by id, so getCoffees never lists an id twice |
| `LedgerOnlyCanister.UntouchedRecordsSurvive` | src/index.ts:61-67 | a record whose key no message touches survives any message sequence unchanged |
| `LedgerOnlyCanister.DepositTransferNamesNoDonor` | src/index.ts:74-97 | a funded donation submits the same ledger transfer whoever the donor is, and it equals the transfer an owner withdrawal of the same amount to the canister's own address submits |
| `LedgerOnlyCanister.SendIgnoresTransferReply` | src/index.ts:59 | sendCoffee's result and store do not depend on the ledger transfer's reply |
| `LedgerOnlyCanister.SendRefusesExactBalance` | src/index.ts:79-96 | a balance equal to the amount traps "Fund your account first" and writes nothing |
| `LedgerOnlyCanister.SendThenGetAndDelete` | src/index.ts:58-71 | a funded donation under a fresh id adds one record with the payload's name and message and the current time; getCoffee returns that record; deleteCoffee returns it and restores the store |
| `LedgerOnlyCanister.WithdrawRefusesOtherObjects` | src/index.ts:104-106 | an object other than the owner object is refused with no call, even when it denotes the owner's principal; every real caller is such an object |

## Left out

- Inter-canister calls. The ledger's `account_balance`, `transfer_fee` and `transfer`, and the token canister's `initializeSupply`, `transfer` and `balance`, are not modelled internally. Each call appears as the `Call` it issues and the reply the environment gives (`Replies`). Balances held by the token canister or the ledger are not tracked.
- Interleaving at `await`. Each endpoint is one atomic step. Other messages that run while a call is outstanding are not modelled, so neither is the double-spend they allow.
- `getAddressFromPrincipal`, `hexAddressFromPrincipal` and `binaryAddressFromAddress`: these are library address encodings whose source is not part of this model. Addresses stay textual. `depositCoffee` passes the caller's principal text where an account address is expected; the model treats this as a query on that text and does not model what the encoding does with non-hex input.
- `uuidv4` and the `Math.random` shim for `crypto.getRandomValues`: the id is an input. Freshness is a hypothesis of the lemmas that need it, not a precondition. An id already in the store is overwritten, as `insert` does.
- `ic.time()`: the timestamp is an input.
- The `amount` field that the payload spread copies into a stored record: the declared record type has no such field, so the model drops it.
- The ledger's `TransferError` variants: they are abstracted to a reason string.
- The deployment placeholders of the two-backend canister (canister address, owner, and the text of the `ic.caller` function) are `Config` parameters. The owner object's identity is a parameter in both canisters.
- Azle decorators, Candid encoding, and `Result`/`match` plumbing.
- `RecordStore.ValuesOf`: does not state the order of `values()`. The store orders its keys by their serialized form, which is not modelled.
- `CoffeeCanister.GetCoffees`: does not state the order of the returned records, for the same reason.
- Updating, searching and paging records: these two source files have no such endpoints.
- CoffeeCanister.SendCoffee: the store is a `StableBTreeMap(0, 44, 1024)` (src/coffeeCanister/index.ts:29), whose key and value size limits are not modelled. A record too large for them would already have been paid for, since the transfer happens before the insert, and in the model it is stored all the same.
- LedgerOnlyCanister.SendCoffee: the same size limits of `StableBTreeMap(0, 44, 1024)` (src/index.ts:42) are not modelled; an oversized record is paid for by the deposit before the insert, and the model stores it all the same.
