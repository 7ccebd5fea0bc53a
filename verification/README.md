# Bitcoin mapping contract: a verified model

This project models the Bitcoin-to-VSC mapping contract in Dafny and proves what its ledger, its
coin handling, its encodings and its light client keep.

The contract is a state machine over a flat key-value store. Its actions are `map` (credit the
outputs of a proven Bitcoin transaction), `unmap` (spend the contract's coins for a user),
`transfer` / `transferFrom`, `addBlocks`, `seedBlocks` and `registerRouter`. Between calls
everything lives in the store under string keys: balances, UTXO records, observed outpoints, pending
spends, headers, and four singletons that `ContractState` loads at the start of a call and saves at
its end. A call that fails leaves no writes.

## How it is built

Three layers, each proved against the one above:

1. **Specification functions** on one typed value `State.State`: `Mapping.MapTx`, `Unmapping.Unmap`,
   `Accounts.Transfer`, `Blocklist.AddBlocks`, put together in `Machine.Step`, `Machine.Next` and
   `Machine.Run`. The theorems about steps and runs (`Runs`, `Safety`, `Bounds`) are about these.
2. **Imperative code** in the source's own form: `Handlers.ContractState` and `Deposits.MappingState`
   with their fields, loops and early returns, each method ensuring that it reaches the state of its
   specification function.
3. **The flat store**: `StateStore.StateStore` holds bytes under rendered keys and a ghost typed view
   tied to them by `Represents`. `Contract` runs load, handle, save and rollback over it and ensures
   that the view moves as `Machine.Next` says.

| modules | source |
|---|---|
| Contract, Machine, Runs, Safety, Bounds, Amounts, Confirmation, Traces, Examples, Scenario | main.go |
| Scripts, Signing | mapping/utils.go, mapping/unmapping.go |
| Handlers, Unmapping, Accounts | mapping/handlers.go, mapping/utils.go |
| Deposits, Mapping, Crediting, Credits, Promotion | mapping/mapping.go |
| Selection, Spend | mapping/unmapping.go |
| Pools, BalanceCodec, RecordCodec, Keys, Layouts, StateStore, State | mapping/utils.go, mapping/init.go, constants/constants.go |
| MessagePack, MessageObjects, SigningDataCodec, SigningDataFormat | mapping/signing_data_gen.go |
| Proof, Blocklist, HeaderFields | mapping/proof.go, blocklist/blocklist.go |
| Int64, Bytes, Text, Types, World, Wrappers, Registry | shared |

## What is assumed

- `World.Btc` carries what btcd and the host compute as uninterpreted functions: the double hash,
  transaction serialisation, script and address decoding, signature hashes, the proof-of-work check.
  `World.Sane` lists what is assumed of them: 33-byte keys, a P2WSH change address whose 34-byte
  script names it back, serialisations below 4 GiB, 32-byte signature hashes.
- Deposits of a run have no negative outputs (a Bitcoin consensus rule). Where a theorem follows
  outpoints through a run, a transaction id commits to the transaction's outputs and a new spend's id
  is new. Merkle soundness asks for no collision among the finitely many strings actually hashed:
  injectivity of a 64-to-32-byte hash would be unsatisfiable.
- Deposit instructions are taken after parsing, as a registry from address to recipient, kind and
  32-byte tag. A router call during a swap is any finite sequence of transfers, a failed one undone.
- int64 arithmetic that the code leaves unchecked is written with `Wrap64`. The user ledger holds
  whatever wraps; the reserve ledger needs that withdrawals do not wrap, which `Bounds` derives from
  limits on amount, fee rate and destination script.
- `Scenario.WholeRun` is a run from an empty store on which all of these premises hold together.

## Facts about the code that shape the statements

- Comments in types.go (lines 60 and 92) say little-endian; the code writes and reads big-endian, and
  so does the model.
- Confirmation compares an input index with an output number (mapping.go:102). Of an n-input spend the
  change outputs with a number from n on stay unconfirmed, for good, since the pending record is dropped:
  `Confirmation.ChangePromotion`, `Confirmation.RunStrands`. So all change is promoted if and only if the
  spend has at most n outputs; the change of a one-input spend never is (`Scenario.WholeRun`).
- Without change outputs the reported fee is the computed one, not the leftover that is really given
  away (unmapping.go:215-220); and a withdrawal to the change address itself is indexed as change.
  Both are exactly the drift term of the reserve ledger (`Unmapping.Drift`).
- The fee estimate assumes 68-byte witness scripts; real ones have 76 to 111 bytes, so a successful
  selection need not cover amount plus real fee. It does if and only if
  rate * size missed <= inputs - amount - estimated fee (`Spend.CoverageExact`). Nothing in the code looks
  at this: when it fails and there is change, a change output and its registry entry are negative, on a
  transaction Bitcoin does not accept. `Examples.NegativeChange` is such an input, within every bound;
  `Bounds.ModerateChange` and `Amounts.AmountsExact` say exactly when amounts stay non-negative.
- `indexOutputs` makes one slot per registered address (mapping.go:39): a call completes only when the
  number of matching outputs equals the registry's size.
- An addBlocks call with a sequence error stores height 0 (blocklist.go:123, main.go:108). The stored
  height names the tip after an accepted call if and only if the headers sent link up from the stored tip,
  or the tip is at height 0 and the first header sent does not link (`Blocklist.AddBlocksKeepsChain`);
  `Blocklist.SequenceErrorResetsHeight` is an input on which it does not.
- The length of a Merkle proof is not checked: `Proof.ShortProofExact`.
- A header that cannot be decoded is read as if padded with zeros, since the decoder's error is
  ignored (proof.go:20): `Mapping.HeaderRoot`. A request that names a height without a header passes if and
  only if its proof ends in the all-zero hash (`Safety.UnknownHeightExact`).
- A nil tag comes back from the store as an empty one (`RecordCodec.UtxoRoundTrip`), and the two give
  different witness scripts. Change is paid to the nil-tag script (handlers.go:43), whose immediate path
  pushes nothing after its signature check and so accepts nothing (`Scripts.ChangeScriptIsBackupOnly`); a
  later spend of that change is handed out for signing with the empty-tag script, which is not the one the
  coin was paid to. The script a spend is signed with is the coin's own if and only if the coin was paid to
  a script with a tag, as deposits are: `Scripts.RebuiltScriptExact`.

## Model

| member | source | states |
|---|---|---|
| Runs.RunKeepsLedger | btc-mapping-contract/contract/main.go:57-231 | over every run of all seven actions: balances stay positive and add up to UserSupply, which stays equal to ActiveSupply; registry ids stay distinct, an id is registered iff its record is stored, and the amounts agree; the ring counters stay in their pools |
| Runs.StepKeepsLedger | btc-mapping-contract/contract/main.go:57-231 | the same for one action, completed or discarded |
| Bounds.ModerateReserve | btc-mapping-contract/contract/mapping/handlers.go:62-117 | from an empty store, with withdrawals of at most 21 million bitcoins and fee rates from 0 to a million: the sum of registry amounts is ActiveSupply + FeeSupply + the accumulated drift of the withdrawals |
| Runs.RunReserve | btc-mapping-contract/contract/mapping/handlers.go:62-117 | the same from any coherent state, for every run in which no withdrawal wraps an int64 |
| Runs.ReserveFromScratch | btc-mapping-contract/contract/mapping/handlers.go:62-117 | the same from an empty store |
| Bounds.ModerateNoWrap | btc-mapping-contract/contract/mapping/unmapping.go:22-34 | within those bounds no unchecked int64 addition or multiplication of any withdrawal of the run wraps |
| Bounds.ModeratePlan | btc-mapping-contract/contract/mapping/unmapping.go:78-147 | for one withdrawal: no wrap, non-negative fee, and inputs that cover amount plus estimated fee in plain integers |
| Bounds.ModerateDrift | btc-mapping-contract/contract/mapping/unmapping.go:214-253 | what the drift of a withdrawal is: none with change outputs; otherwise the reported fee less a leftover of at most 546, bounded by the rate times the size the estimate missed |
| Bounds.ReserveWithin | btc-mapping-contract/contract/mapping/handlers.go:62-117 | over every run within the bounds the registry is below the supply record by at most 546 for each withdrawal without change, and above it by at most what those withdrawals' fees exceed their estimates by and what was paid to the change address |
| Bounds.ModerateChange | btc-mapping-contract/contract/mapping/unmapping.go:217-253 | no change output is negative exactly when what the inputs hold beyond amount and estimated fee pays for the size that the estimate missed |
| Amounts.UnmapAmounts | btc-mapping-contract/contract/mapping/handlers.go:70-90 | a completed withdrawal leaves the registry amounts non-negative exactly under that condition |
| Amounts.AmountsExact | btc-mapping-contract/contract/mapping/handlers.go:70-90 | over every run within the bounds the registry amounts stay non-negative throughout exactly when every completed withdrawal met it |
| Examples.NegativeChange | btc-mapping-contract/contract/mapping/unmapping.go:217-253 | an input within every bound that does not: rate 10, one deposited coin of 3750, 2000 to a 34-byte script; the withdrawal completes and registers minus 110 |
| Runs.RunMints | btc-mapping-contract/contract/mapping/mapping.go:129-245 | at-most-once crediting over every run: the observed set only grows, and the user supply is the value of the observed outpoints, each counted once, less what was withdrawn |
| Runs.SupplyFromScratch | btc-mapping-contract/contract/mapping/mapping.go:129-245 | from an empty store: all balances together are the value of the observed outpoints less what was withdrawn |
| Runs.RunKeepsPending | btc-mapping-contract/contract/mapping/handlers.go:91-98 | the pending list names exactly the stored pending spends, once each, over every run whose new spends have transaction ids that are not pending |
| Runs.RunKeepsChain | btc-mapping-contract/contract/blocklist/blocklist.go:71-134 | over every run whose accepted addBlocks calls link up, and without a second seed: all heights from the seed to the last are stored and linked, no stored header is rewritten, the last height grows by exactly the headers added |
| Runs.ChainFromScratch | btc-mapping-contract/contract/main.go:57-120 | the same from an empty store, whenever the seed comes |
| Safety.NoDoubleSpend | btc-mapping-contract/contract/mapping/handlers.go:37-89 | over every run no outpoint is an input of two of the contract's spends, nor twice of one, and none that was spent is still registered |
| Safety.RunKeepsProven | btc-mapping-contract/contract/mapping/proof.go:15-38 | over every run from an empty store with one seed, whose accepted headers link up and whose accepted deposits name stored heights: each outpoint ever credited is an output of a transaction with a Merkle branch to the root of a header still stored |
| Safety.UnknownHeightExact | btc-mapping-contract/contract/mapping/proof.go:15-38 | a request that names a height without a header is accepted exactly when its proof ends in the all-zero hash |
| Safety.AcceptedHeightKnown | btc-mapping-contract/contract/mapping/proof.go:15-38 | if none of the strings hashed for a request has the all-zero hash, it is accepted only with the height of a stored header |
| Safety.NoZeroHashRun | btc-mapping-contract/contract/mapping/proof.go:15-38 | so is every request of a run, if none of the strings hashed for any has the all-zero hash |
| HeaderFields.AcceptedIsLeaf | btc-mapping-contract/contract/mapping/proof.go:15-38 | under a stored header with its six fields serialised, whose Merkle root field is the root over the block's hashes: a request with a full-height proof and an index below their number is accepted iff its transaction is the one at that index with its authentic branch, absent a collision among the strings hashed |
| Runs.RunHeadersPass | btc-mapping-contract/contract/blocklist/blocklist.go:101-132 | from an empty store, over every run: each stored header stands at a seeded height or passed the proof-of-work check |
| Runs.RunKeepsRouter | btc-mapping-contract/contract/main.go:346-355 | off test networks a router id, once set, never changes over a run |
| Blocklist.RegisterRouterExact | btc-mapping-contract/contract/main.go:346-355 | a router id is set when there is none, replaced on test networks only, and never by an empty one |
| Machine.StepCounters | btc-mapping-contract/contract/mapping/utils.go:382-420 | every action keeps both ring counters inside their pools |
| Machine.ShortAddressRefused | btc-mapping-contract/contract/main.go:169-173 | a destination of fewer than 26 characters is refused before anything else, and a longer one never for its length |
| Contract.Map | btc-mapping-contract/contract/main.go:123-153 | over the flat store: load, handle and save take the represented state exactly where the deposit step says, and leave no write behind on failure |
| Contract.Unmap | btc-mapping-contract/contract/main.go:156-191 | the same for a withdrawal, with the address-length check first |
| Contract.Transfer | btc-mapping-contract/contract/main.go:196-231 | the same for transfer and transferFrom |
| Contract.AddBlocks | btc-mapping-contract/contract/main.go:78-120 | the same for addBlocks: a sequence error does not abort, its height 0 is stored, the base fee rate is replaced |
| Contract.SeedBlocks | btc-mapping-contract/contract/main.go:57-75 | the same for seedBlocks |
| Contract.RegisterRouter | btc-mapping-contract/contract/main.go:329-359 | the same for registerRouter: write-once but on test networks |
| Handlers.ContractState.HandleUnmap | btc-mapping-contract/contract/mapping/handlers.go:14-120 | the imperative withdrawal step computes the specified state or error |
| Handlers.ContractState.PlanWithdrawal | btc-mapping-contract/contract/mapping/handlers.go:14-56 | everything before the first write: the amounts, inputs and transaction of the plan, or the first error met |
| Handlers.ContractState.CompleteUnmap | btc-mapping-contract/contract/mapping/handlers.go:62-117 | everything from the deduction on: change is indexed before inputs are freed, then the spend is recorded and the supply settled |
| Handlers.ContractState.SaveChange | btc-mapping-contract/contract/mapping/handlers.go:74-82 | each change output gets the next free unconfirmed id, a registry entry and a record, in order |
| Handlers.ContractState.FreeInputs | btc-mapping-contract/contract/mapping/handlers.go:84-90 | removes exactly the inputs' entries and records |
| Handlers.ContractState.GetInputUtxos | btc-mapping-contract/contract/mapping/unmapping.go:36-46 | the records of the ids in order, or an error when one is missing |
| Unmapping.UnmapRegistry | btc-mapping-contract/contract/mapping/handlers.go:70-90 | the registry afterwards is the old one without the inputs, then the change outputs under fresh unconfirmed ids, coherent with the records |
| Unmapping.PlanExact | btc-mapping-contract/contract/mapping/handlers.go:15-56 | a withdrawal can be planned iff its sender authorised it, its amount is a positive number above the protocol fee, coins can be selected for it and its destination is an address |
| Unmapping.PlanErrors | btc-mapping-contract/contract/mapping/handlers.go:15-56 | which error a withdrawal that cannot be planned reports: permission, amount, protocol fee, selection, destination, in this order |
| Unmapping.WithdrawalPays | btc-mapping-contract/contract/mapping/handlers.go:62-117 | when nothing wraps the sender pays amount, protocol fee and network fee and nobody else pays anything; both supplies fall by that sum, the fee supply rises by the protocol fee; the first output pays the amount to the destination's script |
| Unmapping.PlanFillsSlots | btc-mapping-contract/contract/mapping/unmapping.go:296-328 | of every planned withdrawal, completed or not, change indexing finds all change outputs, and one more exactly for a destination that is the change address; no slot is left empty and no nil record is dereferenced |
| Unmapping.CompletionExact | btc-mapping-contract/contract/mapping/handlers.go:62-117 | a planned withdrawal with a non-negative final amount completes exactly when the deduction does, every output has one address, the unconfirmed pool takes all change, and the fee supply does not overflow |
| Unmapping.SettleFailsOnFeesOnly | btc-mapping-contract/contract/mapping/handlers.go:100-117 | once the final amount was deducted the supply update fails only if the fee supply overflows |
| Unmapping.ChangeThenFree | btc-mapping-contract/contract/mapping/handlers.go:74-90 | change ids are allocated while input slots are still occupied, so freeing the inputs cannot take a change entry with it |
| Unmapping.AddChangeEffect | btc-mapping-contract/contract/mapping/handlers.go:74-82 | change ids are new, distinct and unconfirmed; all other entries and records stay |
| Traces.ChangeInOrder | btc-mapping-contract/contract/mapping/handlers.go:74-82 | change outputs are saved one after the other in output order, each under the first free unconfirmed id from the counter on |
| Unmapping.UnmapReserve | btc-mapping-contract/contract/mapping/handlers.go:62-117 | one withdrawal moves the difference between reserve and accounted supply by its drift alone |
| Unmapping.ChangeValue | btc-mapping-contract/contract/mapping/unmapping.go:214-253 | the indexed change is worth inputs less amount less fee plus drift |
| Unmapping.UnmapUserLedger | btc-mapping-contract/contract/mapping/handlers.go:62-112 | sender's balance, user supply and active supply fall by the same final amount, whatever the unchecked sums did |
| Unmapping.SupplyCoversDeduction | btc-mapping-contract/contract/mapping/handlers.go:101-111 | once the balance covered the final amount, the two supply subtractions neither fail nor go negative |
| Unmapping.UnmapOther | btc-mapping-contract/contract/mapping/handlers.go:62-117 | which tables a withdrawal changes, and how; everything else is untouched |
| Unmapping.UnmapSpendsListed | btc-mapping-contract/contract/mapping/handlers.go:91-98 | with an id not pending before, the pending list keeps naming exactly the pending spends |
| Unmapping.LeftoverBound | btc-mapping-contract/contract/mapping/unmapping.go:214-220 | without change outputs the leftover lies between the estimated fee and the dust threshold |
| Unmapping.EmptySlotRemains | btc-mapping-contract/contract/mapping/unmapping.go:296-328 | a slot of the indexed change stays empty exactly when fewer outputs pay the change address than there are slots |
| Handlers.SigningEncodable | btc-mapping-contract/contract/mapping/handlers.go:91-95 | the signing data of every withdrawal fits MessagePack's length fields |
| Scenario.WholeRun | btc-mapping-contract/contract/main.go:57-191 | a run from an empty store - seed, a deposit for one account brought in by another, withdrawal, confirmation - on which the premises of all run theorems hold together; the deposit is credited to its recipient, the ledger is exact at the end, and the change of the one-input spend was passed over for good |
| Selection.VscFeeExact | btc-mapping-contract/contract/mapping/unmapping.go:22-34 | the protocol fee is one percent, at least 1000, of any amount above 1000, if and only if a hundred times the amount fits int64 |
| Selection.GetInputUtxoIds | btc-mapping-contract/contract/mapping/unmapping.go:78-147 | the three loops over single, confirmed and unconfirmed entries return what the selection rule says, overflow errors included |
| Selection.SelectionMeaning | btc-mapping-contract/contract/mapping/unmapping.go:78-147 | the first sufficient single confirmed entry, else the shortest sufficient prefix of confirmed-then-unconfirmed; the balance error iff neither exists and no partial sum overflows before |
| Selection.CoversExact | btc-mapping-contract/contract/mapping/unmapping.go:49-75 | what counts as covering, in plain integers: the amount and the rate times 10 + 41 an input + 43 an output + a quarter of 143 witness bytes an input, rounded up, + 2 |
| Selection.ChangeCountExact | btc-mapping-contract/contract/mapping/unmapping.go:217-234 | no change output up to 546 satoshis, one below 2000000, one for each whole 1000000 from there, four from 4000000 on; each both ways |
| Selection.SelectionSound | btc-mapping-contract/contract/mapping/unmapping.go:78-147 | the ids are those of distinct registry entries, the total is the sum of their amounts and covers amount plus estimated fee; an unconfirmed entry is taken only with every confirmed one |
| Spend.CreateSpendTransaction | btc-mapping-contract/contract/mapping/unmapping.go:162-294 | fee, change outputs, outpoints, witness scripts and signature hashes of the spend, in input order |
| Spend.CalculateSegwitFee | btc-mapping-contract/contract/mapping/unmapping.go:149-160 | the summing loop computes rate times the weight-based virtual size |
| Spend.AddChangeOutputs | btc-mapping-contract/contract/mapping/unmapping.go:240-253 | the split appends equal shares with the remainder of the truncated division on the first |
| Spend.AddInputs | btc-mapping-contract/contract/mapping/unmapping.go:172-194 | one outpoint and one witness script an input, in order |
| Spend.CalcSigHashes | btc-mapping-contract/contract/mapping/unmapping.go:256-282 | one signature hash an input, carrying the input's index and script |
| Spend.SpendConserves | btc-mapping-contract/contract/mapping/unmapping.go:214-253 | with change: inputs = amount + change outputs + fee; no change output is negative iff the fee is at most the change |
| Spend.ChangeSplit | btc-mapping-contract/contract/mapping/unmapping.go:240-253 | the shares add up to what is split, only the first differs, by less than their number, and none is negative iff the net change is not |
| Spend.VSizeAgreement | btc-mapping-contract/contract/mapping/unmapping.go:149-160 | real and estimated virtual size differ by the destination output, the width of the input count and the witness bytes alone |
| Spend.SpendSizeExact | btc-mapping-contract/contract/mapping/unmapping.go:149-160 | the virtual size a spend is charged for, written out: 10, 41 an input, 9 and the destination script, 43 a change output, a quarter of 75 bytes and the witness script an input, rounded up, and 2 |
| Spend.CoverageExact | btc-mapping-contract/contract/mapping/unmapping.go:214-238 | the inputs cover amount plus real fee exactly when what they hold beyond amount and estimated fee pays for the size that the estimate missed |
| Spend.FeeAgreement | btc-mapping-contract/contract/mapping/unmapping.go:49-75 | real fee = estimated fee + rate * ((d - 43) + ceil(w/4) - ceil(143n/4)), plus the rate for each byte by which the input count is wider than one |
| Spend.SelectionCoversSpend | btc-mapping-contract/contract/mapping/unmapping.go:78-147 | how far a successful selection covers amount plus real fee: up to rate * ceil(43n/4) below 253 inputs |
| Spend.IndexUnconfirmedOutputs | btc-mapping-contract/contract/mapping/unmapping.go:296-328 | one slot an output but the first, filled in output order with the outputs paying the change address; an error when some output has not exactly one address |
| Spend.PayingComplete | btc-mapping-contract/contract/mapping/unmapping.go:296-328 | no output paying the change address is missed |
| Unmapping.PayingMember | btc-mapping-contract/contract/mapping/unmapping.go:296-328 | every indexed output pays the change address and carries its own number, amount and script, and no tag |
| Spend.ChangeSlotsExact | btc-mapping-contract/contract/mapping/unmapping.go:296-328 | change indexing succeeds iff the script of every output names exactly one address |
| Signing.PlanSigning | btc-mapping-contract/contract/mapping/unmapping.go:172-282 | of every planned withdrawal, input i spends the coin stored under the i-th selected id, and entry i to sign carries that number, that coin's witness script and the hash computed for that input, script and coin over the whole transaction |
| Signing.PlannedInputSpends | btc-mapping-contract/contract/mapping/unmapping.go:172-282 | the script handed out with input i accepts, by the true selector, a signature of the primary key iff the stored coin's tag passes, and by the false selector a signature of the backup key iff the delay has run |
| Scripts.WitnessParses | btc-mapping-contract/contract/mapping/utils.go:31-58 | read operation by operation, the witness script is IF, primary path, ELSE, delay and backup path, ENDIF, with the pushes meant |
| Scripts.PrimaryPathExact | btc-mapping-contract/contract/mapping/utils.go:31-43 | with a true selector the witness script accepts exactly one signature, of the primary key, and a tag that is empty or true |
| Scripts.BackupPathExact | btc-mapping-contract/contract/mapping/utils.go:45-55 | with a false selector it accepts exactly one signature, of the backup key, and a relative lock of at least 4320 blocks (2 off the main network), whatever the tag |
| Scripts.SameScriptExact | btc-mapping-contract/contract/mapping/utils.go:38-43 | two witness scripts of one contract are equal iff their tags are, but for nil and the single byte 0, which are pushed alike |
| Scripts.RebuiltScriptExact | btc-mapping-contract/contract/mapping/utils.go:262-294 | the script a spend is signed with is the one its coin was paid to iff that script has a tag: true of deposits, false of change |
| Scripts.ChangeScriptIsBackupOnly | btc-mapping-contract/contract/mapping/handlers.go:43-48 | the nil-tag script that change is paid to accepts exactly a delayed signature of the backup key: its immediate path accepts nothing |
| World.WitnessScriptLength | btc-mapping-contract/contract/mapping/utils.go:31-58 | exact length of the witness script for nil, empty and 32-byte tags: 76 to 111 bytes |
| Handlers.CheckAndDeductBalance | btc-mapping-contract/contract/mapping/utils.go:124-200 | the balance falls by the amount, or the first failing check is reported and nothing is written |
| Handlers.SenderIntent | btc-mapping-contract/contract/mapping/utils.go:137-156 | the limit of the first applicable intent of the sender, an error if it is not a number |
| Handlers.CallerIntent | btc-mapping-contract/contract/mapping/utils.go:171-189 | the limit of the last applicable intent of the caller, first decimal point dropped |
| Accounts.DeductEffect | btc-mapping-contract/contract/mapping/utils.go:124-200 | a deduction of a non-negative amount succeeds iff balance and per-call limit cover it; then the sum of balances falls by the amount and no other account changes |
| Accounts.SenderDrawExact | btc-mapping-contract/contract/mapping/utils.go:135-169 | a positive amount can be drawn from the sender iff the balance covers it and the first intent that applies names a number that does; without one the intent error |
| Accounts.CallerDrawExact | btc-mapping-contract/contract/mapping/utils.go:170-196 | from a caller that is not the sender iff the balance covers it, every intent that applies names a number, first decimal point dropped, and the last one covers it |
| Accounts.StrangerDraw | btc-mapping-contract/contract/mapping/utils.go:197-199 | nothing can be drawn from any other account |
| Handlers.HandleTransfer | btc-mapping-contract/contract/mapping/handlers.go:123-173 | the balances afterwards are those of the specified transfer; the recipient is read after the deduction |
| Accounts.TransferEffect | btc-mapping-contract/contract/mapping/handlers.go:123-173 | a transfer moves the amount between at most two accounts, a self-transfer changes nothing, the sum is conserved and no balance goes negative |
| Accounts.TransferExact | btc-mapping-contract/contract/mapping/handlers.go:123-173 | a transfer goes through iff the sender authorised it, the amount is a positive number, the recipient valid, the payer the caller by default or by name or else the sender by name, the payer can be drawn on and the credit fits |
| Accounts.TransferErrors | btc-mapping-contract/contract/mapping/handlers.go:123-173 | which error a transfer that does not go through reports: permission; amount, recipient and payer; the deduction's own; the credit |
| Accounts.TransferCreditFits | btc-mapping-contract/contract/mapping/handlers.go:163-170 | when the sum of balances fits int64, the credit cannot overflow |
| Deposits.MappingState.HandleMap | btc-mapping-contract/contract/mapping/mapping.go:251-282 | the imperative deposit step computes the specified state or error, ignoring what the confirmation returned |
| Deposits.MappingState.ProcessUtxos | btc-mapping-contract/contract/mapping/mapping.go:129-248 | the crediting loop and supply update compute the specified state or error |
| Deposits.MappingState.CreditOutput | btc-mapping-contract/contract/mapping/mapping.go:135-231 | one iteration: skip, register, credit, add to the total |
| Deposits.MappingState.Credit | btc-mapping-contract/contract/mapping/mapping.go:159-226 | the balance side of a deposit or a swap, with the router id looked up once |
| Deposits.CallRouter | btc-mapping-contract/contract/mapping/mapping.go:214-220 | the router's transfers in order, failed ones undone |
| Deposits.IncAccBalance | btc-mapping-contract/contract/mapping/utils.go:448-456 | a checked credit, or an error that writes nothing |
| Deposits.MappingState.IndexOutputs | btc-mapping-contract/contract/mapping/mapping.go:38-65 | one slot a registered address, filled in output order; one matching output too many is an index out of range |
| Deposits.IsForVscAcc | btc-mapping-contract/contract/mapping/mapping.go:18-35 | the first registered address of an output, none when the script cannot be read |
| Deposits.CheckTransaction | btc-mapping-contract/contract/mapping/proof.go:15-38 | accepts iff the branch leads from the transaction's hash to the Merkle root field of the stored header |
| Mapping.MatchingMember | btc-mapping-contract/contract/mapping/mapping.go:38-65 | every indexed output is an output of the transaction to a registered address, with that address's tag |
| Mapping.MatchingComplete | btc-mapping-contract/contract/mapping/mapping.go:38-65 | no output to a registered address is missed |
| Mapping.RegisteredExact | btc-mapping-contract/contract/mapping/mapping.go:18-35 | an output is for the contract iff some address of its script is registered, and the first such address counts |
| Mapping.MapErrors | btc-mapping-contract/contract/mapping/mapping.go:251-271 | which error a deposit call reports before it changes anything: an unreadable proof, a proof that misses the root, more matching outputs than registered addresses |
| Crediting.MapEffect | btc-mapping-contract/contract/mapping/mapping.go:251-282 | a completed deposit call: verified transaction, as many matching outputs as registered addresses, each credited or seen before; reserve, active and user supply grow by the value of the newly observed outputs; all ledger invariants are kept |
| Credits.DepositCredits | btc-mapping-contract/contract/mapping/mapping.go:129-248 | a completed deposit call raises every account's balance by exactly what the newly observed outputs owe it: a deposit to the recipient registered for the address it pays, a swap to the sender of the call; accounts named by none, and touched by no router transfer, keep theirs; newly observed are the outputs to registered addresses and no others |
| Credits.DepositsStored | btc-mapping-contract/contract/mapping/mapping.go:149-157 | every newly observed output is stored under a confirmed id with its transaction id, number, amount, script and tag, and registered with its amount |
| Traces.CreditInOrder | btc-mapping-contract/contract/mapping/mapping.go:135-232 | the outputs of a deposit call are credited one after the other in output order, each iteration on the state the one before it left |
| Traces.CreditTakesNext | btc-mapping-contract/contract/mapping/mapping.go:140-157 | a new output takes the first free confirmed id from the counter on; one seen before or not registered changes nothing |
| Credits.SwapCredit | btc-mapping-contract/contract/mapping/mapping.go:168-221 | a single swap: router known, asset named, reply parsed; the sender of the call is credited the amount, then the router's transfers run |
| Credits.SwapsAnswered | btc-mapping-contract/contract/mapping/mapping.go:168-221 | a completed call answered every new swap in this way |
| Credits.TransfersInOrder | btc-mapping-contract/contract/mapping/mapping.go:216 | transfers of a router call run in order and one that fails changes nothing |
| Crediting.CreditAllEffect | btc-mapping-contract/contract/mapping/mapping.go:135-231 | a pass appends confirmed entries for newly observed outpoints only, one each, worth the total it counted |
| Crediting.IgnoredErrorHarmless | btc-mapping-contract/contract/mapping/mapping.go:159-245 | under the user ledger, a call that drops an overflowing credit never completes: with the error checked the outcome is the same |
| Crediting.RunTransfersEffect | btc-mapping-contract/contract/mapping/mapping.go:214-220 | whatever transfers a router makes, the sum of balances is conserved and none goes negative |
| Handlers.ContractState.ConfirmSpend | btc-mapping-contract/contract/mapping/mapping.go:71-127 | the nested loops, deletions and swap-remove leave the specified state, also on an early exit |
| Handlers.ContractState.PromoteSpend | btc-mapping-contract/contract/mapping/mapping.go:99-115 | the two nested loops promote as specified |
| Handlers.ContractState.CollectUnconfirmed | btc-mapping-contract/contract/mapping/mapping.go:84-97 | the unconfirmed entries with their records, none when a record is missing |
| Promotion.UpdateUtxoSpendsEffect | btc-mapping-contract/contract/mapping/mapping.go:71-127 | exactly the unconfirmed outputs of the transaction whose number some signature hash carries move to the confirmed pool, all of them unless it is full; order, amounts, records and coherence are kept, and the pending record goes exactly when all moved |
| Promotion.ConfirmationExact | btc-mapping-contract/contract/mapping/mapping.go:99-115 | confirming an n-input spend promotes exactly its unconfirmed outputs with a number below n |
| Confirmation.CallConfirms | btc-mapping-contract/contract/mapping/mapping.go:273-276 | what a completed map call does to coins already registered: with its transaction pending, that transaction's unconfirmed outputs with a number below the input count become confirmed and the record goes, or the record stays and the confirmed pool is full; nothing else changes |
| Traces.HashesInOrder | btc-mapping-contract/contract/mapping/mapping.go:100-115 | signature hashes are gone through in their order, each with a pass over all entries |
| Traces.PassInOrder | btc-mapping-contract/contract/mapping/mapping.go:101-114 | in a pass, entries of that number take the first free confirmed id from the counter on, in registry order, keeping record and place |
| Confirmation.RunKeepsNumbered | btc-mapping-contract/contract/mapping/unmapping.go:256-282 | over every run the hashes of every pending spend carry its input numbers 0 to n - 1 |
| Confirmation.ConfirmationInRun | btc-mapping-contract/contract/mapping/mapping.go:71-127 | so after any run a confirmation promotes exactly the unconfirmed outputs with a number below the input count |
| Confirmation.ChangePromotion | btc-mapping-contract/contract/mapping/mapping.go:71-127 | a withdrawal and its confirmation: all of the change is promoted exactly when the spend has at most as many outputs as inputs; the pending record is gone either way |
| Confirmation.OneInputPromotesNothing | btc-mapping-contract/contract/mapping/mapping.go:99-126 | confirming a one-input spend to another address promotes nothing and drops the pending record |
| Confirmation.RunStrands | btc-mapping-contract/contract/mapping/mapping.go:71-127 | change that was passed over stays unconfirmed over every run that makes no new spend with that id |
| Promotion.UpdateKeepsSpendsListed | btc-mapping-contract/contract/mapping/mapping.go:118-126 | the pending list keeps naming exactly the pending spends |
| Promotion.SwapRemoveMeaning | btc-mapping-contract/contract/mapping/mapping.go:118-126 | swap-remove takes out the id and nothing else |
| Promotion.SwapRemoveExact | btc-mapping-contract/contract/mapping/mapping.go:118-125 | the first occurrence gives way to the last element and the others keep their places |
| Handlers.DropFirst | btc-mapping-contract/contract/mapping/mapping.go:118-126 | the loop overwrites the first match with the last element and shortens the list |
| Handlers.ContractState.AllocateConfirmedId | btc-mapping-contract/contract/mapping/utils.go:382-401 | one lap of the pool at most, 255 wrapping to 64, gives the specified id and counter, or the error with the counter back where it was |
| Handlers.ContractState.AllocateUnconfirmedId | btc-mapping-contract/contract/mapping/utils.go:403-420 | one lap of the pool at most, 63 wrapping to 0, gives the specified id and counter, or the error with the counter back where it was |
| Pools.AllocateMeaning | btc-mapping-contract/contract/mapping/utils.go:382-420 | the id is the first free slot in cyclic order, the counter lands just behind it inside the pool, and an error means the whole pool is occupied |
| Handlers.ContractState.Load | btc-mapping-contract/contract/mapping/init.go:13-78 | loading what the store represents succeeds and yields it, defaults for missing keys included |
| Handlers.ContractState.SaveToState | btc-mapping-contract/contract/mapping/init.go:174-188 | afterwards the store represents the live state, so loading gives back registry, counters, pending list and supply |
| Keys.RenderInjective | btc-mapping-contract/contract/constants/constants.go:6-59 | two state keys share a string iff they are equal: tables, singletons and builders never collide |
| Keys.ObservedSuffixInjective | btc-mapping-contract/contract/mapping/utils.go:565-567 | txid:vout determines the outpoint |
| StateStore.WriteRefines | btc-mapping-contract/contract/mapping/utils.go:296-314 | writing one key of the flat store changes one table of the typed view and no other |
| StateStore.DeleteRefines | btc-mapping-contract/contract/mapping/handlers.go:84-90 | the same for deleting a key |
| StateStore.EmptyStore | btc-mapping-contract/contract/mapping/init.go:26-66 | an empty store represents the initial state |
| StateStore.StateStore.GetAccBal | btc-mapping-contract/contract/mapping/utils.go:426-434 | reads the balance the view holds |
| StateStore.StateStore.SetAccBal | btc-mapping-contract/contract/mapping/utils.go:436-446 | writes the balance; zero is represented by absence |
| StateStore.StateStore.LoadUtxo | btc-mapping-contract/contract/mapping/utils.go:296-306 | reads a record back as stored, an error iff there is none |
| StateStore.StateStore.SaveUtxo | btc-mapping-contract/contract/mapping/utils.go:308-310 | stores a record, a nil tag becoming an empty one |
| StateStore.StateStore.GetTxSpend | btc-mapping-contract/contract/mapping/mapping.go:72-81 | reads a pending spend back as stored |
| StateStore.StateStore.SetTxSpend | btc-mapping-contract/contract/mapping/handlers.go:91-97 | stores the signing data of a spend |
| StateStore.StateStore.LastHeightFromState | btc-mapping-contract/contract/blocklist/blocklist.go:38-49 | reads back the stored height, none before the first seed |
| StateStore.StateStore.LastHeightToState | btc-mapping-contract/contract/blocklist/blocklist.go:51-53 | stores a height as decimal text |
| StateStore.StateStore.SupplyFromState | btc-mapping-contract/contract/mapping/init.go:194-204 | reads back the stored supply, zero when absent |
| StateStore.StateStore.SaveSupplyToState | btc-mapping-contract/contract/mapping/init.go:206-209 | stores the supply record |
| BalanceCodec.CompactRoundTrip | btc-mapping-contract/contract/mapping/utils.go:426-446 | reading a written balance returns it, for every int64 |
| BalanceCodec.CompactShape | btc-mapping-contract/contract/mapping/utils.go:436-446 | a written balance has 1 to 8 bytes and no leading zero byte, and nothing is written exactly for 0 |
| BalanceCodec.CompactCanonical | btc-mapping-contract/contract/mapping/utils.go:426-446 | a string of at most 8 bytes without a leading zero is the one encoding of its value, so equal balances have equal strings |
| Bytes.Int64RoundTrip | btc-mapping-contract/contract/mapping/utils.go:207-224 | big-endian int64 fields read back |
| Bytes.BytesRoundTrip | btc-mapping-contract/contract/mapping/utils.go:207-224 | every 8 bytes are the encoding of the number read from them |
| RecordCodec.MarshalUtxoRegistry | btc-mapping-contract/contract/mapping/utils.go:207-214 | the buffer loop writes nine bytes an entry, in order |
| RecordCodec.UnmarshalUtxoRegistry | btc-mapping-contract/contract/mapping/utils.go:216-226 | the loop reads nine bytes an entry, an error for any other length |
| RecordCodec.RegistryRoundTrip | btc-mapping-contract/contract/mapping/utils.go:207-226 | a written registry reads back entry by entry |
| RecordCodec.RegistryBytesRoundTrip | btc-mapping-contract/contract/mapping/utils.go:207-226 | every accepted byte string is what its contents would be written as |
| RecordCodec.MarshalUtxo | btc-mapping-contract/contract/mapping/utils.go:241-260 | writes head, length-prefixed script and length-prefixed tag |
| RecordCodec.UtxoRoundTrip | btc-mapping-contract/contract/mapping/utils.go:241-294 | a record reads back, nil tag normalised to empty, iff script and tag have at most 255 bytes |
| RecordCodec.UtxoReencodes | btc-mapping-contract/contract/mapping/utils.go:262-294 | an accepted record re-encodes to a prefix of the bytes it was read from |
| RecordCodec.SupplyRoundTrip | btc-mapping-contract/contract/mapping/utils.go:316-335 | a written supply record reads back |
| RecordCodec.SupplyBytesRoundTrip | btc-mapping-contract/contract/mapping/utils.go:316-335 | every accepted 32 bytes are what their contents would be written as |
| RecordCodec.MarshalTxSpendsRegistry | btc-mapping-contract/contract/mapping/utils.go:356-363 | the loop writes 32 bytes an id |
| RecordCodec.UnmarshalTxSpendsRegistry | btc-mapping-contract/contract/mapping/utils.go:365-374 | the loop reads 32 bytes an id, an error for any other length |
| RecordCodec.TxSpendsRoundTrip | btc-mapping-contract/contract/mapping/utils.go:356-374 | a written pending list reads back in order |
| Text.TxIdRoundTrip | btc-mapping-contract/contract/mapping/utils.go:356-374 | a transaction id survives hex decoding and encoding |
| Text.HeightTextRoundTrip | btc-mapping-contract/contract/blocklist/blocklist.go:38-53 | a height survives decimal formatting and parsing |
| Text.FormatUintInjective | btc-mapping-contract/contract/mapping/utils.go:561-567 | unpadded decimal and hexadecimal text determines the number |
| SigningDataCodec.MarshalMsg | btc-mapping-contract/contract/mapping/signing_data_gen.go:158-180 | appends the MessagePack encoding to any buffer |
| SigningDataCodec.UnmarshalMsg | btc-mapping-contract/contract/mapping/signing_data_gen.go:183-270 | the field and element loops decode as specified, reusing what the slice holds and skipping unknown keys |
| SigningDataCodec.Msgsize | btc-mapping-contract/contract/mapping/signing_data_gen.go:273-279 | bounds the encoded length from above, with a slack of at most 7 + 10 a sighash |
| SigningDataCodec.SigningDataRoundTrip | btc-mapping-contract/contract/mapping/signing_data_gen.go:158-270 | decoding an encoding returns the same signing data with nothing left over, for all sizes the format allows |
| SigningDataCodec.OrderedRoundTrip | btc-mapping-contract/contract/mapping/signing_data_gen.go:183-270 | so it does with every map's keys in any order and any bytes following |
| SigningDataCodec.MarshalHash | btc-mapping-contract/contract/mapping/signing_data_gen.go:365-378 | the encoding of one sighash |
| SigningDataCodec.UnmarshalHash | btc-mapping-contract/contract/mapping/signing_data_gen.go:381-426 | the field loop of one sighash decodes as specified |
| SigningDataCodec.HashMsgsize | btc-mapping-contract/contract/mapping/signing_data_gen.go:429-432 | bounds the encoded length of one sighash |
| SigningDataCodec.HashRoundTrip | btc-mapping-contract/contract/mapping/signing_data_gen.go:365-426 | one sighash reads back in any key order, over any previous value |
| SigningDataFormat.SigningDataIsObject | btc-mapping-contract/contract/mapping/signing_data_gen.go:158-180 | what is written is one well-formed MessagePack object: a map of the transaction and the list of sighashes, each a map of number, hash and script, under these keys |
| SigningDataFormat.ExtendedRoundTrip | btc-mapping-contract/contract/mapping/signing_data_gen.go:192-267 | with any unknown fields before, between and after the two known ones, of any shape and depth, decoding returns the data and exactly the bytes after the map |
| MessageObjects.SkipExact | btc-mapping-contract/contract/mapping/signing_data_gen.go:261 | skipping passes over exactly one object of any format, nested ones included, whatever follows it |
| MessageObjects.NumbersRead | btc-mapping-contract/contract/mapping/signing_data_gen.go:234 | numbers of every width read as what they are, signed ones unless negative, and nothing else reads as a number |
| MessageObjects.HeadersRead | btc-mapping-contract/contract/mapping/signing_data_gen.go:187-220 | lists and maps of every format, and nothing else, read as lists and maps of their length |
| Layouts.Int64Layout | btc-mapping-contract/contract/mapping/utils.go:207-224 | an int64 is written in two's complement, most significant byte first |
| Layouts.SupplyLayout | btc-mapping-contract/contract/mapping/utils.go:316-323 | the four numbers of the supply record stand at bytes 0, 8, 16 and 24 |
| Layouts.EntryLayout | btc-mapping-contract/contract/mapping/utils.go:207-214 | entry i of the registry is the id at byte 9i and the amount in the eight bytes after it |
| Layouts.UtxoLayout | btc-mapping-contract/contract/mapping/utils.go:228-260 | where the six fields of a coin's record stand |
| Layouts.PendingLayout | btc-mapping-contract/contract/mapping/utils.go:356-363 | id i of the pending list is the hex of bytes 32i to 32i + 31 |
| Layouts.DecodeHexExact | btc-mapping-contract/contract/blocklist/blocklist.go:55-59 | hex decoding yields exactly the bytes whose digits the text is, pair by pair and in either case |
| Layouts.DisplayLayout | btc-mapping-contract/contract/mapping/unmapping.go:312 | a transaction id is the hash's bytes backwards, two lower-case digits each |
| Layouts.TxIdLayout | btc-mapping-contract/contract/mapping/unmapping.go:312 | a transaction's id is the double hash of its serialisation, backwards, two lower-case digits a byte |
| Layouts.ParseInt64Exact | btc-mapping-contract/contract/mapping/handlers.go:20-23 | an amount parses iff it is an optional sign and at least one decimal digit with a value in int64, and to that value |
| Layouts.FormatUintExact | btc-mapping-contract/contract/blocklist/blocklist.go:127-128 | unpadded text names the number in lower-case digits of the base, without leading zeros |
| Layouts.KeyTexts | btc-mapping-contract/contract/constants/constants.go:20-31 | the string under which each kind of record is stored |
| Layouts.StoreTexts | btc-mapping-contract/contract/mapping/utils.go:426-446 | the flat store, string by string, of whatever state it represents: minimal big-endian balances, observation marks, raw headers, records, the two counters |
| Proof.VerifyMerkleProof | btc-mapping-contract/contract/mapping/proof.go:55-81 | the hashing loop accepts iff the climb ends at the root |
| Proof.MerkleProofFromHex | btc-mapping-contract/contract/mapping/proof.go:40-53 | accepts exactly the hex of a whole number of hashes and returns them in order |
| Proof.AuthenticBranchVerifies | btc-mapping-contract/contract/mapping/proof.go:55-81 | the branch of every leaf of every tree, under Bitcoin's duplicate-last rule, verifies |
| Proof.VerifiedIsLeaf | btc-mapping-contract/contract/mapping/proof.go:55-81 | a verifying proof as long as the tree is high proves a leaf, absent a collision among the strings hashed |
| Proof.VerificationExact | btc-mapping-contract/contract/mapping/proof.go:55-81 | for full-height proofs and positions below the leaf count: verifies iff it is that leaf with its authentic branch |
| Proof.SmallTrees | btc-mapping-contract/contract/mapping/proof.go:66-78 | roots and climbs of blocks of one, two and three transactions written out: left before right, an odd last node paired with itself |
| Proof.ProofRoundTrip | btc-mapping-contract/contract/mapping/proof.go:40-53 | the hex of hashes one after the other is read back as those hashes |
| HeaderFields.FieldsRead | btc-mapping-contract/contract/mapping/proof.go:20-34 | of a serialised header the contract reads the Merkle root and previous-block fields, and hashes all 80 bytes |
| HeaderFields.LinkedFields | btc-mapping-contract/contract/blocklist/blocklist.go:121-124 | header b may follow header a iff b's previous-block field is the hash of a's 80 bytes |
| Proof.ShortProofExact | btc-mapping-contract/contract/mapping/proof.go:55-81 | the length is not checked: with k siblings fewer exactly the nodes k levels up verify |
| Blocklist.DivideHeaderList | btc-mapping-contract/contract/blocklist/blocklist.go:55-69 | accepts exactly the hex of whole 80-byte headers and returns them in order |
| Contract.HeaderChain.HandleAddBlocks | btc-mapping-contract/contract/blocklist/blocklist.go:71-134 | the appending loop stores headers and stops as specified, including what it wrote before an error |
| Contract.HeaderChain.HandleSeedBlocks | btc-mapping-contract/contract/blocklist/blocklist.go:137-165 | seeds or refuses as specified |
| Blocklist.ExtendEffect | btc-mapping-contract/contract/blocklist/blocklist.go:84-134 | whatever stops the loop, every header it wrote links to its predecessor, nothing stored is rewritten, and the height counts them without wrapping |
| Blocklist.ExtendExact | btc-mapping-contract/contract/blocklist/blocklist.go:101-134 | the loop stores exactly the longest run of headers that are in range, pass the work check and link up, at the heights above the tip, and reports why the next one is not stored |
| Blocklist.AddBlocksExact | btc-mapping-contract/contract/main.go:78-120 | what an accepted call writes: that run, every header of it past the work check, and the new height or 0 |
| Blocklist.AddedExact | btc-mapping-contract/contract/blocklist/blocklist.go:101-134 | on success the reported height and count are those of all headers sent |
| Blocklist.AddBlocksAccepted | btc-mapping-contract/contract/main.go:78-120 | a call is accepted iff it is sent whole headers in hex, there is a readable tip, and the first header not stored, if any, only fails to link; otherwise the error |
| Blocklist.SeedExact | btc-mapping-contract/contract/blocklist/blocklist.go:137-165 | a seed is accepted iff it is hex and the first one, or on a test network one above the stored height or after a reset to 0; it writes that header and height and nothing else |
| Blocklist.HeadersRoundTrip | btc-mapping-contract/contract/blocklist/blocklist.go:55-69 | the hex of headers one after the other is read back as those headers |
| Blocklist.AddBlocksKeepsChain | btc-mapping-contract/contract/main.go:78-120 | an accepted call leaves the stored height at the tip of the chain exactly when the headers sent link up from the stored tip, or the tip is at height 0 and the first header sent does not link |
| Blocklist.ExtendLinks | btc-mapping-contract/contract/blocklist/blocklist.go:84-134 | a loop not stopped by height or work succeeds exactly on headers that link up from the tip |
| Blocklist.AddBlocksEffect | btc-mapping-contract/contract/main.go:78-120 | what an accepted call changes, and up to which height what it wrote links up |
| Blocklist.SequenceErrorResetsHeight | btc-mapping-contract/contract/main.go:97-108 | an input on which the stored height stops naming the tip |
| Int64.SafeAdd64 | btc-mapping-contract/contract/mapping/utils.go:539-547 | the sum iff it fits int64 |
| Int64.SafeSubtract64 | btc-mapping-contract/contract/mapping/utils.go:549-557 | the difference iff it fits int64 |

## Left out

- Handlers.HandleTransfer: on an error it promises no state, because the source may have deducted already; `Contract.Transfer` and `Deposits.CallRouter` restore the store, as the host does.
- Handlers.ContractState.HandleUnmap: on an error it promises no state, for the same reason; `Contract.Unmap` restores it.
- Deposits.MappingState.HandleMap: on an error it promises no state, for the same reason; `Contract.Map` restores it.
- Runs.RunKeepsPending: asks for transaction ids that are not pending already, because the source appends to the list without looking.
- Proof.VerifiedIsLeaf: asks for a proof of the tree's height, because the code does not check it; `Proof.ShortProofExact` says what shorter proofs prove.
- Parsing of raw transactions, JSON parameters and swap instructions: the model starts from the parsed transaction and registry.
- Witness data and signing: the spend is modelled without signatures; TSS signing happens outside the contract.
- Addresses, proof of work and signature hashes: uninterpreted functions of `World.Btc`.
- Script rules beyond what the contract's own scripts use: `Scripts` reads their pushes and operations and runs IF, ELSE, ENDIF, DROP and the two checks; whether a signature is valid is a predicate of the spender, the relative lock is counted in blocks, and limits and encoding policies are absent.
- The recursion limit of the MessagePack library's Skip: objects nest to any depth.
- The order in which the source walks its map of witness scripts: only the sum of their sizes depends on it.
- Cumulative intent limits: the expenditure is written under one prefix and read under another, so the value read is always zero and only the per-call limit is decided.
- Ephemeral state, logs and error messages: errors are families, without text.
- Wrap-around of transaction sizes in int64 and of slice lengths: sizes are naturals; only products with the fee rate wrap.
- Router behaviour beyond balance transfers, re-entrant calls included.
- Key registration, key creation and owner checks: the keys and the caller's right to administrative actions are taken as given.
- The streaming MessagePack encoder and decoder: they write and read the same fields as the buffer ones.
- Network lookup, address validation and the simple P2WSH variants: single-branch or library code.
