# aptly transaction flow analysis, in Dafny

This project models the transaction flow analysis of the `aptly` command line
tool (`cmd/tx` in the Go code) and proves properties of that model. Given one
committed Aptos transaction, the analysis does three things:

- **transfers** (`cmd/tx/transfers.go`): reads the transaction's change set twice.
  - The first pass builds an object → owner map from `0x1::object::ObjectCore` writes.
  - The second pass builds a fungible-store → (owner, asset) map.
  - The analysis then lists the `0x1::fungible_asset::Withdraw` and `Deposit` events of the log as `TransferEvent`s.
  - A store missing from the map is resolved through the node (`queryTransferStoreInfo`).
- **graph** (`cmd/tx/graph.go`): pairs withdraws with deposits of the same asset, first come first served.
  - Each deposit takes the oldest pending withdraw of its asset and becomes a `Transfer`.
  - A deposit with nothing to take becomes an orphan-in.
  - Withdraws never taken become orphan-outs.
- **balance change** (`cmd/tx/balance_change.go`): lists every fungible-store record of the change set, in order.
  - It reads each store's balance one version earlier, defaulting to "0".
  - It reports the exact integer difference `after - before` as a decimal string.
  - Stores whose balance did not change are dropped.

Modules, one per concern:

| module | file | content |
|---|---|---|
| `Wrappers` | wrappers.dfy | `Option`, `Result` |
| `JsonValue` | json.dfy | the decoded `map[string]any` view of a transaction and Go's type-assertion accessors (`x, _ := m[k].(string)` reads `""`) |
| `Decimal` | decimal.dfy | decimal text: `big.Int.String`, `big.Int.SetString`, `strconv.ParseUint(s, 10, 64)` |
| `Chain` | chain.dfy | the node client as an oracle: address parsing, historical resource lookup, transaction fetch; the resource-type constants |
| `ChangeSet` | changeset.dfy | tolerant decoding of `write_resource` records and the shared first pass (object owners) |
| `Transfers` | transfers.dfy | the store map, the fallback lookup and the event extraction of `cmd/tx/transfers.go` |
| `BalanceChange` | balance_change.dfy | the ordered store list, `calculateChange`, and the version check and per-store loop of `runBalanceChange` |
| `Graph` | graph.dfy | `buildTransferGraph` and `truncateAddress` |

Every loop of the Go code is a `method` with a `while` loop. The methods `ChangeSet.CollectObjectOwners`, `Transfers.ExtractTransferStoreInfo`, `Transfers.ExtractTransferEvents`, `BalanceChange.ExtractFungibleStores`, `BalanceChange.CollectBalanceChanges`, `Graph.PairEvents` and `Graph.AppendOrphans` are each proved equal to a specification function that recurses on the prefix of its input. The other methods are specified differently:
- `Graph.CollectOrphans` visits the assets in an unspecified order. It is specified per asset, and as the whole queues concatenated in some order of the asset keys.
- `Transfers.QueryTransferStoreInfo` and `BalanceChange.RunBalanceChange` have no loop. They are specified by case against non-recursive functions of the client's answers (`BalanceChange.BalanceChangeOutcome` for the latter).
- `Graph.BuildTransferGraph` and `BalanceChange.ReportBalanceChanges` have no loop of their own. Each calls the loop methods above in turn, and its contract combines theirs.

The properties are lemmas about those functions. Calls to the node are parameters (`Chain.Client`). `Transfers.ExtractTransferEvents` and `Graph.BuildTransferGraph` (through `Graph.PairEvents`) also return the list of stores they sent to `queryTransferStoreInfo`, so that "the client is not consulted" and "nothing is cached" can be stated.

Two behaviours of the code worth stating outright:
- `runBalanceChange` rejects only version 0. Version 1 is accepted and compared against version 0 (`BalanceChange.VersionOneAccepted`).
- `buildTransferGraph` does not add what it learns from the client back into the store map. Each event on an unknown store asks the client again (`Graph.LookupsAreNotCached`).

## Model

| member | source | states |
|---|---|---|
| ChangeSet.CollectObjectOwners | cmd/tx/transfers.go:89-117 | the first pass yields exactly the owners map `OwnersOf(changes)` |
| ChangeSet.OwnersOfDomain | cmd/tx/balance_change.go:130-166 | an address has an owner entry if and only if some change is an ObjectCore write to it with an object `data` |
| ChangeSet.OwnersOfLastWins | cmd/tx/transfers.go:116 | of several ObjectCore writes to one address, the last in change-set order gives the owner |
| Transfers.ExtractTransferStoreInfo | cmd/tx/transfers.go:66-158 | the two passes yield exactly `StoreInfoOf(changes, OwnersOf(changes))` of the transaction's changes (empty when `Inner` or `Changes` is missing) |
| Transfers.StoreInfoDomain | cmd/tx/transfers.go:120-148 | a store has an entry if and only if some change writes a resource of type exactly `0x1::fungible_asset::FungibleStore` whose data holds a `metadata` object at that address |
| Transfers.StoreInfoLastWins | cmd/tx/transfers.go:151-154 | of several store writes to one address, the last decides the entry: owner from the owners map, asset from its `metadata.inner` |
| Transfers.StoreInfoOwner | cmd/tx/transfers.go:151-154 | every entry's owner is the owners-map value at its own address, or "" |
| Transfers.ExtractedStoreOwner | cmd/tx/transfers.go:89-117 | a store's owner comes from an ObjectCore write anywhere in the change set, before or after the store record, and is "" when there is none |
| Transfers.QueryTransferStoreInfo | cmd/tx/transfers.go:225-254 | never fails; the owner is `data.owner` of the ObjectCore resource and the asset is `data.metadata.inner` of the FungibleStore resource, each "" when its lookup or field is missing |
| Transfers.UnparseableStoreIsEmpty | cmd/tx/transfers.go:228-231 | an unparseable store address gives an empty owner and asset |
| Transfers.LookupsIndependent | cmd/tx/transfers.go:233-251 | the owner depends only on the ObjectCore lookup and the asset only on the FungibleStore lookup |
| Transfers.ExtractTransferEvents | cmd/tx/transfers.go:160-223 | the events equal `TransferEventsOf(log, ...)`; the client is asked exactly about the stores of transfer entries missing from the map, in log order |
| Transfers.EntryIndicesInRange | cmd/tx/transfers.go:183-203 | the positions of the transfer entries are in range and each names a Withdraw/Deposit entry with object `Data` |
| Transfers.EntryIndicesIncreasing | cmd/tx/transfers.go:183 | those positions are strictly increasing (log order) |
| Transfers.EntryIndicesComplete | cmd/tx/transfers.go:183-203 | every Withdraw/Deposit entry with object `Data` has its position listed |
| Transfers.TransferEventsInLogOrder | cmd/tx/transfers.go:183-220 | exactly one event per such entry and none for any other, the k-th event coming from the k-th such entry |
| Transfers.KnownStoresSkipClient | cmd/tx/transfers.go:208-211 | when every transfer entry names a store in the map, the client is never asked and the result does not depend on it |
| Transfers.UnresolvedStoreStillReported | cmd/tx/transfers.go:208-251 | an entry on a store that neither the map nor the client knows is still reported, with empty owner and asset; "not known to the client" means its address does not parse, or both resource lookups fail |
| Transfers.EntryLabel | cmd/tx/transfers.go:189-198 | the `Type` label is "withdraw" exactly for a `0x1::fungible_asset::Withdraw` entry and "deposit" exactly for a `Deposit` entry |
| Transfers.NoInnerNoRecords | cmd/tx/transfers.go:79-87 | a transaction without an `Inner` object gives an empty store map and no events |
| BalanceChange.ExtractFungibleStores | cmd/tx/balance_change.go:105-217 | the store list is exactly `StoresOf(changes, OwnersOf(changes))` |
| BalanceChange.StoresOfAppend | cmd/tx/balance_change.go:169-214 | the list follows change-set order record by record (the list of a concatenation is the concatenation of the lists) |
| BalanceChange.DuplicatesKept | cmd/tx/balance_change.go:208-213 | a record written twice is listed twice |
| BalanceChange.StoresOfOwner | cmd/tx/balance_change.go:208-213 | every listed store's owner is the owners-map value at its address, or "" |
| BalanceChange.ContainsSuffix | cmd/tx/balance_change.go:191 | `strings.Contains` holds for any string ending with the substring |
| BalanceChange.ExactTypeContainsMarker | cmd/tx/balance_change.go:191 | the exact FungibleStore type contains the marker `fungible_asset::FungibleStore` |
| BalanceChange.TransferStoresAreListed | cmd/tx/balance_change.go:190-193 | every store record the transfer analysis accepts is also listed by this pass, with the same fields |
| BalanceChange.OtherStoreTypesListedOnlyHere | cmd/tx/balance_change.go:190-193 | any store record whose type contains the marker but is not exactly `0x1::fungible_asset::FungibleStore` is listed by this pass and skipped by the transfer analysis |
| BalanceChange.CalculateChangeIsDifference | cmd/tx/balance_change.go:219-228 | for well-formed decimals the result is canonical and parses back to after − before; it is "0" if and only if the values are equal, and starts with '-' if and only if the balance went down |
| BalanceChange.CalculateChangeSame | cmd/tx/balance_change.go:219-228 | equal texts give "0" |
| BalanceChange.CalculateChangeFromZero | cmd/tx/balance_change.go:219-228 | against "0", the change of a canonical balance is that balance |
| BalanceChange.RunBalanceChange | cmd/tx/balance_change.go:40-94 | non-numeric version → invalid-version error; version 0 → its own error, both before any fetch; a failed fetch → fetch error; otherwise the report of the fetched transaction against version − 1 |
| BalanceChange.ReportBalanceChanges | cmd/tx/balance_change.go:62-94 | lists the stores of the fetched transaction and reports their changes, in store order |
| BalanceChange.CollectBalanceChanges | cmd/tx/balance_change.go:65-94 | the loop yields exactly `BalanceChangesOf(stores)`, and every reported change is non-zero and equals `calculateChange(before, after)` |
| BalanceChange.ReportedChangesNonZero | cmd/tx/balance_change.go:82-93 | every reported entry has change ≠ "0", change = `calculateChange(before, after)`, and different before and after values when both are well formed |
| BalanceChange.BalanceChangesAppend | cmd/tx/balance_change.go:66 | output order is store order; each store is handled on its own |
| BalanceChange.UnparseableStoreSkipped | cmd/tx/balance_change.go:67-70 | a store whose address does not parse is skipped without affecting the stores around it |
| BalanceChange.NewStoreReportsItsBalance | cmd/tx/balance_change.go:72-80 | with no resource at the previous version the prior balance is "0", and a non-zero canonical balance is reported with itself as the change |
| BalanceChange.VersionOneAccepted | cmd/tx/balance_change.go:41-48 | version "0" is rejected, while version "1" passes the check: a failed fetch of transaction 1 is a fetch error, and otherwise the report is taken against version 0 |
| Decimal.RenderNat | cmd/tx/balance_change.go:227 | `big.Int.String` of a natural number is a non-empty string of digits |
| Decimal.RenderNatCanonical | cmd/tx/balance_change.go:227 | it has no leading zero except "0" itself |
| Decimal.RenderNatValue | cmd/tx/balance_change.go:227 | its digits read back as the number |
| Decimal.CanonicalNatRender | cmd/tx/balance_change.go:223-224 | a canonical digit string is the rendering of its value |
| Decimal.ParseRenderInt | cmd/tx/balance_change.go:223-227 | rendering any integer gives canonical text that `SetString` reads back as the same integer |
| Decimal.RenderParseInt | cmd/tx/balance_change.go:223-227 | canonical text read and rendered again is unchanged |
| Decimal.ParseUint64Render | cmd/tx/balance_change.go:41 | every value below 2^64 rendered in decimal is accepted by `strconv.ParseUint(s, 10, 64)` as itself |
| Graph.BuildTransferGraph | cmd/tx/graph.go:83-147 | transfers and orphans-in equal the pairing of the event log; the orphans-out hold every queued withdraw once, per asset in queue order, each asset's queue as one block in some order of the assets; \|transfers\| + \|in\| = number of Deposit events, \|transfers\| + \|out\| = number of Withdraw events; the client is asked about every event's unknown store |
| Graph.PairEvents | cmd/tx/graph.go:95-133 | the first loop yields exactly the pairing `PairAll(events)` and the stores looked up |
| Graph.CollectOrphans | cmd/tx/graph.go:135-144 | the second loop emits as many orphans-out as withdraws are queued, and for every asset exactly that asset's queue in order, whatever order the assets are visited in; the output is the whole queues appended one after another, in an order that lists each asset key once |
| Graph.AppendOrphans | cmd/tx/graph.go:137-143 | one asset's queue is appended as orphans-out in queue order |
| Graph.OrphansDrained | cmd/tx/graph.go:136-144 | draining one more asset leaves all other assets' orphans-out as they were |
| Graph.TotalPendingUpdate | cmd/tx/graph.go:105-116 | replacing one asset's queue changes the number of queued withdraws by the difference in that queue's length |
| Graph.PairingConservation | cmd/tx/graph.go:95-133 | every deposit becomes a transfer or an orphan-in, and every withdraw a transfer or a queued withdraw |
| Graph.FifoWithdraw | cmd/tx/graph.go:105-109 | a withdraw joins the back of its asset's queue |
| Graph.FifoPop | cmd/tx/graph.go:112-123 | a deposit moves the head of its asset's queue to the matched transfers |
| Graph.FifoDeposit | cmd/tx/graph.go:111-131 | a deposit keeps the FIFO relation of every asset |
| Graph.FifoStep | cmd/tx/graph.go:104-132 | every event keeps the FIFO relation of every asset |
| Graph.PairingIsFifo | cmd/tx/graph.go:104-123 | per asset, the k-th transfer comes from the k-th withdraw, and the queue holds exactly the withdraws not yet matched, in log order |
| Graph.DepositPairsWithHead | cmd/tx/graph.go:112-123 | a transfer's From is the popped withdraw's account, To the depositor's owner, Amount the deposit's amount; the withdraw's amount is not compared |
| Graph.UnmatchedDepositIsOrphanIn | cmd/tx/graph.go:124-131 | a deposit whose asset queue is empty becomes exactly one orphan-in with the depositor's owner, asset and amount |
| Graph.StepIsLocal | cmd/tx/graph.go:104-132 | events of other types change nothing; no event touches another asset's queue |
| Graph.PairingAppendOnly | cmd/tx/graph.go:118-130 | transfers and orphans-in only grow: those of a prefix of the log are prefixes of those of the log |
| Graph.LookupsAreNotCached | cmd/tx/graph.go:99-102 | an event on a store missing from the map asks the client again, even about a store it has already asked about |
| Graph.FifoExample | cmd/tx/graph.go:104-123 | W(A,10,X), W(B,5,X), D(C,10,X) gives the transfer A→C 10 X and leaves B 5 X queued (an orphan-out) |
| Graph.OrphanInExample | cmd/tx/graph.go:124-131 | a lone deposit is an orphan-in and no transfer |
| Graph.TruncateAddressShape | cmd/tx/graph.go:175-180 | an address of length ≤ 12 is unchanged; a longer one becomes its first 6 characters, "..", and its last 4, 12 characters in all; shortening twice changes nothing |

## Left out

- HTTP and client plumbing (`aptos.NewClient`, `TransactionByVersion`, `AccountResource`, address parsing) is not modelled. These become the fields of `Chain.Client`, any error becomes `None`, and a failure to create the client is not represented.
- The JSON marshal/unmarshal round trip that turns the SDK value into `map[string]any` is not modelled. The model starts from the decoded `JsonValue.Json`, and the marshalling error paths (which return an empty result) are not represented.
- BalanceChange.CalculateChange: `big.Int.SetString` on malformed decimal text is left undefined by Go. The model reads such text as 0, and its properties are stated only for well-formed input.
- Graph.TruncateAddress: Go slices bytes and the model slices characters. They agree on the hexadecimal ASCII addresses the tool prints.
- `printPrettyGraph`, JSON encoding of the results and all printing are output formatting only.
- Command-line argument parsing, `runTransfers` and the fetch step of `runGraph`.
- `extractTransferStoreInfoFromUserTx`, `fetchTransaction` and `getString` are not part of this model. The graph takes the store map and the event list as inputs, and reads event fields as strings or "" (`Graph.StoreOf`, `Graph.AmountOf`).
- Graph.CollectOrphans: the order of orphans-out across assets follows Go's map iteration, which is unspecified. The model picks assets in an arbitrary order, and its contract states the orphans-out per asset, and as the queues concatenated in an order that it does not fix, rather than as one fixed sequence.
- Fixed-width integers: versions are `nat`. The 64-bit bound appears only in `Decimal.ParseUint64`, and `version - 1` cannot wrap because version 0 is rejected first.
