# Bonding-curve token indexer: supply ledger and snapshot store

This project models the core of a small indexer for bonding-curve tokens in Dafny. The indexer
keeps a live registry of tracked tokens, keyed by lower-cased address. A query for an untracked
address starts tracking it: the token's reserve, decimals and name are read from the chain, with
defaults when a read fails, and a zero-amount "genesis" buy is applied. The indexer then subscribes
to the contract's `Buy`, `Sell` and `Trade` events. Each event folds one trade into the token's
arbitrary-precision supply: a buy adds its amount, and a sell subtracts it, clamped at zero. Each
event also writes a snapshot record to an in-memory store. The store keeps only the last record
per lower-cased address, stamped with the time it was saved.

Modules:

- `Wrappers` (`wrappers.dfy`): `Option`.
- `Address` (`address.dfy`): `toLowerCase` on addresses, which turns an address into a map key.
- `Supply` (`supply.dfy`): the per-trade supply arithmetic as a pure function, `Replay` of a
  sequence of trades, and the conservation lemmas.
- `Db` (`db.dfy`): the snapshot store. The values `Save` and `Lookup` act on a map. The class
  `SnapshotStore` holds the `memoryStore` map, and its `SaveState` and `GetLatestState` are
  specified by those functions.
- `Server` (`server.dfy`): the class `Indexer` holds the `liveState` registry and the list of
  event subscriptions. Its methods are `StartIndexing`, `UpdateToken`, the subscription callback
  `OnEvent`, and `Latest`, which starts tracking and then reads the latest snapshot. Two ghost
  fields record each token's opening supply and the trades applied to it since.
  `Indexer.Valid()` states three things:
  - each live supply equals its opening supply with those trades replayed;
  - every stored snapshot belongs to a tracked token and agrees with its live entry;
  - a tracked token has a subscription exactly when it has a snapshot, and never two.

  A token normally gets both while tracking starts. It gets neither when the chain-head read
  fails after its entry is inserted (src/server.ts:40-42): the entry stays, every later query
  returns at the `liveState.has` test, and the token is never indexed.

Inputs the source obtains from the outside world are parameters:

- the chain reads are a `ChainReads` value, with `None` for a read that failed;
- the current block number is an `Option<nat>`, with `None` when `getBlockNumber` rejects;
- `new Date()` is a `now: nat`;
- price and market cap come from a function `pricing(supply, decimals)` that is fixed when the
  `Indexer` is constructed.

Points where the code departs from what such an indexer is expected to do (the model follows
the code):

- The code does not de-duplicate events. `Supply.DuplicateBuyCountsTwice` shows that a buy
  delivered twice is counted twice.
- The code does not order events either. `UpdateToken` applies whatever arrives, and the store's
  latest record is simply the last one written (`Db.LastWriterWins`). It is not the record with
  the highest block number.
- The code subscribes to all three of `Buy`, `Sell` and `Trade`. If the contract emits both a
  `Buy` and a `Trade` for one purchase, that purchase is counted twice.
- The code stores only the latest record per address, not an append-only history.
- The code takes the initial supply from the virtual token reserve, not from a total-supply read.
- When `getBlockNumber` fails on a first query, the entry has already been inserted. That query
  gets the error answer (src/server.ts:173-174). Every later query gets "Indexing started"
  (503) forever, because tracking never starts again (`Server.Indexer.Latest`,
  `Server.StuckHasNoListener`).

## Model

| member | source | states |
|---|---|---|
| `Address.Lower` | src/server.ts:22 | lower-casing keeps the length of the address |
| `Address.LowerAt` | src/server.ts:22 | each character of a lower-cased address is that character lower-cased, so A-Z become a-z and nothing else changes |
| `Address.LowerFixesLower` | src/db.ts:37 | lower-casing a string with no upper-case letter leaves it unchanged |
| `Address.LowerIdempotent` | src/db.ts:36-38 | a lower-cased address contains no upper-case letter, and lower-casing it again gives the same key |
| `Address.SameAsLower` | src/server.ts:69 | every spelling of an address names the same key as its lower-cased form |
| `Supply.ApplyTrade` | src/server.ts:73-77 | the new supply is the old supply plus the signed amount, floored at zero: a buy adds exactly the amount, and a sell never raises the supply |
| `Supply.GenesisIsNeutral` | src/server.ts:43 | the genesis event (amount 0, buy) leaves any supply unchanged |
| `Supply.ReplayAppend` | src/server.ts:73-77 | replaying two runs of trades back to back equals replaying the concatenation |
| `Supply.ReplaySnoc` | src/server.ts:73-77 | one more trade at the end of a history is one more application of the per-trade update |
| `Supply.ReplayLowerBound` | src/server.ts:73-77 | the replayed supply is never less than opening supply plus buys minus sells |
| `Supply.ReplayUpperBound` | src/server.ts:73-77 | the replayed supply is never more than opening supply plus buys, since a sell never raises it |
| `Supply.ReplayExact` | src/server.ts:73-77 | when the unclamped running supply never goes negative, the replayed supply is exactly opening supply plus buys minus sells |
| `Supply.ReplayBuysOnly` | src/server.ts:73-74 | with buys only, the final supply is the opening supply plus every amount bought |
| `Supply.ReplayMonotone` | src/server.ts:73-77 | a larger opening supply never ends with a smaller replayed supply |
| `Supply.DuplicateBuyCountsTwice` | src/server.ts:46-48 | delivering the same buy twice adds its amount twice, because there is no de-duplication |
| `Db.Stamp` | src/db.ts:26-31 | the stored record is the caller's data unchanged plus the save-time timestamp; `Strip` recovers the data |
| `Db.Save` | src/db.ts:33 | saving adds exactly the data's lower-cased address to the keys and keeps every record filed under its own lower-cased address |
| `Db.LookupAfterSave` | src/db.ts:33-46 | after saving, a read of the same address in any letter case returns the stamped record, whose data is the saved data |
| `Db.LookupOtherAfterSave` | src/db.ts:33 | saving one address leaves every other address's read unchanged |
| `Db.Lookup` | src/db.ts:37-39 | a read is null (`None`) exactly when nothing is filed under the lower-cased address; in a well-keyed store a record found is for the same address |
| `Db.LookupUnaffected` | src/db.ts:33 | any history of saves that never names an address leaves that address's read unchanged |
| `Db.LookupNeverSaved` | src/db.ts:33-39 | starting from the empty store, after any history of saves that never names an address, that address reads as null (`None`) |
| `Db.LookupAfterHistory` | src/db.ts:33-39 | after any history of saves, an address reads as the stamped record of the last save that named it, in any letter case |
| `Db.LastWriterWins` | src/db.ts:33 | a second save for the same address replaces the first entirely, whatever the block numbers |
| `Db.LookupCaseInsensitive` | src/db.ts:36-38 | reading by an address or by its lower-cased form is the same read |
| `Db.SnapshotStore.constructor` | src/db.ts:1-14 | the store starts empty and well keyed |
| `Db.SnapshotStore.SaveState` | src/db.ts:16-34 | the store becomes `Save` of the old store, so the entry is overwritten and stays well keyed |
| `Db.SnapshotStore.GetLatestState` | src/db.ts:36-47 | returns `None` exactly when nothing was saved under the lower-cased address; otherwise returns the stored record with all fields kept, whose address is the same address |
| `Server.FallbackName` | src/server.ts:27 | the fallback name is the hint, or "Unknown Token" when the hint is empty, and is never empty |
| `Server.Bootstrap` | src/server.ts:27-38 | if the reserve read fails: supply 10^9·10^18, decimals 18, fallback name. If it succeeds: the supply is the reserve. A failed decimals read keeps decimals 18 and the fallback name. A failed name read alone keeps the fallback name |
| `Server.IsBuy` | src/server.ts:46-56 | an event is a buy exactly when it is a Buy event or a Trade event flagged as a purchase |
| `Server.EventEffect` | src/server.ts:46-56 | a Buy event adds its amount, a Sell event subtracts it clamped at zero, and a Trade event acts as its `isPurchase` flag says |
| `Server.Advance` | src/server.ts:69-77 | one trade changes only the supply of its own token, by `ApplyTrade`; name, decimals and all other tokens stay, and an untracked key changes nothing |
| `Server.GenesisAfterInsert` | src/server.ts:40-43 | applying the genesis event to a just-inserted entry leaves the registry as it was after the insert |
| `Server.TrackedSupply` | src/server.ts:73-77 | for any token an indexer tracks, with the supply it was created with as opening supply, the live supply is at least opening plus buys minus sells, at most opening plus buys, and exactly opening plus buys minus sells when no sell exceeded the supply it met |
| `Server.DistinctListenerCount` | src/server.ts:40-59 | subscriptions for pairwise distinct tokens subscribe for exactly as many tokens as there are subscriptions |
| `Server.SubscriptionCount` | src/server.ts:22-59 | in a valid indexer the number of subscriptions equals the number of snapshotted tokens, so no token is ever subscribed twice |
| `Server.StuckHasNoListener` | src/server.ts:40-59 | a tracked token without a snapshot has no subscription, so no event ever reaches it |
| `Server.Indexer.SnapshotOf` | src/server.ts:79-94 | the snapshot carries the entry's name and supply under the lower-cased key, the event's block, log index and tx hash, and the price and market cap of (supply, decimals) |
| `Server.FirstQuery` | src/server.ts:21-154 | on a fresh indexer, a first query whose chain-head read succeeds answers the bootstrap supply, tracks only that token with one subscription, and records the bootstrap supply as its opening supply behind the genesis event alone |
| `Server.BuyThenQuery` | src/server.ts:46-154 | a buy for a subscribed token followed by a query answers the supply raised by exactly the amount bought, keeps the opening supplies and appends the buy to that token's history |
| `Server.FirstQueryThenBuy` | src/server.ts:21-154 | first query, one buy, second query: the replies carry the bootstrap supply and then that supply plus the amount, and the history is the opening supply followed by the genesis event and the buy |
| `Server.Indexer.constructor` | src/server.ts:14-19 | the registry, the subscriptions and the store start empty and the invariant holds |
| `Server.Indexer.UpdateToken` | src/server.ts:61-94 | for an untracked address nothing changes and nothing is saved. Otherwise the supply moves by the trade and a snapshot is saved with the token's name, key, block, log index, tx hash, new supply and the price of (new supply, decimals). The invariant is kept |
| `Server.Indexer.StartIndexing` | src/server.ts:21-59 | an address already tracked, in any letter case, changes nothing, ghost history included. Otherwise the bootstrap entry is inserted and its supply recorded as the opening supply. If the chain head is read, the genesis snapshot is saved at that block with log index 0 and tx "genesis", the supply is unchanged by genesis, and exactly one subscription is added. If the read fails, the call fails and the entry stays with no snapshot and no subscription |
| `Server.Indexer.OnEvent` | src/server.ts:46-56 | a Buy, Sell or Trade callback on a subscribed address performs `UpdateToken` with the direction its kind gives, replacing that token's snapshot, appending the trade to that token's history and keeping every opening supply |
| `Server.Indexer.Latest` | src/server.ts:149-174 | changes the state, opening supplies and histories only as `StartIndexing` does. The reply is the error exactly when tracking starts now and the chain head cannot be read. It is "Indexing started" exactly when the token was already tracked without a snapshot. Otherwise it is the lower-cased address's snapshot, which carries the token's live supply |

## Left out

- HTTP routes, JSON responses, status codes (`Latest` returns a `Reply` in their place) and the hard-coded token of the GET route
  (src/server.ts:106-184). These are transport. `Latest` keeps only the "start tracking, then
  read" step.
- Address validation with `ethers.isAddress` (src/server.ts:145). It is a library call.
- The WebSocket provider, contract calls and `contract.on` subscriptions. Their results are the
  `ChainReads` and event parameters, and a subscription is recorded only as the address it
  listens for. The contract handle stored in each live entry is not modelled.
- Price, market cap and the USD figures. They are floating point, formatted with `toFixed`. The
  model takes the price and market-cap strings from `pricing(supply, decimals)`, which is kept
  uninterpreted.
- Console logging and the SIGINT teardown that clears the store (src/db.ts:49-53).
- Concurrency. Each `await` in `startIndexing` could let another request interleave. Two
  concurrent first requests could then both create the entry, and a request could read the
  store before the genesis snapshot is saved and get the "Indexing started" answer. The model
  runs each call to completion.
- Address.Lower: lower-cases ASCII A-Z only, not the full Unicode case mapping of
  `toLowerCase`. Addresses are hexadecimal, so this makes no difference for them.
- Live entries are values in the `liveState` map rather than shared objects mutated in place.
  Nothing else holds a reference to them, so this loses no behaviour.
- A missing (`undefined`) name hint is modelled as the empty string. Both are falsy, so both get
  the same fallback name.
- src/consts.ts holds constants only. The default supply and decimals are written out in
  `Server`.
