# Decoding Blend ledger state: a verified model

The repository folds ledger changes of the Blend lending protocol, and of a few liquidity pools, into a typed state
and computes positions, prices and rates from it. This project models the parts of it where correctness rests on an
argument rather than on one branch, and proves those arguments.

**The two decode strategies.** The *paranoid* strategy rebuilds a builder mirror from the previous state at every
ledger, applies the changes, resolves every position and sorts everything. The *incremental* strategy keeps a live
mirror, a sorted list of cached entries, a block of rows per (address, pool) and a snapshot of every pool's index
map, and recomputes only what a ledger touched.

- `Mirror` specifies the builder: what each change does (`Apply`), how it is loaded from a state (`Load`), built and
  published, and how the live mirror is normalized between ledgers (`NormalizeCarry`). `Builder.StateBuilder` is the
  builder on the heap, its maps updated in place, each method tied to the function of the same name.
- `Reference.Decode` is the reducer both strategies answer to. `Paranoid.DecodeBlendState` runs it as loops over maps
  in arbitrary order followed by sorts; `Incremental.IncrementalStrategy.DecodeState` runs it from its caches, on heap
  entries shared by a key list and an index. Both build prices and pools through the loops of `Builder` and assemble
  what they return through those of `Publishing`, in state, dirty positions, dirty backstops, diagnostics and temporary
  changes. Paranoid is proved equal to `Reference.Decode` always. Incremental is proved equal to it whenever it reseeds
  and whenever the blobs it carries decode, and what it returns otherwise is stated too.
- `Run` extends this to whole runs in which the caller passes at each ledger the state returned last, a copy of it, or
  any other state: `Run.IncrementalRun` computes the run specification for every run, `Run.LosslessRunsAgree` and
  `Run.RunContinuesExactly` say when that is the reference's run.
- The three arguments the source gives in comments are theorems: the carry equals a reload (`Carry`), concatenated
  sorted blocks are the global sort (`Blocks`, `Reference`), and a block only changes when its own entry or its pool's
  index map does (`Cache`).
- What the changes of a ledger say is what its state shows: a change reaches its own records only (`Confinement`), a live
  write is stored value by value (`Writes`, `ReserveWrites`), it stays through every other change (`Persistence`), and
  so the last write of every entry is what the ledger publishes (`LastWrites`); `Removals` is the same for what goes
  away, `Prices` follows a price from its oracle or feed to the published reserve and backstop row, and `Reports` says
  which backstop holders a ledger reports as dirty and which not.
- `Reserves` holds the known-unique index rule in its three forms and the conservation of position legs, which
  `Conservation` carries to the rows and diagnostics a ledger returns; `Lifecycle` the replica a consumer keeps from the
  auction and queued-reserve rows; `Comet` the liquidity-pool carrier.

**Prices.** `Reflector` decodes mask-ranked sparse batches, trims rounds and walks back for a price; `RoundCarry` shows
over whole runs when dropping old rounds is invisible.

**Arithmetic.** `Division` collects facts on truncated quotients. `Ticks` and `Liquidity` cover tick prices and range
principal, `Rewards` pending rewards and pro-rata amounts, `FixedPoint` division through a rounded 48-digit quotient,
`Health` risk figures, `Rates` utilization and interest, `BackstopShares` the two-stage conversion of backstop shares.

`Keys`, `Slices`, `Entries` and `Options` are shared vocabulary: composite keys with their order, sorted slices of keyed
maps and the loops that list them.

## Where the code does not do what is said of it

- *The incremental strategy is not always a function of the prior's content and the changes*, as
  blend/state_incremental.go:27-30 says it is. Archiving a Positions entry that was never seen and whose value does not
  decode stores an empty blob (blend/state.go:1520-1534, 642-645); the live mirror keeps it, a reload drops it. So the
  carry equals a reload exactly when every carried blob decodes (`Carry.CarryEqualsReload`, `Run.CarryAgreesExactly`,
  `Run.RunContinuesExactly`). `Run.LostRunOutcomesDiffer` is a concrete run of two ledgers on which the two strategies
  return different states, `Run.LossyArchiveSeparates` the mirrors behind it.
- *Eight carried rounds* are invisible exactly when the staleness window is at most three resolutions under an active
  deviation guard, and at most seven without one (`RoundCarry.CarrySafeExactly`); `RoundCarry.BeyondReach` gives the
  run that shows it for every larger window.
- *Rounding before flooring* is exact exactly for divisors below 2 * 10^48 (`FixedPoint.ExactJustBelowTwiceTheScale`).
- *The shortfall is reported as zero when there is no collateral at all*, whatever the liability
  (`Health.ShortfallExactWhen`, `Health.NoCollateralHidesShortfall`).
- *A Comet pool* whose records are known without a token list that covers them, or known empty beside tokens, is not
  restored faithfully
  (`Comet.ReloadIndistinguishable`), and every such pool can be received (`Comet.EveryPoolIsReceived`); what valuation
  reads survives in every case (`Comet.ValuationSurvives`). The comment in blend/state_comet.go:263-267 calls the
  collapsed distinction safe; it is for valuation, not for the carriers emitted later
  (`Comet.EmptyRecordsForgotten`, `Comet.RecordsWithoutList`).
- *The cached lookups and the scan of `dirtyPositionRows`* agree exactly on lists that name the pairs with rows once
  each and in order (`Run.LookupIsScanExactly`); a ledger's own list does (`Run.LookupIsScan`).

## Conditions the theorems keep

- A prior state has distinct pool ids and distinct reserve assets in each pool (`WellFormed`); every state the reducer
  publishes does (`Reference.PublishedWellFormed`).
- The inner index map of a Positions value has each index once (the `Positions` type).
- Feed rounds lie on the resolution grid and the close time is not before the newest round (`RoundCarry` only).

## Model

| member | source | states |
|---|---|---|
| Incremental.IncrementalStrategy.DecodeState | blend/state_incremental.go:101-120 | For every prior and every carried mirror: a call that does not continue the last returned state gives the reference reducer's outcome on that prior; one that does gives the outcome decoded from the normalized carried mirror, which is the reference's when the carried blobs decode. The mirror carried on is the built one and the caches stay valid |
| Incremental.IncrementalStrategy.Reseed | blend/state_incremental.go:124-155 | Reseeding loads the mirror of the prior and makes every cache fit it: keys strictly sorted and in bijection with the index, each block a fresh sorted resolution, lengths summed, index snapshot current |
| Incremental.IncrementalStrategy.Prepare | blend/state_incremental.go:101-120 | Continuing normalizes the carried mirror, reseeding loads the prior, and either way the mirror satisfies the invariant and the caches fit it, whether blobs decode or not |
| Incremental.IncrementalStrategy.Snapshot | blend/state_incremental.go:237-374 | From a fitting cache and a ledger's changes, the snapshot is what the reference exposes for the built mirror, and the caches fit the built mirror afterwards |
| Incremental.IncrementalStrategy.Refresh | blend/state_incremental.go:237-374 | Updating only touched and remapped entries brings every cache up to date with the built mirror; the dirty set and the diagnostics are the reference's |
| Incremental.IncrementalStrategy.TrackPools | blend/state_incremental.go:237-374 | The index snapshot becomes the current index maps, and the reported pools are exactly those that appeared, disappeared or moved their map |
| Incremental.IncrementalStrategy.UpdateDirty | blend/state_incremental.go:237-374 | In whatever order the dirty set is visited, the cache ends up holding the mirror's entries with fresh blocks, and the skipped legs of exactly the dirty pairs are reported |
| Incremental.IncrementalStrategy.UpdateEntry | blend/state_incremental.go:237-374 | One dirty pair is refreshed, added or dropped; every other cached block and output is unchanged |
| Incremental.IncrementalStrategy.Assemble | blend/state_incremental.go:378-410 | Walking the cached keys in order gives the pending slice and the concatenation of the blocks in key order |
| Incremental.IncrementalStrategy.Search | blend/state_incremental.go:467-482 | The binary search finds the position before which every key is below and from which none is |
| Incremental.IncrementalStrategy.InsertKey | blend/state_incremental.go:467-472 | Inserting a new entry keeps the keys strictly sorted and moves nothing but the tail |
| Incremental.IncrementalStrategy.RemoveKey | blend/state_incremental.go:474-482 | Removing an entry takes out that very entry and keeps the keys strictly sorted |
| Incremental.ComputeBlock | blend/state_incremental.go:420-433 | Ordering one entry's rows by (asset, type) gives the block that the global row order gives, and the sink receives exactly its skipped legs |
| Incremental.BlockSortAgrees | blend/state_incremental.go:412-433 | Within one owner, sorting by (asset, type) and sorting by (address, pool, asset, type) agree |
| Incremental.Ready | blend/state.go:399-442 | After any ledger from any coherent mirror the changed mirror is coherent and its untouched entries are those it started from, the published state is a well-formed prior, and normalizing the built mirror reloads it just when the blobs decode |
| Incremental.ReferenceDecodesFrom | blend/state.go:399-442 | The reference reducer is the decode from the mirror loaded from its prior, so the strategies differ in nothing but the mirror they start from |
| Paranoid.DecodeBlendState | blend/state.go:399-442 | The reference decode as loops in arbitrary map order and sorts gives the canonical outcome |
| Paranoid.MarkPoolRemapDirty | blend/state.go:467-493 | The dirty set gains exactly the pending pairs whose pool appeared, disappeared or moved its index map |
| Paranoid.BuildUsers | blend/state.go:749-787 | Visiting the pending entries in any order, the sorted pending list, rows and diagnostics are the canonical ones |
| Publishing.PublishState | blend/state.go:722-796 | Appending every component in arbitrary map order and sorting it gives the canonical ledger state |
| Publishing.FinalizeDirty | blend/state.go:503-522 | Listing a dirty set in arbitrary order and sorting it gives the canonical list, each pair marked by whether it is still present |
| Publishing.FinalizeTemporary | blend/state.go:534-570 | The same for auctions and queued reserves |
| Publishing.ReserveIndexSnapshot | blend/state.go:450-459 | Walking the pools of a prior gives the index map of each, as published |
| Publishing.TokenPriceUSD | blend/state_comet.go:360-379 | The walk over the pools stops at the first, in contract order, with a positive price for the token |
| Entries.EntriesAnyOrder | blend/state.go:800-815 | However a map is iterated and however unstable the sort, its entries sorted by their identity are one slice |
| Builder.StateBuilder.Apply | blend/state.go:955-1312 | One change updates the builder's maps in place to what the specified change makes of its view, dirty marks included; what that stores is stated by the rows of Writes, ReserveWrites and Removals |
| Builder.StateBuilder.ApplyDelete | blend/state.go:1331-1636 | The same for a removal, a lapse or an eviction |
| Builder.StateBuilder.ApplyChanges | blend/state.go:399-442 | A ledger of changes is applied in order |
| Builder.StateBuilder.MarkBackstopPoolDirty | blend/state_comet.go:394-400 | Every holder of the pool's backstop is marked, and nothing else |
| Builder.StateBuilder.AffectedHolders | blend/state_comet.go:419-459 | The dirty holders are those marked directly and those of pools with a token leg whose price moved, in whatever order aggregators, assets, pools and holders are visited |
| Builder.StateBuilder.LoadPrior | blend/state.go:599-718 | Filling a new builder from the slices of a prior gives the specified mirror |
| Builder.StateBuilder.ResolveAggregatorPrices | blend/state_reflector.go:474-530 | Every aggregator gets the oracle synthesized from the feeds, in whatever order they are visited |
| Builder.StateBuilder.ResolveFeedPrice | blend/state_reflector.go:549-611 | The lookups before the walk and the walk itself give the resolved price of an asset, none when feed, resolution or asset is missing |
| Builder.StateBuilder.FinalizePoolReserves | blend/state.go:2375-2426 | In whatever order the reserves are iterated, the pool gets the three index products of its sorted slice |
| Builder.StateBuilder.Build | blend/state.go:722-757 | Prices, pools and carried rounds are updated in place to those of the specified build |
| Builder.StateBuilder.NormalizeCarry | blend/state_incremental.go:186-231 | Synthesized oracles go, the backstop's maps are rebuilt from the pools, the scratch is cleared |
| Run.IncrementalRun | blend/state_incremental.go:101-120 | For every run, whatever prior the caller passes at each ledger (the last state itself, a copy, any other state) and whether blobs decode or not, the outcomes are those of the run specification |
| Run.DecodeLedger | blend/state_incremental.go:101-120 | One ledger of a run keeps the strategy, the state it returned and its carried mirror in step with the specification |
| Run.LosslessRunsAgree | blend/state_strategy.go:16-20 | On every run in which a continued call carries only blobs that decode, the specification is the reference reducer's run, outcome by outcome |
| Run.RunContinuesExactly | blend/state_incremental.go:27-30 | After such a run, every next ledger that continues is decoded as the reference does if and only if the last one left only blobs that decode |
| Run.LostRunOutcomesDiffer | blend/state.go:1520-1534 | A concrete run of an undecodable eviction and an empty ledger: equal first outcomes, different pending positions in the second |
| Run.DecodablePositionsAreLossless | blend/state.go:1520-1534 | A run in which every Positions value decodes meets the condition of the run theorem |
| Run.CarryAgreesExactly | blend/state_incremental.go:186-231 | Continuing the carried mirror agrees with reloading the published state on every next ledger if and only if every carried blob decodes |
| Run.LossyArchiveSeparates | blend/state.go:1520-1534 | A concrete eviction whose value does not decode leaves an entry in the carried mirror that a reload of the published state drops |
| Run.UserPositions | blend/state_incremental.go:440-446 | The cached block of a pair is what a scan of the last published users finds |
| Run.ScanRows | blend/adapter.go:388-408 | Without a cache, the rows of the dirty pairs are those of one scan of all users |
| Run.LookupRows | blend/adapter.go:388-408 | With a cache, the rows are the blocks of the dirty pairs, one lookup each |
| Run.DirtyPositionRows | blend/adapter.go:388-408 | Both branches for any list: the scan without a cache, the blocks with one; on the last output they are equal if and only if the pairs with rows are listed once each and in order |
| Run.LookupIsScanExactly | blend/adapter.go:388-408 | The same condition for any mirror and any list, in both directions |
| Run.LookupIsScan | blend/adapter.go:388-408 | A ledger's own dirty list meets the condition, so lookups and scan give the same rows in the same order |
| Confinement.EveryChangeIsConfined | blend/state.go:955-1636 | Whatever a change says and whether it is live, it reaches its own contract's records and the one record its key names; nothing marked is unmarked, and a holder whose balance changes is marked |
| Writes.WriteStored | blend/state.go:955-1312 | Right after a live write of a position, balance, emission, auction, queued reserve, oracle price, instance or symbol, the mirror holds every value the write carries, field by field |
| Writes.FeedStored | blend/state_reflector.go:145-185 | A registered feed's round entry stores its prices at its stamp, a price entry its price at the stamp and index of its key, an instance its list and decimals, and the feed is marked |
| Writes.AssetStored | blend/state.go:2242-2266 | A registered asset's instance is stored as its metadata under its own contract |
| Writes.StampStored | blend/state.go:955-1312 | A known oracle's last-update stamp is the one written, and nothing else of it changes |
| Persistence.EveryChangeKeeps | blend/state.go:955-1636 | What a change keeps of its own contract's records: an oracle's other prices and, without an instance, its listing; an instance's and a pool's other fields |
| Persistence.LastWriteHolds | blend/state.go:399-442 | After a whole ledger of changes the mirror holds the last write of every entry |
| LastWrites.LastWriteShows | blend/state.go:722-796 | The last live write of an entry in a ledger, undisturbed by later changes of the same entry, is what the published state shows of it, for every kind of entry |
| LastWrites.DirtyOnlyIfTouched | blend/state.go:450-522 | A pair is reported dirty only when a change of the ledger is of its own entry or its pool's published index map moved |
| LastWrites.HoldersReported | blend/state.go:503-522 | Between consecutive states, every holder whose balance entry is new, gone or different is in the list of dirty backstops |
| ReserveWrites.PartApplied | blend/state.go:1945-2023 | A reserve entry stores each field it carries, a config entry also the index, and keeps every other field of that reserve and every other reserve of the pool |
| ReserveWrites.EmissionApplied | blend/state.go:2025-2090 | An emission entry writes the fields it carries of side token % 2 into the one reserve that claims index token / 2, and nothing else |
| ReserveWrites.EmissionDropped | blend/state.go:2092-2120 | Removing an emission entry clears exactly that side's fields of that reserve |
| ReserveWrites.PartDropped | blend/state.go:1331-1636 | An explicit removal drops the reserve; a lapse keeps its fields, overwritten by those of the value it carries |
| ReserveWrites.ListAdds | blend/state.go:1925-1943 | A reserve list adds the reserves it names and changes none that is there |
| ReserveWrites.PartUndisturbed | blend/state.go:955-1636 | A change that neither carries a field of a reserve nor removes it keeps the field |
| ReserveWrites.LastPartShows | blend/state.go:1945-2023 | The last reserve entry of a ledger that carries a field, or a config entry that carries the index, is what the published reserve shows of it |
| ReserveWrites.LastEmissionShows | blend/state.go:2025-2090 | The last emission entry that carries an emission field of a reserve is what the published reserve shows of it |
| Removals.RemovalTakesEffect | blend/state.go:1331-1636 | Every removal, lapse or eviction takes away what its key names: positions and reserves are dropped when explicit and archived at the ledger otherwise, a holder keeps its other half, a symbol empties its field |
| Removals.LastRemovalShows | blend/state.go:1331-1636 | A removed position, auction, emission or queued reserve that is not written again is in no list of the published state, and a pool whose backstop emissions are removed shows none |
| Prices.PublishedOraclePrices | blend/state.go:2338-2360 | Every reserve whose pool names a published oracle that lists its asset has that oracle's price and decimals, or none when the price is missing or not positive |
| Prices.AggregatorPrices | blend/state_reflector.go:474-530 | Every reserve whose pool names an aggregator that serves its asset has the price the aggregator resolves for it, in the aggregator's decimals |
| Prices.BaseIsOne | blend/state_reflector.go:488-523 | The base asset and the listed base assets are worth one, whatever their feed says |
| Prices.MappedAsset | blend/state_reflector.go:549-572 | Any other served asset is priced by the walk over the feed its config names, and not at all while the feed, its resolution or the asset's index is missing |
| Prices.BackstopRowPriced | blend/state_comet.go:360-379 | A backstop row shows for each of its two tokens the price of the first published pool, in contract order, with a positive one, and none when there is no such pool |
| Reports.PriceMoveReported | blend/state_comet.go:419-432 | When an oracle's price of an asset is written in a ledger, every published holder of a pool whose backstop has that token is in the list of dirty backstops |
| Reports.FeedMoveReported | blend/state_comet.go:435-459 | When a feed changes in a ledger, every published holder of a pool with a token that an aggregator prices from that feed is in the list |
| Reports.BalanceMoveReported | blend/state_comet.go:394-400 | When a pool's backstop balance is written or removed in a ledger, every published holder of the pool is in the list |
| Reports.ReportedOnlyIfReached | blend/state_comet.go:387-459 | A holder is in the list only when a change of the ledger is of its own entries or its pool's balance, or it holds a token while an oracle price or a feed that token is priced from changed |
| Reports.ListsExactly | blend/state.go:503-522 | The lists of dirty positions and backstops are in key order without repetition, and a pair is flagged as an upsert if and only if the published state still has it |
| Carry.ApplyStep | blend/state.go:955-1636 | Every change keeps each map keyed by its own identity and each pool's index maps current, and touches no Positions, auction or queued entry it does not mark |
| Carry.ApplyAllStep | blend/state.go:399-442 | The same over a whole ledger of changes |
| Carry.ApplyDecodable | blend/state.go:1520-1534 | Decodability of the carried blobs survives a change if and only if it is not the archiving of an unseen, undecodable entry |
| Carry.BuildPoolOk | blend/state.go:722-757 | Pricing, merging and finalizing a pool never move its published index map |
| Carry.CarryEqualsReload | blend/state_incremental.go:186-231 | After a ledger is published, the normalized mirror equals the load of the published state if and only if every carried blob decodes |
| Carry.PendingReload | blend/state.go:599-718 | The pending map survives publishing and loading exactly when every blob decodes |
| Carry.ReloadCoherent | blend/state_incremental.go:186-231 | The normalized mirror satisfies the invariant the next ledger starts from |
| Reference.UsersAnyOrder | blend/state.go:1804-1824 | Any iteration order of the Positions map and any sorted permutation of the rows give the same user list |
| Reference.GatheredDistinct | blend/state.go:1804-1824 | No two user rows of a state share (address, pool, asset, type) |
| Reference.BlocksAreTheGlobalSort | blend/state_incremental.go:412-433 | Sorted blocks concatenated in (address, pool) order are the global sort of all rows |
| Reference.ScanUsers | blend/adapter.go:388-408 | Scanning a state's rows for one pair finds that pair's sorted block |
| Reference.DiagnosticsAnyOrder | blend/state.go:2530-2553 | The diagnostics do not depend on the order the touched pairs are visited in |
| Reference.LoadCoherent | blend/state.go:599-718 | Loading a well-formed prior gives a mirror that satisfies the invariant, whose blobs all decode and whose index maps are the published ones |
| Reference.PublishedWellFormed | blend/state.go:722-796 | Every published state is a well-formed prior |
| Blocks.FlattenSorted | blend/state_incremental.go:412-433 | Sorted blocks in key order concatenate to a sorted list when rows order by owner first |
| Blocks.ScanFindsBlock | blend/adapter.go:388-408 | Scanning a concatenation of owned blocks for one owner finds exactly that owner's block |
| Keys.TextOrder | blend/state.go:1804-1824 | Strings compare by their first different byte, a prefix first |
| Keys.ContractOrder | blend/state.go:1804-1805 | Pools compare by contract id |
| Keys.PairOrder | blend/state.go:774-779 | Pending positions, like backstop rows, compare by address, then pool |
| Keys.RowFieldOrder | blend/state.go:1804-1824 | User rows compare by address, then pool, then asset, then type |
| Keys.IndexOrder | blend/state.go:2385-2390 | Reserves of a pool compare by index, then asset |
| Keys.AuctionOrder | blend/state.go:853-861 | Auctions compare by pool, then user, then type |
| Cache.Untouched | blend/state_incremental.go:53-79 | A pair outside the dirty set has the same entry and resolves to the same rows |
| Cache.SameDirty | blend/state_incremental.go:237-374 | Marking cached entries of changed pools and marking current entries of changed pools give the same dirty set |
| Cache.DirtySetComplete | blend/state.go:450-522 | Between consecutive states, every pair whose rows differ is in the dirty list, whether its entry changed or only its pool's index map |
| Lifecycle.ProjectTemporaryStateChanges | blend/math.go:1380-1447 | The rows emitted for a ledger report, for each changed entry in order, its current value or its removal |
| Lifecycle.ReplayLedger | blend/state.go:534-570 | Replaying one ledger's rows on the previous auctions and queued reserves gives the current ones |
| Lifecycle.ReplicaFollowsRun | blend/math.go:1365-1447 | Over every run, restores and rewinds included, a replica kept by replaying each ledger's rows on what that ledger was decoded from equals the published auctions and queued reserves |
| Reserves.PublishedReserveIndexes | blend/state.go:2432-2446 | Counting claimants and keeping the single ones gives the known-unique map |
| Reserves.ReserveByIndex | blend/config_state.go:530-543 | The lookup by index finds a reserve exactly where the known-unique map resolves, and the one it names |
| Reserves.PublishedUnique | blend/state.go:2375-2426 | A published index is claimed by exactly one reserve, the one it names |
| Reserves.PublishedInjective | blend/state.go:2375-2426 | Distinct published indexes name distinct assets |
| Reserves.ResolvesIffClaimed | blend/state.go:2375-2426 | The builder's map resolves an index if and only if exactly one reserve's decoded config claims it |
| Reserves.PoolRoundTrip | blend/state.go:599-640 | Publishing a finalized pool and loading it restores it |
| Reserves.PositionsFromMap | blend/state.go:2482-2525 | The rows say exactly what the resolved non-zero legs say, each at the asset its index is published for, a liability's amount as debt tokens and any other as supply tokens, archived as the entry is; diagnostics for the skipped legs |
| Reserves.BuildUserPositions | blend/state.go:1680-1687 | The rows of an entry depend on its pool only through the published index map |
| Reserves.UserRowsDistinct | blend/state.go:2482-2525 | No two rows of one entry share (asset, type) |
| Reserves.LegConservation | blend/state.go:2482-2525 | Every non-zero leg becomes exactly one row, at the asset its index is published for, or exactly one diagnostic |
| Conservation.EveryLegAccountedFor | blend/state.go:722-796 | In the outcome of any ledger, every non-zero leg of a touched position with a known pool is listed exactly once: as the row at the asset its index is published for, with no diagnostic for it, or, when published for none, as a diagnostic; the pair's rows and diagnostics number its non-zero legs |
| Conservation.TokensOfEveryLeg | blend/state.go:2511-2525 | In the outcome of any ledger, every non-zero leg whose index one reserve of its pool claims is one user row at that reserve's asset: its amount owed and nothing held for a liability, held and nothing owed otherwise, archived as the position is, and no second row of that kind and asset |
| Conservation.EveryRowIsALeg | blend/state.go:2482-2525 | Every user row of an outcome is such a leg of a published position |
| Conservation.EveryUnresolvedLegReported | blend/state.go:2457-2509 | Every non-zero leg of a touched position whose index not exactly one reserve claims is one diagnostic: duplicate with the claimants, or unmapped with the reserves of unknown index |
| Reserves.IndexReserves | blend/state.go:2405-2425 | One pass after counting the claimants files every sole claim, every shared claim with its claimants in slice order, and every reserve without an index |
| Reflector.DecodeFeedRoundBatch | blend/state_reflector.go:279-309 | Asset i gets the item whose position is the number of set mask bits below i, and nothing else is priced |
| Reflector.BatchRoundTrip | blend/state_reflector.go:279-309 | Decoding inverts the sparse encoding, and every price map over the mask's bits has one |
| Reflector.TrimRounds | blend/state_reflector.go:345-357 | Sorting the stamps and deleting the tail keeps exactly the rounds with fewer than eight newer ones |
| Reflector.WalkFeedPrice | blend/state_reflector.go:549-611 | The two loops terminate and compute the price that PriceServedExactly characterizes |
| Reflector.PriceServedExactly | blend/state_reflector.go:549-633 | A price is served if and only if the newest positive grid price lies inside the window and, under an active guard, the guard accepts it; it is that price in the aggregator's decimals, cut down to whole units when those are fewer |
| Reflector.FourteenDecimalsInSeven | blend/state_reflector.go:613-616 | A feed price of 12_000_000_000_000 in 14 decimals is served as 1_200_000 in 7 |
| Reflector.RoundWritten | blend/state_reflector.go:314-329 | A round write stores every price it carries, keeps the round's other prices and every other round, and moves the newest stamp up to its own |
| Reflector.RoundDropped | blend/state_reflector.go:189-218 | A removed round or price goes, a round with its last price, and nothing else changes |
| Reflector.FeedInstanceWritten | blend/state_reflector.go:220-275 | An instance rewrites what it carries of the list, the decimals and the newest stamp, and loses no cached round |
| Reflector.GuardExact | blend/state_reflector.go:549-611 | The guard accepts if and only if the next older positive grid price within the step budget deviates by at most the allowed share |
| RoundCarry.CarryNeverChangesAPrice | blend/state_reflector.go:51-56 | Over every run on the grid, the trimmed feed prices as the untrimmed one with a window of at most three resolutions under an active guard, or seven without one |
| RoundCarry.BeyondReach | blend/state_reflector.go:345-357 | For every resolution, every guard and every larger window, a run on the grid loses a price to trimming, with the close time unknown or that of the newest round |
| RoundCarry.CarrySafeExactly | blend/state_reflector.go:51-56 | For each guard setting, the carry is invisible on every run if and only if the window is at most three resolutions when the guard is active and at most seven when it is not |
| Comet.CometPool.ApplyChange | blend/state_comet.go:109-197 | A change moves the facet of its key and no other; a value that does not decode moves nothing |
| Comet.EveryEvent | blend/state_comet.go:109-197 | Each decoded value becomes its facet, a value that does not decode changes nothing, each removal makes its own facet unknown, and no other facet moves |
| Comet.CometPool.Restore | blend/state_comet.go:250-276 | Restoring fills the pool with what the carrier proves |
| Comet.CometPool.Build | blend/state_comet.go:283-327 | The carrier lists the tokens and the records outside the list, sorted, with each decoded reserve |
| Comet.CarrierExactly | blend/state_comet.go:283-327 | The carrier shows hash and share total, and once a list or records are known every token of either, in order, with its decoded reserve or none |
| Comet.ValuationSurvives | blend/state_comet.go:250-327 | Every token's reserve, the share total and the wasm hash survive a reload, whichever facets are known |
| Comet.AlikeBuilt | blend/state_comet.go:16-19 | Reordering the token list leaves the carrier unchanged |
| Comet.ReloadIndistinguishable | blend/state_comet.go:250-327 | No later changes tell a reloaded pool from the original if and only if known records imply a known covering list and the record map is known just when non-empty or the list is empty |
| Comet.EveryPoolIsReceived | blend/state_comet.go:109-197 | Every combination of facets is left by four changes to a new pool |
| Comet.RecordsWithoutList | blend/state_comet.go:283-327 | A record map received without a token list: once it lapses the pool emits no token list and its reload an empty reserve |
| Comet.EmptyRecordsForgotten | blend/state_comet.go:263-270 | A token list with an empty record map: once the list lapses the pool emits an empty list and its reload none |
| Ticks.TickSqrtPriceX96 | aquarius/math.go:74-102 | The loop over the ladder computes the square-root price, or fails exactly outside the tick range |
| Ticks.RatioPositive | aquarius/math.go:74-102 | The ladder product never reaches zero: it stays at or above 2^52 in Q128 |
| Ticks.TickStep | aquarius/math.go:18-49 | Neighbouring ratios differ by a factor whose square is 1.0001 to eighteen decimals, to one part in 10^18 and twenty truncations |
| Ticks.StrictlyIncreasing | aquarius/math.go:74-102 | Square-root prices are positive and strictly increasing over all ticks |
| Ticks.RecordedPrices | aquarius/math.go:68-73 | Tick -17652 has the recorded price, and tick 0 the unit price |
| Liquidity.RangePrincipal | aquarius/math.go:204-236 | An amount is returned if and only if all inputs parse and the bounds are positive and ordered; with the price clamped to the range it is L * (1/price - 1/upper) of the first token and L * (price - lower) of the second, each rounded down once |
| Liquidity.Amount0Exact | aquarius/math.go:224-227 | Truncating twice is truncating L * (1/x - 1/y) once |
| Liquidity.PriceMovesOneWay | aquarius/math.go:204-236 | Across the three branches the first amount never rises with the price and the second never falls |
| Liquidity.SplitLosesAtMostOne | aquarius/math.go:204-236 | Splitting a range at any inner bound never raises an amount and lowers it by at most one unit |
| Liquidity.TicksGiveValidBounds | aquarius/math.go:204-236 | Two ticks in range give bounds the function accepts if and only if they are in order |
| Rewards.PendingReward | aquarius/math.go:123-181 | Through every early return, the claim plus the holder's truncated share of what accrued up to the expiry, the value OwedExactly spells out |
| Rewards.OwedExactly | aquarius/math.go:146-181 | With every input there the holder is owed the claim plus floor(weight * (accumulated + tps * seconds - checkpoint) / supply), seconds counted from the last update to the close time or the expiry, and the claim alone when that growth is not positive |
| Rewards.SoleHolderEarnsAll | aquarius/math.go:112-122 | A holder with the whole working supply, checkpointed at the last update, is owed claim + tps * elapsed seconds |
| Rewards.IncompleteKeepsClaim | aquarius/math.go:123-166 | An input that is missing or does not parse, or a zero working supply, leaves the checkpointed claim |
| Rewards.PendingGrows | aquarius/math.go:123-181 | What is owed never falls below the claim and never falls with the close time |
| Rewards.PendingStopsAtExpiry | aquarius/math.go:123-181 | Nothing accrues after the expiry |
| Rewards.AccrualsConserve | aquarius/math.go:123-181 | Holders sharing a checkpoint, with weights summing to at most the working supply, accrue together at most what the pool did |
| Rewards.CheckpointLosesAtMostOne | aquarius/math.go:112-122 | A checkpoint in between never adds to what is owed and costs at most one unit |
| Rewards.ProRataExactly | aquarius/math.go:183-200 | A share is shares * reserve / total cut to whole units, and there is none when a text does not parse or the total is zero |
| Rewards.ProRataConserves | aquarius/math.go:183-200 | Shares summing to at most the total are given at most the reserve |
| FixedPoint.FloorExactWhen | blend/decimal.go:74-79 | The result is the floor, or one more exactly when the next integer is within half a unit of the 48th digit |
| FixedPoint.CeilExactWhen | blend/decimal.go:81-86 | The result is the ceiling, or one less exactly when the remainder is below half a unit of the 48th digit |
| FixedPoint.DivisionExact | blend/decimal.go:21-24 | For divisors below 2 * 10^48 both are exact, for numerators of either sign |
| FixedPoint.ExactJustBelowTwiceTheScale | blend/decimal.go:74-86 | Both are exact for all numerators if and only if the divisor is below 2 * 10^48 |
| Health.FiguresAgree | blend/math.go:937-966 | Below 2 * 10^30, health at least one, borrow limit at most one and shortfall zero all mean collateral covers liability |
| Health.ExactBelowTwiceTheScale | blend/math.go:952-966 | The health and limit comparisons are right for every counterpart if and only if the denominator is below, or for the limit at most, 2 * 10^48 grid units |
| Health.ShortfallExactWhen | blend/math.go:937-966 | The reported shortfall is the true one if and only if there is collateral or no liability |
| Health.NoCollateralHidesShortfall | blend/math.go:957-959 | A concrete account with liability and no collateral reports health zero and shortfall zero |
| Health.FiguresExactly | blend/math.go:937-966 | The four figures in whole numbers: health the ratio cut to 18 digits, limit the inverse ratio rounded up to 18, cap and shortfall the differences; a zero liability factor gives 0, 1, 0 and what was borrowed, or 10^18, less the collateral |
| Health.TruncatedExactly | blend/math.go:945-948 | Health is the truncated ratio, or one unit of the 18th digit more exactly when rounding to 48 digits first carries over; never below 2 * 10^30 |
| Health.Summarize | blend/math.go:909-1042 | The account's health is the least of its pools', its limit the greatest, its cap the sum; absent without any liability or collateral row |
| Health.HealthIsPoolIsolated | blend/math.go:970-975 | The account's health is at least one if and only if every pool covers its own liability |
| Rates.NormalizeReserve | blend/math.go:1141-1256 | In whole numbers: supplied rounded down, borrowed rounded up, utilization their ratio rounded up and capped at one, supply paid floor(floor(rate * utilization) * (1 - take)), the cap and what remains of it; supply never earns more than borrowing costs |
| Rates.RateIsSegment | blend/math.go:1258-1287 | The rate is one of three climbs between kinks; the branch for a target at the second kink is never reached |
| Rates.RateExactly | blend/math.go:1258-1287 | Every rate in whole numbers rounded up at each step: over the target, over the stretch from it to 9_500_000, and over the last 500_000 |
| Rates.RateAtTheKinks | blend/math.go:1258-1287 | At the target the rate is ceil((rBase + rOne) * mod / scale), at 9_500_000 ceil((rBase + rOne + rTwo) * mod / scale), at 10_000_000 that plus rThree |
| Rates.RateExists | blend/math.go:1258-1265 | A rate exists if and only if nothing is borrowed or the target is positive |
| Rates.BorrowRateMonotone | blend/math.go:1258-1287 | The rate never falls with utilization, within and across the segments, for every parameter set with a positive target |
| Rates.BorrowRateBounded | blend/math.go:1258-1287 | No rate exceeds the scaled sum of the first three parameters plus the last |
| Rates.UtilizationExact | blend/math.go:1217-1227 | Utilization is the exact ceiling of the ratio, capped at one |
| Rates.SupplyAtMostBorrow | blend/math.go:1239-1249 | The supply rate never exceeds the borrow rate |
| Rates.MoreDebtNeverCheaper | blend/math.go:1217-1287 | More debt against the same supply never lowers the borrow rate |
| BackstopShares.ValueHolder | blend/math.go:727-769 | Active, queued and total tokens and the two component amounts of a holder |
| BackstopShares.ConvertIsPortion | blend/math.go:1659-1667 | Conversion is the truncated share of the pool's tokens, the shortcut for a sole holder included |
| BackstopShares.RowExactly | blend/math.go:727-769 | Active, queued and total are each the truncated portion of their own shares, and the two components truncated portions of the total |
| BackstopShares.RowAbsent | blend/math.go:727-769 | A backstop without shares converts nothing, and there are components if and only if the pool's three amounts are known and its supply is not zero |
| BackstopShares.ActivePlusQueued | blend/math.go:745-749 | Active and queued tokens add up to the total or to one unit less |
| BackstopShares.HoldersNeverExceedPool | blend/math.go:1645-1650 | Holders whose shares sum to at most the pool's have together at most its tokens and at most the component amounts of its row |

## Left out

- Decoding of XDR, base64, JSON and addresses: changes start from decoded values, and a value that fails to decode is
  its own case.
- Builder.StateBuilder.Apply: the pools and reserves inside the builder's maps are values put back after each update,
  not shared pointers, and the strategy reads the dirty set from the builder instead of aliasing it.
- Inside one change, and when a pool is loaded, the index products of a pool are recomputed by the specified function
  instead of a loop; build recomputes them with the loop. Library sorts are the functions `Ascending` and `SortBy`.
- Mirror.Load: the oracle, feed and aggregator carriers are modelled with maps inside instead of sorted slices, and
  token prices as a raw amount with its decimals instead of their quotient.
- Comet pools take no part in the strategy theorems, and `Comet` follows one pool, not the map of pools nor the holders
  a Comet change marks dirty.
- Typed state deltas, which are not part of the returned state, and the test-only switches of the incremental strategy.
- The reserve list a pool remembers, which nothing reads.
- Nil and empty slices are not told apart, except in the Comet carrier, where they differ.
- Timestamps and ledger numbers are unbounded integers: overflow of the source's 64-bit arithmetic is not modelled.
- A deleted pool balance does not stay deleted across a reload, because the pool's own fields bring it back; nothing
  here claims it does.
- LastWrites.HoldersReported: completeness of the backstop dirty list is claimed for the holders' own entries, and in
  `Reports` for pool balances, oracle prices and feeds; a row that moves because a pool, a backstop instance or an
  aggregator is rewired is not covered, since the source marks nothing then.
- LastWrites.LastWriteShows: an oracle's price is followed to the published oracle unless an aggregator has the same id,
  because the source then publishes no such oracle.
- Price text that is not a number, inside a prior state, is not modelled.
- Health.Assess: borrowed value is counted on the 18-digit grid, though the source keeps more digits of it where a
  liability factor is zero.
- Rates.NormalizeReserve: parameters are non-negative integers; text that does not parse ends the source's function
  with an error before anything modelled here.
- BackstopShares.HoldersNeverExceedPool: asks for denominators below 2 * 10^48; 128-bit ledger amounts always are.
- Rewards.PendingReward: numbers are compared by value, so zero written with several digits counts as zero.
- USD values, net APY and liquidation scenarios: sums and products without a further property.
- Event classification, attribution, row metadata, identifiers, configuration records and summary tombstones.
- The aquarius, soroswap and fxdao reducers, which are maps of upserts and removals.
