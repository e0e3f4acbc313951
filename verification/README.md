# Graphene chain engine: verified model

A Dafny model of the parts of the Graphene chain engine that keep state, with proofs of what they promise over whole
runs. `dafny verify dfyconfig.toml` checks the project.

Code that updates objects in place is a class or a method on one; each method is tied to a function of the old state,
and the properties are proved about those functions as lemmas. Code that throws returns a result instead, and what an
enclosing undo session would take back is put back by the method that stands for the operation.

| files | what they model |
|---|---|
| `UndoLog`, `UndoSessions`, `UndoDepth`, `UndoDatabase` | undo records, their merging, nested sessions and how deep they may nest, the database class with its hooks |
| `ForkDatabase`, `ChainDatabase`, `SwitchRecovery`, `StuckSwitch` | the window of known blocks and branches; pushing a block, switching forks and recovering; when exactly a failed switch is recovered from; a run whose recovery gets stuck |
| `Irreversibility` | the last irreversible block, the undo window that goes with it |
| `BlockLog` | the block log: index entries over an append-only data area, against a map from number to block |
| `ChainSync` | the synopsis one node makes and the reply of another |
| `Prices`, `PriceIndex`, `Ledgers`, `Trading`, `OrderBook`, `TradePrices` | price arithmetic, what an account book holds, fills and matches, the order book; what a match means for the two parties |
| `MarketDatabase`, `LimitMarket`, `LostRemainder`, `AccountEffects` | the market state updated in place; creating and cancelling limit orders; a run that loses a remainder; what each operation does to the balances |
| `Backing`, `ForcedSettlement`, `ExpiredSettlements`, `SettlementRounds` | what backs a market-issued asset; the forced-settlement loops; what they pay |
| `GlobalSettlement`, `FundShares`, `BitAssetOperations`, `Positions`, `MarginCalls`, `CallChecks`, `CallConditions`, `CallExamples`, `BackedRuns` | global settlement and what holders get of it, redemption, margin positions, the check for black swans and margin calls, when and how a position is called, markets that show where the check can end, and runs of all market steps |
| `Budget`, `Interest`, `Vesting`, `AmountText` | the maintenance budget, compound interest, vesting balances, amounts as text |
| `WitnessSchedule` | slots and the witness shuffle |
| `Common`, `Arithmetic`, `MapSums` | shared definitions, facts about products and quotients, sums over maps |

Amounts are unbounded integers; the bounds the code checks (the maximum share supply of a product of an amount and a
price, the 64-bit range of parsed text, the 32-bit wrap of the undo limit) are written out. Headers supply the index
orders, `~price` (base and quote exchanged), `amount_to_receive` (amount for sale times price) and the session
destructor (an unfinished session undoes itself).

## What was found on the way

- **Undo.** A session's own record survives what happens in it if and only if the sessions in it nest no deeper than the
  size limit; beyond the limit the outcome does not depend on the records there were (`OwnRecordSurvives`). What follows
  differs. Empty sessions nested too deep leave the outer one without a record, and ending it takes the back of an empty
  deque, which is undefined behaviour (`NestUndoneIffWithinLimit`, `Undo`). When something changes after the deep nest, the
  hook pushes a fresh record and the session is undone without a failure, but only back to the deep nest (`LossIsSilent`).
  Changes made while recording is disabled are not undone.
- **Branches.** `fetch_branch_from` ends the two branches at their most recent common ancestor, except when one head is an
  ancestor of the other: then both branches share their last block (`PartingIsMostRecent`).
- **Fork switch.** A switch succeeds if and only if the undo records reach down to the parting and every block of the new
  branch applies there (`SwitchIsAllOrNothing`). When a block fails, the old state comes back if and only if each block that
  was applied set an undo limit that reaches down to the parting, and either they are fewer than the blocks of the old branch
  or the old head has as many ancestors and the fork database, resized by every block that is tried, keeps the last of them
  (`SwitchIsDecided`); else the recovery throws and leaves the database part of the way down the branch it was giving up. So
  a branch that parts at the first block is only recovered from when fewer of its blocks were applied than the old branch has
  (`RecoveryNeedsAncestors`). Three blocks are enough: with A1 on the chain, a fork of B1 and an invalid B2 leaves the state
  on B1 (`SwitchGetsStuck`, `RunFromGenesis`). Later on it takes windows that are too short: each applied block shrinks the
  fork database to its own undo window, measured from the fork head; `WideWindowsNeverStick` gives windows that suffice.
- **Undo depth.** The pending and the transaction session together keep enough undo records for irreversibility; a third
  nested session loses one exactly when nothing becomes irreversible (`SessionDepthIsTight`).
- **Block log.** `contains` and `fetch_optional` disagree exactly when a block was stored under an id that is not its own
  (`ContainsAgreesWithFetch`). `fetch_block_id` does not look at the removal mark.
- **Synchronisation.** With no reference and more undo records than blocks, as with one block and the record of a pending
  session, the number of the last block that cannot be undone wraps around and the synopsis reads past the end of an empty
  fork history; exactly then (`GetBlockchainSynopsis`, `PendingSessionWraps`). `get_block_ids` throws when the last entry
  that it does not reject is a block it knows above its own chain (`KnownAboveThrows`, `ForkBlockCanBeKnown`). With a limit
  of 0 it reports nothing remaining although everything is (`ReplyReachesHead`).
- **Matching.** The remainder of a new order can pay something and receive nothing, exactly when it buys less than one
  unit at the resting order's price, and only when it is itself too small to be sold (`TakerReceivesNothing`,
  `RemaindersAreLost`).
- **Global settlement.** The evaluator asks whether the least collateralized position can pay after rounding down. That
  does not mean that the others can; it does exactly when that position covers its debt before rounding
  (`LeastSpeaksForAll`, `RoundingHidesShortfall`). The settlement caps what each position pays, so it stays sound.
- **Margin calls.** Rounding can take the last collateral of a position that still owes something: exactly when buying what
  the bid sells, less than the debt, costs at least all the collateral (`EmptiesPosition`). The loop then looks again, and
  that position, still the first, is a black swan whatever the bids and the feed: the asset is settled globally at a price
  of nothing, the fund is empty, every borrower gets all the collateral back and the holders nothing; or the operation
  throws, where it may not cause a black swan. A check of positions that all have collateral ends so exactly when a call
  has emptied one (`CheckEndsForNothing`), and a market in which it does is `CallCanEmptyPosition`. A check that comes to rest
  leaves all positions with collateral (`CheckCallOrders`), so a later forced settlement always finds one
  (`UntroubledNeverThrows`).
- **Bids that are passed.** `filled_limit` is declared outside the loop (`db_market.cpp:464`) and stays set once a call has
  used up a bid (`PassesExactly`), so from then on the loop leaves every bid after one fill, whatever is left of it. The
  check can end with a position uncalled beside a bid that would fill it: two positions of equal debt, a bid for half of
  one debt and a bid for more than the rest are enough (`CheckCanPassBid`). A check at rest differs from what a fresh look
  would do exactly when every bid that may be called with has been passed and the best of them is not protected
  (`RestsBesideBid`, of a position in an open market); before a bid has been used up it never does (`RestIsRest`).
- **Bids that are removed.** As long as no bid has been used up, a call that buys part of a bid and leaves too little of it
  to be sold removes the bid while the loop still points at it; if there is another position and no black swan, the next
  round reads it, which is undefined behaviour (`BidCanBeGone`). Exactly then (`UndefinedExactly`): after a used-up bid the
  loop has moved on before the fill.
- **Redemption.** A holder is never refused because the fund is short, but is refused while the asset has no feed, since the
  evaluator asks for one even after a global settlement, when no feed can be published any more (`Settle`).
- **Debt check.** The evaluator compares the balance with the negative change of debt, which always holds
  (`market_evaluator.cpp:152`); the check that matters is the one in `adjust_balance`, which `UpdateCall` models.
- **Linear vesting.** A deposit is accepted, although the header says that new funds may not be added. In builds without
  asserts it can be withdrawn at once (`DepositVestsAtOnce`); with them, asking what may be withdrawn stops at the assert
  that what was withdrawn already is not negative (`vesting_balance_object.cpp:57-58`) when the deposit was larger than that.
- **Slots.** Before the first block `get_slot_at_time` answers 1 for every time from the first slot on when asked for
  missed blocks, so it inverts `get_slot_time` exactly otherwise (`SlotAtInvertsSlotTime`).

## Model

| member | source | states |
|---|---|---|
| UndoLog.CreateKeepsExplains | libraries/db/undo_database.cpp:47-59 | a record that explains how to get back still does after a creation is recorded in it |
| UndoLog.ModifyKeepsExplains | libraries/db/undo_database.cpp:60-72 | the same after a modification, whether or not the object was already touched |
| UndoLog.RemoveKeepsExplains | libraries/db/undo_database.cpp:73-93 | the same after a removal, including removing what the session created |
| UndoLog.UndoIsExact | libraries/db/undo_database.cpp:95-123 | undoing a record that explains a change restores every object and every next-id counter, and never trips over an existing object |
| UndoLog.ImpossibleCellsNeverOccur | libraries/db/undo_database.cpp:139-176 | the cells of the merge table marked N/A never occur for consecutive records, so both asserts hold |
| UndoLog.MergeExplains | libraries/db/undo_database.cpp:125-245 | the merged record explains the change made by both records together |
| UndoLog.MergeComposes | libraries/db/undo_database.cpp:125-245 | undoing the merged record gives the same database as undoing the two records in turn |
| UndoSessions.UndoGoesBack | libraries/db/undo_database.cpp:95-123 | on a stack of records each explained by its snapshot, undo returns to the top snapshot and leaves the rest explained |
| UndoSessions.MergeKeepsChain | libraries/db/undo_database.cpp:125-245 | merging keeps the objects and leaves one record that goes back to the lower snapshot |
| UndoSessions.RunKeepsNewest | libraries/db/undo_database.cpp:33-46 | any run of changes and nested sessions keeps every record that its depth does not force out |
| UndoSessions.SessionIsExactlyUndone | libraries/db/undo_database.cpp:95-123 | whatever a session does, with whatever nested sessions up to the size limit, undoing it restores the database of its beginning |
| UndoSessions.NestUndoneIffWithinLimit | libraries/db/undo_database.cpp:33-46 | k empty sessions inside one another leave the outer one a record to undo if and only if k is at most the size limit |
| UndoDepth.RunKeepsMark | libraries/db/undo_database.cpp:33-46 | within the limit, whatever the acts, each record that the depth does not force out is found again in its place |
| UndoDepth.RunAgrees | libraries/db/undo_database.cpp:33-46 | two runs of the same acts on different older records agree on the records that the depth leaves, and altogether beyond the limit |
| UndoDepth.OwnRecordSurvives | libraries/db/undo_database.cpp:33-46 | for all acts, a session's own record survives if and only if they nest no deeper than the limit; beyond it the outcome is the same whatever records there were |
| UndoDepth.LossIsSilent | libraries/db/undo_database.cpp:47-59 | for every limit, a session that nests one level too deep between two changes is undone without a failure, but not to its beginning |
| UndoDatabases.UndoDatabase.StartUndoSession | libraries/db/undo_database.cpp:33-46 | trims from the front, pushes a record, and takes a snapshot of the present database for it; nothing while disabled unless forced |
| UndoDatabases.UndoDatabase.Create | libraries/db/undo_database.cpp:47-59 | stores under the next id and keeps every record going back to its snapshot |
| UndoDatabases.UndoDatabase.Modify | libraries/db/undo_database.cpp:60-72 | changes the object and keeps every record going back to its snapshot |
| UndoDatabases.UndoDatabase.Remove | libraries/db/undo_database.cpp:73-93 | removes the object and keeps every record going back to its snapshot |
| UndoDatabases.UndoDatabase.Undo | libraries/db/undo_database.cpp:95-123 | the loops over the record leave exactly the snapshot taken when the session began; refused while disabled or without a session, undefined exactly when a session has lost its record |
| UndoDatabases.UndoDatabase.Merge | libraries/db/undo_database.cpp:125-245 | the loops over the upper record build the composed record, and the lower snapshot is kept |
| UndoDatabases.UndoDatabase.Commit | libraries/db/undo_database.cpp:246-250 | ends a session and keeps its record |
| UndoDatabases.UndoDatabase.PopCommit | libraries/db/undo_database.cpp:252-288 | outside sessions, restores exactly the snapshot of the last committed record |
| ForkDatabases.ForkDatabase.PushBlock | libraries/chain/fork_database.cpp:58-106 | when a block is refused as too old or unlinkable, when it becomes the head, and which blocks the window keeps |
| ForkDatabases.PushKeepsWindow | libraries/chain/fork_database.cpp:85-106 | a block is held after a push exactly when it was or is the new one, and is not further below a new highest block than the window |
| ForkDatabases.HighestIsHead | libraries/chain/fork_database.cpp:85-106 | the head has the highest number, and of equals is the one that came first |
| ForkDatabases.ForkDatabase.PopBlock | libraries/chain/fork_database.cpp:39-45 | the head moves to its parent if that is in the index or held on to by a branch in use |
| ForkDatabases.ForkDatabase.SetMaxSize | libraries/chain/fork_database.cpp:129-158 | exactly the blocks above head minus the size stay |
| ForkDatabases.ForkDatabase.FetchBranchFrom | libraries/chain/fork_database.cpp:199-241 | returns the two exact parent chains down to the first pair of blocks with one parent, and fails if and only if there is no such pair |
| ForkDatabases.BranchesAreUnique | libraries/chain/fork_database.cpp:199-241 | two heads have at most one such pair of branches |
| ForkDatabases.PartingIsMostRecent | libraries/chain/fork_database.cpp:199-241 | no common ancestor lies above that parent; the last blocks coincide if and only if one head is an ancestor of the other |
| ChainDatabases.HistoryReplays | libraries/chain/db_block.cpp:419-432 | the states on the undo stack are those that replaying the applied blocks passes through |
| ChainDatabases.LineageIsHistory | libraries/chain/db_block.cpp:138-194 | the blocks of the old branch in the fork database are the applied blocks that will be popped |
| ChainDatabases.ChainDatabase.ApplyInSession | libraries/chain/db_block.cpp:196-209 | a block is applied with one undo record more and both windows resized, or the state is as before and the windows are resized exactly when it fails late enough |
| ChainDatabases.ChainDatabase.PopBlock | libraries/chain/db_block.cpp:419-432 | the state goes back to the one before the head block |
| ChainDatabases.ChainDatabase.PushBlock | libraries/chain/db_block.cpp:130-209 | which result occurs, and the exact state, records, limit and fork blocks after it, from the fork database and the chain before; refused, it leaves the state as it was |
| ChainDatabases.ChainDatabase.SwitchForks | libraries/chain/db_block.cpp:138-194 | the switch ends exactly as SwitchOf says: switched, rejected, or stuck where the records or the fork ancestors run out |
| ChainDatabases.SwitchIsAllOrNothing | libraries/chain/db_block.cpp:138-194 | it succeeds if and only if the records reach the parting and the whole new branch applies there, with records back through it; rejected, the state is exactly the old one |
| ChainDatabases.SwitchExactly | libraries/chain/db_block.cpp:138-194 | switched, rejected and stuck are each decided, both ways, by the records down to the parting, the number of blocks that apply, and the records and ancestors left for the way back, which SwitchRecovery traces to the chain before |
| SwitchRecovery.SwitchIsDecided | libraries/chain/db_block.cpp:138-194 | rejected with the old state back if and only if the records reach the parting, a block fails, every applied block sets an undo limit down to the parting, and the applied blocks are fewer than the old branch or the old head's ancestor that far down exists and no size that is set forgets it |
| SwitchRecovery.RecordsExactly | libraries/chain/db_block.cpp:163-178 | when a block fails, a record is left for each applied one if and only if all their undo limits reach down to the parting |
| SwitchRecovery.RoomExactly | libraries/chain/fork_database.cpp:39-45 | the old head can be walked down n blocks if and only if that stays in its branch or its ancestors below are still held, whatever blocks of the new branch were removed |
| SwitchRecovery.LimitSpans | libraries/chain/db_update.cpp:99-100 | the undo limit spans the blocks from the irreversible one to the new one, and wraps around above that |
| SwitchRecovery.FailedBlocksAreGone | libraries/chain/db_block.cpp:163-171 | after a switch that was not carried through the failed block and those above it are not held |
| SwitchRecovery.ExtendsOrForgets | libraries/chain/db_block.cpp:197-207 | a block on the head adds a record of the state before, or leaves state and records as they were and is not held |
| ChainDatabases.WideWindowsNeverStick | libraries/chain/db_block.cpp:138-194 | with windows wide enough a switch never gets stuck, and every block of the new branch can be popped again |
| ChainDatabases.RecoveryNeedsAncestors | libraries/chain/fork_database.cpp:39-45 | a failed switch is recovered from only if fewer blocks were applied than the old head has ancestors held; from the first block on, fewer than the old branch has |
| StuckSwitches.SwitchGetsStuck | libraries/chain/db_block.cpp:162-180 | with A1 on the chain, a fork B1, B2 of which B2 is invalid leaves the state on B1 |
| StuckSwitches.RunFromGenesis | libraries/chain/db_block.cpp:130-194 | the same as three blocks pushed from genesis |
| ChainDatabases.ChainDatabase.Recover | libraries/chain/db_block.cpp:165-189 | after a block of the new branch fails, the old branch is back if and only if records and fork ancestors suffice for the blocks applied, and otherwise the state is as far down as they reach |
| ChainDatabases.GrownBack | libraries/db/undo_database.cpp:33-46 | the records of a branch go back through it and then to where the older ones went, whatever the limits trimmed |
| ChainDatabases.GrownKeepsRecords | libraries/chain/db_update.cpp:99-100 | while nothing above its first block becomes irreversible, each block of a branch has room for its record above the ones below it |
| ChainDatabases.GrownKeeps | libraries/chain/db_update.cpp:99-100 | as long as the windows are wide enough, applying the blocks of a branch forgets no block at or above the lowest needed |
| ChainDatabases.RoomToRecover | libraries/chain/db_block.cpp:168-180 | after the failed blocks are taken out, the old head has the ancestors that the recovery pops |
| OrderStatistics.NthIsOrderStatistic | libraries/chain/db_update.cpp:137-149 | the selected element has at least n-k elements at or above it and more than k at or below it |
| Irreversibility.BlockKeepsDepth | libraries/chain/db_update.cpp:88-101 | a block, applied or refused before or after the limit is set, keeps at least head minus irreversible undo records and never lowers the irreversible number |
| Irreversibility.RiseIsConfirmed | libraries/chain/db_update.cpp:125-170 | outside checkpoints and the maintained range, each rise is confirmed by at least n minus offset of the n active witnesses, which is at least 70% of them |
| Irreversibility.NthIsConfirmed | libraries/chain/db_update.cpp:139-150 | a block is at most the one at the offset if and only if at least 70% of the active witnesses have confirmed it |
| Irreversibility.BlockRises | libraries/chain/db_update.cpp:109-170 | with every block that is kept, its signer's confirmation counted, the irreversible number becomes exactly the highest confirmed one, or what checkpoint and maintained range say |
| Irreversibility.TwoSessionsKeepDepth | libraries/db/undo_database.cpp:33-46 | up to two nested sessions leave enough undo records |
| Irreversibility.SessionDepthIsTight | libraries/db/undo_database.cpp:33-46 | after a block that makes nothing irreversible, nested sessions leave enough records if and only if there are at most two |
| Irreversibility.RunsKeepDepth | libraries/chain/db_update.cpp:88-101 | in every run from genesis the depth suffices at every point and the irreversible number never falls |
| Irreversibility.IrreversibilityTracker.UpdateLastIrreversibleBlock | libraries/chain/db_update.cpp:125-170 | the irreversible number rises to the highest block that at least 70% of the active witnesses have confirmed, to a checkpoint, or in the maintained range to 20 below the head, and never falls |
| Irreversibility.IrreversibilityTracker.ApplyBlock | libraries/chain/db_update.cpp:88-101 | the undo limit follows the irreversible number block by block, and the depth is kept |
| BlockLogs.BlockLog.Store | libraries/chain/block_database.cpp:77-95 | the block becomes the live one of its number, whatever lay there, and old data is not overwritten |
| BlockLogs.BlockLog.Remove | libraries/chain/block_database.cpp:97-114 | the live block goes if it has that id, others stay; throws beyond the index |
| BlockLogs.BlockLog.Contains | libraries/chain/block_database.cpp:116-130 | true if and only if the live entry of that number has that id |
| BlockLogs.BlockLog.FetchOptional | libraries/chain/block_database.cpp:148-178 | the live block of that number if its id is the asked one |
| BlockLogs.BlockLog.FetchByNumber | libraries/chain/block_database.cpp:180-207 | the live block of that number if stored under its own id |
| BlockLogs.BlockLog.FetchBlockId | libraries/chain/block_database.cpp:132-146 | the id of the live block of that number |
| BlockLogs.BlockLog.Last | libraries/chain/block_database.cpp:209-245 | the live block of the highest number, across gaps and removed tails |
| BlockLogs.BlockLog.LastId | libraries/chain/block_database.cpp:247-279 | the id of the live block of the highest number |
| BlockLogs.LatestStoreIsLive | libraries/chain/block_database.cpp:77-114 | in any run the last stored block of a number is the live one until it is removed under its id |
| BlockLogs.RunsKeepOwnIds | libraries/chain/block_database.cpp:77-114 | any run of stores of blocks under their own ids keeps every live block under its own id |
| BlockLogs.ContainsAgreesWithFetch | libraries/chain/block_database.cpp:116-178 | contains and fetch_optional agree if and only if no block is stored under a foreign id, in particular after such runs |
| ChainSync.NumsShape | libraries/app/application.cpp:841-866 | synopsis numbers strictly increase, lie between low and high, and are at most floor(log2(true_high - low + 1)) + 1 |
| ChainSync.BitLengthIsLog | libraries/app/application.cpp:692-749 | the bound on their count is one more than the floor of the binary logarithm |
| ChainSync.SomeEntryIsNear | libraries/app/application.cpp:841-866 | for every number f in range the highest entry at or below f is at most true_high - f below it |
| ChainSync.GetBlockchainSynopsis | libraries/app/application.cpp:750-867 | the synopsis lists the ids of those numbers in the presented chain; every fork-history index is in range if and only if there are no more undo records than blocks, or a reference is given, or the chain is empty; a fork older than the undo history is refused |
| ChainSync.RangeFollowsReference | libraries/app/application.cpp:775-830 | a synopsis starts at the last block that cannot be undone, or at an older reference, ends at the reference or the head, and is refused exactly when the fork parts below that block |
| ChainSync.PendingSessionWraps | libraries/chain/db_getter.cpp:95-98 | one block and two undo records: the synopsis would start at the highest 32-bit number, past the fork history |
| ChainSync.PresentedIsNumbered | libraries/app/application.cpp:788-815 | the main chain up to the common ancestor followed by the fork is a chain by number |
| ChainSync.GetBlockIds | libraries/app/application.cpp:621-666 | starts from the last recognised synopsis entry, says that none is, or throws at a known block that the block log has no id for |
| ChainSync.LastRecognised | libraries/app/application.cpp:641-655 | the scan stops at the last entry recognised, and fails if and only if it comes to a known block without an id in the log first |
| ChainSync.KnownAboveThrows | libraries/app/application.cpp:641-655 | a synopsis that ends in a known fork block above the chain makes the responder throw |
| ChainSync.ForkBlockCanBeKnown | libraries/app/application.cpp:641-655 | a node and a synopsis with which it does, and which without that block is answered |
| ChainSync.ReplyReachesHead | libraries/app/application.cpp:644-666 | ids sent and the remaining count reach exactly the responder's head if and only if the limit is positive |
| ChainSync.SynopsisAndReplyMeet | libraries/app/application.cpp:644-663 | with highest common block f at or above low, the responder starts at the highest synopsis entry at or below f, at most true_high - f below it |
| ChainSync.EndToEnd | libraries/app/application.cpp:621-867 | from the chosen range to the first id sent: the reply starts at a block of both chains, no further below the highest common one than that is below the end, and reaches exactly the responder's head |
| Prices.LessIsTransitive | libraries/chain/protocol/asset.cpp:32-74 | on prices that sell something the cross-multiplied comparison is a total preorder whose equivalence is equality of prices |
| Prices.InverseReverses | libraries/chain/protocol/asset.cpp:43-74 | turning both prices round turns the comparison round |
| Prices.TimesIsLargest | libraries/chain/protocol/asset.cpp:76-93 | an amount times a price is the largest amount not worth more |
| Prices.ThereAndBackNeverGains | libraries/chain/protocol/asset.cpp:76-93 | converting and converting back never gains |
| PriceIndices.First | libraries/chain/include/graphene/chain/market_object.hpp:82-88 | finds the entry of highest price, then lowest id |
| PriceIndices.BeforeIsOrder | libraries/chain/include/graphene/chain/market_object.hpp:82-88 | the order of the index is strict, total and transitive |
| Trading.FeeWithinAmount | libraries/chain/db_market.cpp:561-580 | a market fee never exceeds the amount it is taken from |
| Trading.MarketFeeIsFee | libraries/chain/db_market.cpp:561-580 | a market fee is the asset's percentage of the amount, rounded down, but at most its cap, and nothing where none is charged |
| Trading.TermsAreProducts | libraries/chain/db_market.cpp:217-254 | the products a match computes never exceed the maximum share supply |
| Trading.TermsAreFair | libraries/chain/db_market.cpp:217-254 | neither side pays more than it offers, one side is emptied, and the price is the maker's: what is sold in full is worth what it buys, what is bought in full costs what is paid, each to the unit; the maker receives at least the floor of its price |
| TradePrices.FirstOffersMost | libraries/chain/db_market.cpp:177-188 | the first order of the index that crosses is, of all that can be traded with, the one that offers most for what it asks, the oldest of equals |
| TradePrices.MatchIsTrade | libraries/chain/db_market.cpp:217-254 | every match is at the maker's price, and every balance after it is the one before plus what the trade, its fees and a culled rest bring |
| TradePrices.MatchesAreTrades | libraries/chain/db_market.cpp:177-188 | a new order trades, each time with the one that offers most, exactly as long as there is somebody to trade with |
| TradePrices.RestIsGivenBack | libraries/chain/db_market.cpp:195-203 | afterwards it finds nobody, and what is left of it is given back exactly when it is worth less than a unit |
| TradePrices.RestingMeans | libraries/chain/db_market.cpp:177-203 | a book is at rest if and only if the products of no two opposite prices leave room for a trade and every order is worth a unit |
| Trading.TakerGetsItsPrice | libraries/chain/db_market.cpp:217-254 | when the orders cross, the taker too receives at least the floor of what it pays at its own price |
| Trading.FillLimitHolds | libraries/chain/db_market.cpp:295-335 | a fill moves what is paid and received through the books and nothing else: fees, deferred fee, rest and refund included |
| Trading.CancelHolds | libraries/chain/db_market.cpp:111-133 | cancelling an order gives back all it held |
| Trading.FillCallHolds | libraries/chain/db_market.cpp:338-389 | collateral falls by what is paid, debt and supply by what is received; a closed position frees the rest |
| Trading.FillSettleHolds | libraries/chain/db_market.cpp:391-415 | a settlement order falls by what it pays, and what it receives arrives less the fee |
| Trading.MatchSettleHolds | libraries/chain/db_market.cpp:262-293 | supply, debt and holdings of the asset fall by the settled amount, and no other asset changes in total |
| Trading.MarginCallHolds | libraries/chain/db_market.cpp:511-542 | the same for a position that buys back debt from a limit order |
| OrderBooks.FillsKeepBook | libraries/chain/db_market.cpp:217-254 | a match only shrinks the two orders, uses one of them up, and leaves nothing too small of the maker |
| OrderBooks.MatchHolds | libraries/chain/db_market.cpp:217-254 | a match conserves every asset |
| OrderBooks.MatchedAllKeepsBook | libraries/chain/db_market.cpp:181-188 | after all its matches a new order crosses nothing and the rest of the book is still uncrossed and sellable |
| OrderBooks.AppliedKeepsBook | libraries/chain/db_market.cpp:156-204 | apply_order leaves an uncrossed book free of orders too small to be sold |
| OrderBooks.AppliedHolds | libraries/chain/db_market.cpp:156-204 | apply_order conserves every asset |
| LimitMarkets.PlacedKeepsOrder | libraries/chain/market_evaluator.cpp:73-98 | creating an order keeps the book uncrossed and sellable, and conserves every asset, the deferred fee included |
| LimitMarkets.WithdrawnKeepsOrder | libraries/chain/market_evaluator.cpp:110-126 | so does cancelling one |
| LimitMarkets.RunsKeepOrder | libraries/chain/market_evaluator.cpp:73-126 | after any run of creations and cancellations no opposite orders cross, every order can still receive a unit, and balances, amounts for sale and fees add up to what they did |
| LimitMarkets.TakerReceivesNothing | libraries/chain/db_market.cpp:226-242 | a taker's payment buys nothing if and only if it is worth less than a unit at the maker's price, and then it was too small to be sold |
| LostRemainders.RemaindersAreLost | libraries/chain/db_market.cpp:226-242 | a run of three orders over which the last unit that an account sells buys nothing |
| LimitMarkets.CreateLimitOrder | libraries/chain/market_evaluator.cpp:36-98 | goes through exactly when balance, amounts, fill-or-kill and fee allow, and otherwise changes nothing; the book's invariants and every total are kept |
| LimitMarkets.CancelLimitOrder | libraries/chain/market_evaluator.cpp:100-126 | only for the seller; the order's amount and deferred fee return, and the invariants are kept |
| AccountEffects.EnteredReaches | libraries/chain/market_evaluator.cpp:73-98 | an order takes exactly what it sells from its seller's balance and stands for it at the price asked |
| AccountEffects.WithdrawnReaches | libraries/chain/market_evaluator.cpp:110-126 | cancelling brings the seller what was still for sale and the deferred fee, less the fee, and no other balance changes |
| MarketDatabases.MarketDatabase.AdjustBalance | libraries/chain/db_balance.cpp:64-90 | throws exactly when the balance does not cover a negative change |
| MarketDatabases.MarketDatabase.FillLimit | libraries/chain/db_market.cpp:295-335 | updates balances, fees and the order to the specified fill, and says whether the order is gone |
| MarketDatabases.MarketDatabase.Match | libraries/chain/db_market.cpp:216-254 | the two balances after a match: each side gets what the other pays at the maker's price, to the unit, less the market fee of its asset, and the maker a rest worth less than a unit; the result bits are never both clear |
| MarketDatabases.MarketDatabase.ApplyOrder | libraries/chain/db_market.cpp:156-204 | the loop matches with the first crossing order of the index again and again, to the specified end, and culls the rest |
| MarketDatabases.MarketDatabase.LeastCollateralized | libraries/chain/db_update.cpp:410-411 | the first position by collateral per debt, then id, of those at or above the lowest price; none if and only if there is no such position |
| MarketDatabases.ListedHasCollateral | libraries/chain/protocol/asset.cpp:102 | a position without collateral lies below the lowest price, and none other while debts stay within the maximum supply |
| MarketDatabases.LeastIsFirst | libraries/chain/include/graphene/chain/market_object.hpp:173-178 | no position that the lookup can find has less collateral per debt, and none as little is older |
| MarketDatabases.MarketDatabase.MatchSettle | libraries/chain/db_market.cpp:262-293 | settles the least of order, limit and debt; refused without collateral, and a black swan that changes nothing when the collateral would not exceed the payment |
| Backings.RedemptionIsCovered | libraries/chain/asset_evaluator.cpp:436-454 | in a solvent fund any amount up to the supply is within the fund, and the fund stays solvent |
| Backings.CapStays | libraries/chain/asset_object.cpp:97-108 | settling moves supply into settled volume, so the cap does not drift |
| Backings.BelowCapIsSupplied | libraries/chain/asset_object.cpp:97-108 | below its cap an asset has supply left |
| Backings.SuppliedIsOwed | libraries/chain/db_update.cpp:410-414 | while an asset has supply somebody owes it |
| ForcedSettlements.MatchedSettleKeepsBacked | libraries/chain/db_market.cpp:262-293 | a settlement keeps supply equal to debt |
| ForcedSettlements.PositionExists | libraries/chain/db_update.cpp:407-414 | below the cap somebody owes the asset, and when its positions have collateral the inner loop finds one, as the assert says |
| ForcedSettlements.SettleUpToCap | libraries/chain/db_update.cpp:404-429 | the inner loop is a run of rounds, each with the least collateralized position, that ends with the order gone or the settled volume exactly at the cap, or throws if and only if there is more to settle and no position can be found, never when all had collateral before |
| ExpiredSettlements.SettlementPrice | libraries/chain/db_update.cpp:396-402 | the order's amount at the feed price, rounded down, less the offset, rounded down; None exactly when the amount is not one that there can be, and never above the maximum share supply |
| ExpiredSettlements.SettlingSweeps | libraries/chain/db_update.cpp:407-435 | settling an order keeps supply plus settled volume, the cap and everything outside |
| ExpiredSettlements.SettlementShortens | libraries/chain/db_update.cpp:327-435 | a settling pass removes the order or settles part of it |
| ExpiredSettlements.LaterAdvances | libraries/chain/db_update.cpp:308-325 | moving to the next asset leaves fewer orders ahead |
| ExpiredSettlements.SweepPass | libraries/chain/db_update.cpp:327-435 | every pass removes an order, settles part of one or moves on, and what it leaves behind may stay; or it throws at an order that would be settled further but is worth too much or finds no position, before its volume is updated |
| ExpiredSettlements.ClearExpiredSettlements | libraries/chain/db_update.cpp:300-437 | the sweep ends; it is a run of passes, each on the first order of an asset; no asset is settled past its cap; supply equals debt throughout; it throws if and only if the ledger it has reached has an order that throws, never from an untroubled ledger, and otherwise leaves only orders not yet due or of an asset at its cap |
| ExpiredSettlements.UntroubledNeverThrows | libraries/chain/db_update.cpp:396-422 | when every due order is worth an amount and its asset's positions have collateral before the sweep, no order throws at any point of it |
| SettlementRounds.PriceIsDiscounted | libraries/chain/db_update.cpp:396-402 | an order's price is its worth at the feed less the offset, each rounded down, unless it is worth more than there can be |
| SettlementRounds.PartIsPaidFor | libraries/chain/db_update.cpp:396-422 | n units are paid no more than n at the feed price less the offset, and less than three units short of that |
| SettlementRounds.RoundIsFair | libraries/chain/db_update.cpp:404-423 | every round takes the least collateralized position and as much as order, debt and cap allow, pays the owner that much less the market fee, and leaves the position, its borrower and everybody else accordingly; or cancels the order when it would take all the collateral |
| SettlementRounds.PassIsFair | libraries/chain/db_update.cpp:372-437 | every settling pass is on the oldest due order of its asset, in such rounds, up to the asset's percentage of its supply before any settlement |
| Backings.VolumeIsShare | libraries/chain/asset_object.cpp:97-108 | the cap is the percentage of supply and settled volume together, rounded down |
| GlobalSettlements.GatheredAndFreed | libraries/chain/db_market.cpp:69-85 | what is gathered and what is freed add up to all the collateral there was |
| GlobalSettlements.GloballySettle | libraries/chain/db_market.cpp:44-94 | no position remains and each borrower gets the rest; the fund is the worth of the whole supply at the price, short of it by less than a unit for each position, when all positions cover their debts, and all the collateral when none does; the supply is as before and every asset is conserved |
| GlobalSettlements.OwedIsOwed | libraries/chain/db_market.cpp:69-74 | a position that covers its debt pays its worth rounded down, any other all its collateral |
| GlobalSettlements.FundIsWorth | libraries/chain/db_market.cpp:69-94 | when all positions cover their debts the fund is the supply's worth, short of it by less than a unit for each position; when none does it is all the collateral |
| GlobalSettlements.BorrowerGetsRest | libraries/chain/db_market.cpp:69-85 | each borrower's balance grows by exactly the collateral less what the position owes |
| FundShares.PaysInFullExactly | libraries/chain/asset_evaluator.cpp:395-404 | what is asked of the least collateralized position, as a product of debt, collateral and price |
| GlobalSettlements.LeastSpeaksForAll | libraries/chain/asset_evaluator.cpp:395-404 | every better collateralized position can pay if and only if the least one covers its debt before rounding |
| GlobalSettlements.RoundingHidesShortfall | libraries/chain/asset_evaluator.cpp:395-404 | a least position that can pay after rounding while an equal one cannot |
| BitAssetOperations.HolderIsPaid | libraries/chain/asset_evaluator.cpp:436-441 | a holder's claim is within the fund, which stays solvent for the others |
| BitAssetOperations.RedeemedIsBacked | libraries/chain/asset_evaluator.cpp:436-454 | redeeming keeps every asset backed |
| BitAssetOperations.EveryRunIsCovered | libraries/chain/asset_evaluator.cpp:436-454 | no run of redemptions within the supply exceeds the fund, and what is left covers the rest |
| FundShares.HolderGetsWorth | libraries/chain/asset_evaluator.cpp:430-454 | at any time after a global settlement n units are redeemed for their worth at its price, short of it by less than a unit for each position and one, or for their share of all the collateral when no position covered its debt, and no other balance changes |
| AccountEffects.MaySettleExactly | libraries/chain/asset_evaluator.cpp:414-433 | before a global settlement a request needs permission and a feed, after it a feed unless in a prediction market |
| AccountEffects.QueuedReaches | libraries/chain/asset_evaluator.cpp:455-461 | a queued request takes what it holds from its owner's balance alone |
| BitAssetOperations.QueuedIsBacked | libraries/chain/asset_evaluator.cpp:455-461 | a queued settlement order holds exactly what left the balance |
| BitAssetOperations.Settle | libraries/chain/asset_evaluator.cpp:414-463 | when exactly a request goes through; it redeems after a global settlement and queues before; otherwise nothing changes |
| Positions.BorrowedHolds | libraries/chain/market_evaluator.cpp:168-236 | supply, debt and holdings of the asset change by the same amount, and collateral only moves |
| Positions.BorrowedIsBacked | libraries/chain/market_evaluator.cpp:168-236 | changing a position keeps every asset backed, with one position for an account and asset |
| Positions.UpdateCall | libraries/chain/market_evaluator.cpp:128-236 | when exactly the operation goes through before margin calls are checked; refused, it changes nothing |
| AccountEffects.LendsExactly | libraries/chain/market_evaluator.cpp:128-236 | when exactly a position may be opened or changed, in terms of asset, balances, debt and collateral |
| AccountEffects.BorrowedReaches | libraries/chain/market_evaluator.cpp:168-236 | the borrower gets the debt and gives the collateral, or the reverse, and the position changes by both or, without debt, is gone |
| MarginCalls.CallKeepsBacked | libraries/chain/db_market.cpp:505-542 | every margin call keeps every asset backed, and its positions collateralized if and only if it does not use up the collateral of one still in debt |
| CallExamples.CallCanEmptyPosition | libraries/chain/db_market.cpp:467-542 | a market with feed, ratios, one position and one bid in which a call takes the last collateral but not the debt, and the next look settles the asset for nothing |
| MarginCalls.EmptiesPosition | libraries/chain/db_market.cpp:505-532 | it happens exactly when the bid sells less than the debt for at least all the collateral |
| MarginCalls.MarginCall | libraries/chain/db_market.cpp:505-542 | exactly when the whole debt is affordable at the order's price both sides are filled; exactly when it is not, that is allowed, and every debt has a price, the asset is globally settled; otherwise the call throws |
| CallChecks.CheckRound | libraries/chain/db_market.cpp:467-542 | one look at the first position, the best bid and the bid that the iterator points at decides, exactly, between rest, a global settlement by the swan price or the feed, an exception, a call, and a read of a removed bid; in an open market it rests exactly when the position is no black swan and its call price is below the feed or the bid, or there is no bid, and calls exactly when neither holds and the bid is affordable, as products of debts, collateral and prices |
| CallChecks.SwanExactly | libraries/chain/db_update.cpp:238-265 | the first position is a black swan exactly when it owes no less per collateral than the feed and than every bid |
| CallChecks.LookDecides | libraries/chain/db_market.cpp:467-512 | rest, call and settlement price decided, both ways, by debts, collateral, feed, bids and call prices |
| CallConditions.RoundIsDue | libraries/chain/db_market.cpp:467-542 | in every round of every check the first position by call price, no black swan, with a call price not below the feed nor the best bid that was not passed, buys what it owes or all of that bid at the bid's price, to the unit, and every balance, the bid and the position are left accordingly |
| CallChecks.CheckCallOrders | libraries/chain/db_market.cpp:427-545 | the check ends; it is a run of calls, each of the first position with the bid that the iterator points at, that ends in what the last look shows; at rest or after a global settlement every asset is backed, what is outside is unchanged, and positions that all had collateral still do |
| CallChecks.NoSwanHasCollateral | libraries/chain/db_update.cpp:248-267 | where no black swan is found no position is without collateral |
| CallChecks.EmptySettlesForNothing | libraries/chain/db_update.cpp:248-265 | the asset is settled at a price of nothing exactly when its first position has no collateral, where black swans are allowed, and otherwise the check throws |
| CallChecks.NothingIsGathered | libraries/chain/db_market.cpp:69-85 | a settlement at a price of nothing leaves an empty fund and gives every borrower all the collateral back |
| CallChecks.CheckEndsForNothing | libraries/chain/db_market.cpp:427-545 | a whole check of positions that all had collateral ends in a settlement for nothing if and only if a call has emptied a position and black swans are allowed |
| CallChecks.PassesExactly | libraries/chain/db_market.cpp:464-541 | over a whole check filled_limit is set exactly when some round has used up its bid; until then no bid is passed, and from then on the iterator never points at a removed one |
| CallChecks.UndefinedExactly | libraries/chain/db_market.cpp:512-542 | a round is followed by a read of a removed bid if and only if no bid has been used up so far, the debt is less than the bid, too little of the bid is left, and there is another position that is no black swan |
| CallChecks.RestsBesideBid | libraries/chain/db_market.cpp:478-541 | a check at rest would go on with a fresh iterator if and only if the market is open, there is a position, every bid not below the squeeze price has been passed, and the best of them is not protected |
| CallChecks.RestIsRest | libraries/chain/db_market.cpp:467-542 | a check in which no bid has been used up rests only where a fresh look would |
| CallExamples.CheckCanPassBid | libraries/chain/db_market.cpp:464-541 | a whole check of two positions and two bids that rests beside a bid with which the second position would be called |
| CallExamples.BidCanBeGone | libraries/chain/db_market.cpp:534-540 | a market with two positions and a bid in which the second round reads a bid that was removed |
| MarginCalls.GlobalSettle | libraries/chain/asset_evaluator.cpp:387-412 | when exactly a requested settlement goes through; refused, it changes nothing |
| MarginCalls.ClaimKeepsBacked | libraries/chain/asset_evaluator.cpp:540-555 | claimed fees become a balance of the issuer, and nothing else changes |
| MarginCalls.ClaimFees | libraries/chain/asset_evaluator.cpp:540-555 | refused exactly when more is claimed than has accumulated |
| AccountEffects.ClaimedReaches | libraries/chain/asset_evaluator.cpp:540-555 | what is claimed leaves the accumulated fees for the issuer's balance, and no other changes |
| BackedRuns.StepKeepsBacked | libraries/chain/db_market.cpp:44-415 | every market step, placing orders, changes of feeds and calls that empty a position included, keeps every asset backed and the unheld part of every supply unchanged, up to deferred fees not yet charged |
| BackedRuns.StepKeepsCollateral | libraries/chain/db_market.cpp:505-542 | a step leaves an asset's positions without collateral if and only if it is a call that uses up the collateral of one still in debt, or debt beyond the maximum supply |
| BackedRuns.RunsKeepBacked | libraries/chain/market_evaluator.cpp:64-98 | over a whole run the unheld part of every supply is unchanged, exactly up to the deferred fees entered and not yet charged |
| BackedRuns.SupplyIsDebtIsHeld | libraries/chain/db_update.cpp:407-423 | at every point of every run supply equals holdings, before a global settlement it equals debt, and after it every balance can be redeemed from the fund |
| Budget.RankedByVotes | libraries/chain/db_maint.cpp:120-135 | exactly the workers with net votes within their time are ranked, none above one with more net votes, and of equals the lower id first |
| Budget.HigherRanksFirst | libraries/chain/db_maint.cpp:137-156 | nobody gets more than requested, and a worker is paid only after all ranked above got their whole request |
| Budget.RanksDecide | libraries/chain/db_maint.cpp:132-156 | paying by rank is paying by votes: only the entitled, each once and within its request and the budget; a worker with more net votes than one that is paid gets all it requests, and everybody does when some of the budget remains |
| Budget.RequestIsShare | libraries/chain/db_maint.cpp:139-146 | a request is the daily pay for the time since the last budget, rounded down |
| Budget.PaysAreAccounted | libraries/chain/worker_evaluator.cpp:106-126 | for every mix of refund, vesting and burn workers the supply net of credited balances falls by exactly what is paid |
| Budget.PaysArrive | libraries/chain/worker_evaluator.cpp:106-126 | the supply falls by what refund workers are paid and nothing else, the null account gets what burn workers are, and each vesting balance what its own workers are |
| Budget.NoUntouchableReserve | libraries/chain/db_maint.cpp:343-365 | rounding up makes every nonzero reserve spendable in time, and the budget never exceeds the reserve |
| Budget.BudgetIsShare | libraries/chain/db_maint.cpp:343-365 | the budget is the cycle rate's share of the reserve for the time passed, rounded up, or all of the reserve |
| Budget.BudgetsAreShares | libraries/chain/db_maint.cpp:391-424 | witnesses are paid for every interval begun before maintenance, workers by the time there is to it |
| Budget.CoreAsset.PayWorkers | libraries/chain/db_maint.cpp:116-157 | pays by rank until the budget is used up and returns exactly what is left; whoever has more net votes than a worker that is paid gets the whole request for the time passed, and what is paid arrives where each worker's pay goes |
| Budget.CoreAsset.ProcessBudget | libraries/chain/db_maint.cpp:371-459 | the supply never passes the maximum; supply minus collected fees, witness budget and credited balances is unchanged; witnesses come first |
| InterestPower.FastPowOfInterest | libraries/chain/asset_object.cpp:35-55 | the square-and-multiply loop computes the recursive power |
| InterestPower.TimesIsAtMost | libraries/chain/asset_object.cpp:35-55 | one truncated multiplication stays at most the product of exact powers |
| InterestPower.FastPowIsSafe | libraries/chain/asset_object.cpp:35-83 | for every rate and exponent the result is at most the exact rational power, and at least one when the rate is |
| InterestPower.FastPowIsClose | libraries/chain/asset_object.cpp:35-55 | for a rate of at least one the result falls short of the exact power by at most two parts in the scale for each day |
| Vesting.WithdrawLowersAllowedExactly | libraries/chain/vesting_balance_object.cpp:111-142 | withdrawing a at an instant lowers what may be withdrawn at that instant by exactly a |
| Vesting.DepositsAndAllowed | libraries/chain/vesting_balance_object.cpp:121-131 | a deposit does not change what may be withdrawn now, a vested deposit raises it by exactly its amount |
| Vesting.AllowedIsEarned | libraries/chain/vesting_balance_object.cpp:90-158 | nothing is allowed up to the start, and after it exactly the coins whose vesting periods are covered by coin-seconds earned and accrued, up to the balance |
| Vesting.BalanceVests | libraries/chain/vesting_balance_object.cpp:90-158 | a balance left alone for the vesting period may be withdrawn as a whole |
| Vesting.UpdatingChangesNothing | libraries/chain/vesting_balance_object.cpp:90-120 | bringing the coin-seconds up to date in between changes nothing |
| Vesting.CapIsKept | libraries/chain/vesting_balance_object.cpp:90-142 | coin-seconds earned stay within balance times max(vesting_seconds, 1) |
| Vesting.RunsAreCovered | libraries/chain/vesting_balance_object.cpp:90-158 | over any run the coin-seconds of what was withdrawn and what is left never exceed those accrued |
| Vesting.CddBalance.Withdraw | libraries/chain/vesting_balance_object.cpp:226-232 | refused exactly above the allowed amount; what is taken is covered by coin-seconds and balance |
| Vesting.CddBalance.Deposit | libraries/chain/vesting_balance_object.cpp:207-213 | the balance grows, and coin-seconds earned so far are kept, within the cap |
| Vesting.CddBalance.DepositVested | libraries/chain/vesting_balance_object.cpp:214-220 | the balance grows together with the coin-seconds that make it withdrawable |
| Vesting.VestingGrows | libraries/chain/vesting_balance_object.cpp:37-68 | what has vested never shrinks with time and never exceeds the begin balance |
| Vesting.VestsInProportion | libraries/chain/vesting_balance_object.cpp:37-68 | nothing up to the cliff, then the begin balance's share for the time passed, rounded down, and in the end all of it |
| Vesting.LinearRunsAreCovered | libraries/chain/vesting_balance_object.cpp:37-88 | over any run what was withdrawn is within what has vested plus what was deposited |
| Vesting.LinearWithoutDeposits | libraries/chain/vesting_balance_object.cpp:37-68 | without deposits the total withdrawn by a time is within what has vested by then |
| Vesting.DepositVestsAtOnce | libraries/chain/vesting_balance_object.cpp:70-78 | after the cliff, and without asserts, a deposit raises the allowed amount at once by all of it |
| AmountText.AmountToString | libraries/chain/asset_object.cpp:212-224 | the loop prints whole units and zero-padded decimals without a point when there are none |
| AmountText.AmountFromString | libraries/chain/asset_object.cpp:157-210 | the scanning and padding loops parse or refuse as specified, 64-bit range included |
| AmountText.ScannedExactly | libraries/chain/asset_object.cpp:157-176 | the scan lets pass exactly the texts of digits with at most one minus sign and at most one point |
| AmountText.PrintedParsesBack | libraries/chain/asset_object.cpp:157-224 | parsing a printed amount gives it back, for every amount up to the maximum share supply and precision up to 18 |
| AmountText.PrintedIsInjective | libraries/chain/asset_object.cpp:212-224 | different amounts are printed differently |
| SlotTimes.SlotAtInvertsSlotTime | libraries/chain/db_witness_schedule.cpp:42-81 | the slot of a slot's time is that slot, from 1, if and only if there is a first block or it is not asked for missed blocks |
| SlotTimes.SlotContainsTime | libraries/chain/db_witness_schedule.cpp:72-81 | a time lies between its slot's time and the next one's |
| SlotTimes.FirstSlotIsNext | libraries/chain/db_witness_schedule.cpp:42-70 | the first slot is one interval after genesis, or the next multiple of the interval above the head's time and the slots that maintenance skips |
| WitnessSchedules.Schedule.UpdateWitnessSchedule | libraries/chain/db_witness_schedule.cpp:89-122 | once per round, the in-place swaps give the specified shuffle of the active witnesses; otherwise nothing changes |
| WitnessSchedules.ShufflePermutes | libraries/chain/db_witness_schedule.cpp:98-120 | the shuffle is a permutation |
| WitnessSchedules.ShuffleIsDrawn | libraries/chain/db_witness_schedule.cpp:98-120 | each position is swapped with the one that the random number modulo the number of positions left draws |
| WitnessSchedules.ShuffleIsFair | libraries/chain/db_witness_schedule.cpp:98-120 | every order of the witnesses comes from exactly one choice of draws |
| Scrambling.GeneratorValue | libraries/chain/db_witness_schedule.cpp:104-111 | a value of the 64-bit generator |
| WitnessSchedules.EveryWitnessOnce | libraries/chain/db_witness_schedule.cpp:34-122 | every n consecutive slots under one schedule have each of the n active witnesses exactly once |
| WitnessSchedules.EveryWitnessIsCalledOnce | libraries/chain/db_witness_schedule.cpp:34-40 | in any n slots in a row after a reshuffle get_scheduled_witness calls every active witness, and none twice |
| WitnessSchedules.TurnsStay | libraries/chain/db_witness_schedule.cpp:34-40 | as slots pass, whose turn a slot is does not change |

## Left out

- Networking, RPC, wallet, serialisation, signatures, hashing and file layout: block ids determine numbers and are taken to be free of collisions; packing is abstract and round-trips.
- ChainDatabases.ChainDatabase.PushBlock: claims the object state, its records and limit, and the blocks of the fork database, not its head pointer after a failed switch, the block log or the pending transactions. A block's undo record is the state that it goes back to, which is what UndoDatabases proves of the records.
- ForkDatabases.ForkDatabase.PushBlock: parents are found by id, so a block that was removed and pushed again takes its old children back. In the code a child holds a weak pointer to its parent: children older than the second push keep an expired one, and fetch_branch_from and pop_block throw when they come to it. Lineage and PopBlock do not show that.
- ChainDatabases.WideWindowsNeverStick: sufficient for recovery, not necessary: it asks for the room that the longest possible failure needs. The exact condition is in SwitchRecovery.SwitchIsDecided.
- UndoLog.UndoIsExact: uniqueness constraints of the indices, which could refuse an insertion, are not modelled.
- CallChecks.CheckCallOrders: the call prices, which were computed when the positions last changed, and the squeeze price are given; feed protection is that after its hardfork; whether a call was made, which is what the code returns, can be read off the run.
- Positions.UpdateCall: the check for margin calls that follows the change (see CallChecks) and the range checks of call_price are not part of it.
- MarginCalls.GlobalSettle: the permission flag and the issuer are taken as given; an asset already settled is refused before its positions are looked at, where the code looks at the first position of the index; where the code asserts that there is a position, a missing one is a refusal.
- Vesting.DepositVestsAtOnce: about builds without asserts; with them the query after such a deposit can stop at an assert.
- ExpiredSettlements.ClearExpiredSettlements: a lookup that finds no position counts as an exception, where the code asserts that there is one.
- LimitMarkets.CreateLimitOrder: markets of assets that are not market-issued, fees in the core asset, and no authorisation lists or expiration.
- LimitMarkets.CancelLimitOrder: cancellation by the owner; expired orders, whose removal also depends on fee refunds, are not modelled.
- MarketDatabases.MarketDatabase.FillLimit: account statistics (total_core_in_orders, per-account fee counters) are not modelled, and pending and vested pending fees are one amount.
- GlobalSettlements.GloballySettle: positions are closed in any order, since the result does not depend on it.
- BackedRuns.SupplyIsDebtIsHeld: assets locked in vesting balances are outside the ledger, so the equality with holdings is kept if it held at the start.
- Vesting.RunsAreCovered: 128-bit and 64-bit overflow of coin-seconds is not modelled.
- InterestPower.FastPowIsSafe: no overflow of the 128-bit products.
- The reward that _get_interest makes of the power, scaled by the interest pool and its coefficients.
- AmountText.PrintedParsesBack: negative amounts, which the printer does not pad correctly.
- call_price, max_short_squeeze_price and the median of feeds.
- Behaviour before the hardforks, the fixed fee update, debug updates, notifications, proposals, vote counting and confidential transfers.
- ChainSync.GetBlockchainSynopsis: numbers of blocks after the reference so large that the sum with the head exceeds 32 bits are not modelled.
