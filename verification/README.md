# A verified model of the trading core

This project models the deterministic core of an execution engine in Dafny and proves what it promises:
the limit order book, the engine that works parent orders against simulated markets, its accounting and
pre-trade limits, the schedulers, and the client's session protocol.

`dafny verify dfyconfig.toml` checks everything.

## How it is built

Each imperative part exists twice: as a class or method that changes its state step by step, as the source
does, and as functions on values that say what the step means. The class methods are proved to compute
exactly those functions; the theorems are lemmas about the functions, and so hold of the classes.

| part | values and laws | imperative form |
|---|---|---|
| order book | `BookSpec`, `BookLaws`, `MatchingLaws`, `BestPrices`, `Levels`, `BookInvariant`, and the flat list `ReferenceBook` | `OrderBooks.OrderBook` |
| accounting | `Accounting`, `AccountingLaws` | `Accounting.Position` |
| parent orders, limits | `ParentOrders`, `Risk` | `ParentOrders.ParentOrder` |
| simulated venue | `VenueSpec`, `VenueLaws`, `LadderLaws` | `SimulatedVenues.SimulatedVenue` |
| engine | `EngineSpec`, `EngineRuns` and the law modules `DeskLaws`, `TurnLaws`, `ConductLaws`, `ExposureLaws`, `MarkLaws`, `TickLaws`, `TickConduct`, `RetireLaws`, `SafetyLaws`, `FilingLaws`, `ScheduleLaws`, `CommandLaws`, `RunLaws`, `AdmitLaws`, `HistoryLaws`, `TallyLaws`, `OrderLaws`, `EnginePromises`, `OverflowLaws`, `HaltLaws`, `OrderPromises`, `Configuration` | `Engines.EngineCore` |
| schedulers | `Schedule`, `SplitMix`, `Twap`, `Cumulative`, `Vwap`, `Pov`, `AlmgrenChriss`, `ImplementationShortfall`, `ShortfallModel` | methods in the same modules |
| client sessions | `Session` (every lock, check, write and release is a step) | |

`Types`, `DivMod` and `Sums` hold machine-integer ranges and facts about quotients and map sums.

The order book is proved in three layers. The class keeps price levels, cached totals and an id index. It
refines a pair of priority queues, and those simulate a flat list in arrival order that is matched by linear
scans. The engine's theorems quantify over every sequence of submits, cancels, ticks and halts from a new
engine (`EnginePromises.Ran`), and `Engines.Replay` runs the class through any such sequence. What holds after
every run is in `EnginePromises`; what each command does, in terms of the request, the clock and the replies rather
than of the functions that do it, is in `OrderPromises` and `HaltLaws`.

The engine's theorems assume limits as `CommandLaws.Sane` says: a position limit of at most the largest i64, a
positive loss limit, a gross limit below the largest i128; and child ids still below 2^63, where quote ids begin.
Settings that pass validation meet this with one exception: a loss limit below 0.000005 rounds to 0 ticks.
`Configuration.AcceptedLimits` says exactly that.

## What the proofs found

- The gross limit is enforced in saturating arithmetic. `Risk.PassesExactlyWithinLimits` shows when that agrees
  with exact arithmetic, and `Risk.SaturationPassesLargestLimit` is an order that passes although it exceeds the
  limit: it needs the gross limit to be the largest i128.
- A new engine is above its loss limit only if that limit is positive (`RunLaws.StartsSolvent`), and nothing
  checks the loss before the first tick. Accepted settings can have a loss limit that rounds to 0 ticks.
- The accounting can overflow, so the source halts on it: `OverflowLaws.FairFillsOverflow` is six fair fills, the
  last of which is refused. Only the sum of realized P&L can leave its range (`OverflowLaws.FillFitsExactly`), and
  limits that add up to at most 2^127 + 1 rule it out (`OverflowLaws.AccountingNeverFails`). Limits from settings
  always do (`Configuration.ConfiguredEngineIsExact`).

## Model

| member | source | states |
|---|---|---|
| BookSpec.SweepConserves | crates/orderbook/src/book.rs:440-484 | Matching moves quantity: the taker loses what the fills carry, and the other side loses it at each fill's price. |
| BookSpec.SweepExhausts | crates/orderbook/src/book.rs:440-484 | Quantity stays unfilled only where no order is left that the taker accepts. |
| BookLaws.SubmitKeepsWellFormed | crates/orderbook/src/book.rs:180-217 | Any submit keeps the book uncrossed, sorted by price then arrival, with unique ids, level totals in range and only positive GTC limit orders resting. |
| BookLaws.CancelKeepsWellFormed | crates/orderbook/src/book.rs:221-235 | So does any cancel. |
| BookLaws.SubmitConserves | crates/orderbook/src/book.rs:180-217 | Resting quantity changes by exactly what was filled and what rested, and each outcome reports its exact remainder. |
| BookLaws.CancelRemovesExactlyOne | crates/orderbook/src/book.rs:221-235 | A cancel returns the one order with that id and removes it alone; an unknown id changes nothing. |
| BookLaws.SweepTakesAvailable | crates/orderbook/src/book.rs:420-484 | Matching leaves unfilled exactly what the acceptable levels cannot supply. |
| BookLaws.FillOrKill | crates/orderbook/src/book.rs:183-200 | An FOK order fills in full if the acceptable depth reaches its size, and otherwise trades nothing and leaves the book as it was. |
| BookLaws.SweepPaysValue | crates/orderbook/src/book.rs:440-484 | A complete fill pays the value of the first units of the queue. |
| BookLaws.UnitPricesWorsen | crates/orderbook/src/book.rs:440-484 | Later units of a side never have a better price. |
| BookLaws.WalkingTheBookIsSuperadditive | crates/orderbook/src/book.rs:440-484 | One buy for two sizes pays at least what two separate buys on fresh copies of the book pay; a sell receives at most as much. |
| MatchingLaws.SweepInTurn | crates/orderbook/src/book.rs:440-484 | Fills take the queue from its front, one order each at its own price and never beyond the taker's limit; only the last one may leave some of its order. |
| MatchingLaws.LeftIsBeyond | crates/orderbook/src/book.rs:440-484 | If quantity is left, every order still on the other side is priced strictly beyond the limit; a market order leaves none. |
| MatchingLaws.SubmitTrades | crates/orderbook/src/book.rs:180-217 | An accepted order fills the smaller of its size and all there is within its limit, best price first and earliest first, and leaves the rest of the queue; an FOK order too large for that fills nothing. |
| MatchingLaws.SubmitLeavesBeyond | crates/orderbook/src/book.rs:180-217 | An order that ends unfilled or resting leaves nothing on the other side within its limit. |
| MatchingLaws.RestsInLine | crates/orderbook/src/book.rs:202-217 | What rests is the order with what is left of it, behind every order at its price or better and before every worse one. |
| MatchingLaws.RejectsExactly | crates/orderbook/src/book.rs:377-404 | An order is rejected exactly for a zero quantity, a price that is not positive, a market order that would rest, an id in use, or a level that would leave its range; and then nothing changes. |
| MatchingLaws.FillOrKillByDepth | crates/orderbook/src/book.rs:183-200 | With the depth counted by comparing prices: an FOK order is filled whole if it reaches the order's size, and otherwise leaves no trace. |
| BestPrices.BestPrice | crates/orderbook/src/book.rs:237-243 | The first or last key of an ordered map: one of the prices, with every other one behind it. |
| Levels.QueueMembers | crates/orderbook/src/book.rs:406-417 | The priority queue the levels stand for holds exactly their orders, and starts at the best level. |
| Levels.QueueIsGood | crates/orderbook/src/book.rs:122-153 | Levels in order make a sorted queue of resting orders. |
| Levels.CachedTotals | crates/orderbook/src/book.rs:413-417 | The cached total of a level is the quantity resting at its price, and a missing level means none. |
| Levels.BestLevelChanges | crates/orderbook/src/book.rs:440-484 | Replacing or dropping the best level changes only the front of the queue. |
| Levels.AppendInserts | crates/orderbook/src/book.rs:487-498 | Appending to the level at a price puts the order behind all orders at that price or better. |
| Levels.RemoveFromLevel | crates/orderbook/src/book.rs:221-235 | Removing one position of one level removes just that order from the queue. |
| BookInvariant.LevelsOkMeans | crates/orderbook/src/book.rs:319-364 | The per-order and per-level checks of one side pass exactly when its levels are in order, its ids new and unique, and each is indexed where it rests. |
| BookInvariant.CountDecidesIndex | crates/orderbook/src/book.rs:365-370 | Once every resting order is indexed, equal counts mean that the index names nothing else. |
| BookInvariant.ChecksDecide | crates/orderbook/src/book.rs:319-375 | All checks together pass exactly when the whole book invariant holds. |
| BookInvariant.CheckLevel | crates/orderbook/src/book.rs:325-363 | The walk over one level, with its running total and set of seen ids, decides that level. |
| BookInvariant.CheckLevels | crates/orderbook/src/book.rs:325-364 | The walk over one side decides that side, and counts its orders and ids. |
| OrderBooks.OrderBook.CheckInvariants | crates/orderbook/src/book.rs:319-375 | On any state of the book, corrupt or not, the check passes exactly when the invariant holds. |
| ReferenceBook.ChecksAgree | crates/orderbook/tests/reference_model.rs:24-60 | The book rejects what the flat list rejects, level overflow included, for the same reason. |
| ReferenceBook.TradesAgree | crates/orderbook/tests/reference_model.rs:59-106 | Sorting the candidates of a flat list by price and arrival gives the book's fills, in order. |
| ReferenceBook.SubmitReportsAgree | crates/orderbook/tests/reference_model.rs:24-128 | Both models report the same fills and outcome, or the same error. |
| ReferenceBook.SubmitSimulates | crates/orderbook/tests/reference_model.rs:24-128 | After the same submit, the book's queues are still the list sorted by priority. |
| ReferenceBook.CancelSimulates | crates/orderbook/tests/reference_model.rs:130-134 | The same for cancels, results included. |
| ReferenceBook.DepthAgrees | crates/orderbook/tests/reference_model.rs:136-153 | Grouping the queue by price gives the depth the list sums up. |
| OrderBooks.OrderBook.constructor | crates/orderbook/src/book.rs:156-163 | A new book is empty and in order. |
| OrderBooks.OrderBook.BestBid | crates/orderbook/src/book.rs:237-239 | The best bid is the price of the first buy order in priority. |
| OrderBooks.OrderBook.BestAsk | crates/orderbook/src/book.rs:241-243 | The best ask is the price of the first sell order in priority. |
| OrderBooks.OrderBook.LevelQty | crates/orderbook/src/book.rs:413-417 | The cached total answers how much rests at a price. |
| OrderBooks.OrderBook.Mid | crates/orderbook/src/book.rs:246-249 | The midpoint of the best prices, in range although their sum need not be. |
| OrderBooks.OrderBook.Validate | crates/orderbook/src/book.rs:377-404 | Rejects exactly the orders the priority queues reject, with the same reason. |
| OrderBooks.OrderBook.ExecutableQty | crates/orderbook/src/book.rs:420-438 | The saturating sum over cached totals, cut at the order size, equals what could be traded. |
| OrderBooks.OrderBook.TradeAtLevel | crates/orderbook/src/book.rs:449-475 | The inner loop trades one level as the priority queue does, keeps its cached total, and forgets exactly the ids it used up. |
| OrderBooks.OrderBook.MatchAgainstBook | crates/orderbook/src/book.rs:440-484 | The nested loops produce the fills and the remaining queue of matching in priority order (what those are: `MatchingLaws.SweepInTurn`), with totals and index in step. |
| OrderBooks.OrderBook.Rest | crates/orderbook/src/book.rs:487-498 | Rests an order last at its price, with totals and index in step. |
| OrderBooks.OrderBook.SubmitOrder | crates/orderbook/src/book.rs:180-217 | From a valid book, the new book and the report are those of the priority queues, and the book stays valid. |
| OrderBooks.OrderBook.Position | crates/orderbook/src/book.rs:226-230 | Finds the position of the order with an id in its level. |
| OrderBooks.OrderBook.CancelOrder | crates/orderbook/src/book.rs:221-235 | The same for a cancel through the index, with its result. |
| OrderBooks.OrderBook.TopLevels | crates/orderbook/src/book.rs:269-286 | The first levels are the first prices of the grouped queue, with their sums. |
| OrderBooks.Replay | crates/orderbook/tests/reference_model.rs:198-262 | For any sequence of submits and cancels, replies, depth of both sides and number of orders equal those of the flat list. |
| Accounting.SplitDivision | crates/engine/src/accounting.rs:61-72 | Dividing the whole and the remainder apart gives the truncated quotient of the full product, and every intermediate fits in i128. |
| Accounting.RemovedIsAShare | crates/engine/src/accounting.rs:61-76 | The cost removed by a close has the sign of the cost basis and is no larger. |
| Accounting.RemovedIsTruncated | crates/engine/src/accounting.rs:61-76 | And it is the exact share, cut towards zero. |
| Accounting.Position.ApplyFill | crates/engine/src/accounting.rs:35-45 | Applies a fill as the exact average-cost rule says, or reports overflow and leaves the position unchanged. |
| Accounting.Position.Close | crates/engine/src/accounting.rs:50-82 | Closing realizes the exact P&L of the closed share, or fails only when a result leaves its range. |
| Accounting.Position.Open | crates/engine/src/accounting.rs:83-92 | Opening adds quantity and cost exactly, or fails only when one leaves its range. |
| Accounting.Position.ShareOfCost | crates/engine/src/accounting.rs:61-76 | The overflow-free computation of the removed share equals its definition. |
| AccountingLaws.FillIsExactCash | crates/engine/src/accounting.rs:47-92 | A fill moves realized P&L less cost basis by exactly its cash, whatever the rounding. |
| AccountingLaws.FillMeans | crates/engine/src/accounting.rs:47-92 | A fill that is taken moves the quantity by its size and realized P&L less cost by its cash: adding realizes nothing, a partial close takes its truncated share of the cost out, a flip leaves the excess at its own price. |
| AccountingLaws.RealizedMinusCostIsCash | crates/engine/src/accounting.rs:218-244 | After any fills, realized P&L less cost basis is the net cash of those taken, and the quantity is their net. |
| AccountingLaws.FillKeepsRange | crates/engine/src/accounting.rs:47-92 | No fill priced in a range takes the average cost out of it: not an addition, a truncated close or a flip. |
| AccountingLaws.AverageCostStaysInRange | crates/engine/src/accounting.rs:47-92 | After any fills in a positive price range, the average cost lies in it and has the sign of the quantity. |
| ParentOrders.ParentOrder.Release | crates/engine/src/state.rs:84-100 | The loop releases as the state machine does; in terms of the schedule and the clock that is `ConductLaws.ReleaseMeans`. |
| ParentOrders.ParentOrder.AddChild | crates/engine/src/state.rs:102-109 | Records one more child and changes nothing else. |
| ParentOrders.ParentOrder.AddFill | crates/engine/src/state.rs:112-120 | Adds a fill to the order and its latest child, with the saturating notional. |
| ParentOrders.ParentOrder.CloseIfFilled | crates/engine/src/state.rs:124-128 | Marks the order filled exactly when its quantity is. |
| ParentOrders.ParentOrder.CloseWindow | crates/engine/src/state.rs:132-143 | Ends the order as filled or expired. |
| ParentOrders.ReleasedIsDue | crates/engine/src/state.rs:84-100 | However ticks are spaced, what is released is the sum of the slices due by the latest one. |
| ParentOrders.ReleaseKeepsLedger | crates/engine/src/state.rs:84-100 | Releasing keeps filled at most released at most quantity, and releases every slice once the window is over. |
| ParentOrders.ReleaseCatchesUp | crates/engine/src/state.rs:84-100 | After a release exactly the slices due by then are released. |
| ParentOrders.FillKeepsLedger | crates/engine/src/state.rs:112-120 | A fill within the open quantity keeps child fills summing to filled, at most released. |
| ConductLaws.ReleaseMeans | crates/engine/src/state.rs:84-100 | Once another slice has come due, everything due by now is released, and what to send is all of it that is not filled, which is more than nothing; otherwise nothing is released or sent. |
| Risk.PassesExactlyWithinLimits | crates/engine/src/risk.rs:66-125 | An order within every limit in exact arithmetic passes; one that passes is within them exactly unless the gross sum saturated against the largest limit. |
| Risk.SaturationPassesLargestLimit | crates/engine/src/risk.rs:116-122 | An order that passes the largest gross limit while exceeding it. |
| VenueLaws.QuoteIsSound | crates/engine/src/venue.rs:166-199 | A validated configuration keeps every quote price positive, in range and on its own side of the reference. |
| VenueLaws.QuoteRests | crates/engine/src/venue.rs:112-119 | A quote behind all others of its side and not crossing rests in full without a trade: posting never fails. |
| VenueLaws.PostLevelsBuild | crates/engine/src/venue.rs:91-123 | The quoting loop builds the ladder level by level. |
| VenueLaws.RefreshRestores | crates/engine/src/venue.rs:91-123 | Whatever trading left of the quotes, a refresh leaves exactly the full ladder with new ids. |
| VenueLaws.FullLadderMid | crates/engine/src/venue.rs:133-136 | A full ladder has its mid at the reference price. |
| VenueLaws.ChildIsExecuted | crates/engine/src/venue.rs:150-163 | No child order is rejected; its fills are at most its size and never better than the reference price. |
| VenueLaws.RefreshQuotesRestores | crates/engine/src/venue.rs:91-123 | A refresh restores every market to its full ladder. |
| VenueLaws.MidIsReference | crates/engine/src/venue.rs:133-141 | Between ticks the mid of every market is its reference price. |
| VenueLaws.ExecuteChild | crates/engine/src/venue.rs:150-163 | A child sent to a listed market is executed and leaves every market sound. |
| VenueLaws.ListedExactlyWhenValid | crates/engine/src/venue.rs:61-83 | Configurations are accepted exactly when each is valid and no symbol repeats. |
| VenueLaws.NewVenueIsQuoted | crates/engine/src/venue.rs:61-88 | A new venue lists exactly the configured symbols, all fully quoted. |
| LadderLaws.SpacingExactly | crates/engine/src/venue.rs:166-199 | Given the spacing as reference times basis points over 10,000, rounded down and at least 1: a configuration is accepted with it exactly when its numbers are positive and its ladder in range. |
| LadderLaws.LadderHolds | crates/engine/src/venue.rs:91-123 | Of a ladder, each level, one spacing apart from the reference on, holds the quantity per level. |
| LadderLaws.LadderTotal | crates/engine/src/venue.rs:91-123 | And nothing else: a side holds levels times the quantity per level. |
| LadderLaws.QuotedMarketShows | crates/engine/src/venue.rs:91-123 | A quoted market shows that on both sides. |
| LadderLaws.OpensExactly | crates/engine/src/venue.rs:61-88 | A venue opens exactly on usable configurations of different symbols. |
| LadderLaws.OpensAsConfigured | crates/engine/src/venue.rs:61-88 | It lists each symbol as configured. |
| SimulatedVenues.SimulatedVenue.RefreshQuotes | crates/engine/src/venue.rs:91-123 | The loops over markets, levels and sides change the books exactly as requoting says. |
| SimulatedVenues.SimulatedVenue.Mid | crates/engine/src/venue.rs:133-136 | The mid of a symbol's book, if it is listed and quoted on both sides. |
| SimulatedVenues.SimulatedVenue.Reference | crates/engine/src/venue.rs:138-141 | The configured reference price of a listed symbol. |
| SimulatedVenues.SimulatedVenue.Execute | crates/engine/src/venue.rs:150-163 | Submits to one symbol's book, changes no other, and passes on its answer. |
| SimulatedVenues.Open | crates/engine/src/venue.rs:61-88 | Opening fails with the first invalid configuration, or returns a quoted venue. |
| DeskLaws.FillCostsItsSlippage | crates/engine/src/accounting.rs:47-103 | A fill lowers the marked value of a position by its quantity times how far its price is from the mark. |
| DeskLaws.FillsKeepLedger | crates/engine/src/executor.rs:227-252 | Taking a child's fills keeps the order's ledger, even when the accounting stops halfway. |
| DeskLaws.FillsCostSlippage | crates/engine/src/executor.rs:227-252 | Taking fills keeps marked value plus reported slippage constant. |
| DeskLaws.FillsAreReported | crates/engine/src/executor.rs:242-250 | Every report names its order, symbol and side, and a price no better than the mark. |
| DeskLaws.FillStaysWorse | crates/engine/src/accounting.rs:47-92 | A position built from fills no better than the mark never costs less than the mark: not after an addition, a truncated close or a flip. |
| TallyLaws.FillsBook | crates/engine/src/executor.rs:227-252 | A child's fills reach the order, the position and the report in step, even when the accounting stops halfway. |
| TallyLaws.LoopTallies | crates/engine/src/executor.rs:206-268 | Over the tick's loop orders, positions and reports move alike, in quantity and in cash. |
| TallyLaws.StepKeepsAgreement | crates/engine/src/executor.rs:133-292 | Every command keeps orders, positions and the stream of fills in agreement. |
| TurnLaws.SendIsReceived | crates/engine/src/executor.rs:219-260 | A child that is sent is answered with fills, never with an error. |
| TurnLaws.TurnKeepsLedger | crates/engine/src/executor.rs:210-268 | An order's turn keeps its ledger: filled exactly when complete, expired only with every slice released. |
| TurnLaws.TurnMovesPosition | crates/engine/src/executor.rs:210-268 | A turn moves its symbol's position by exactly what its order filled, and no other position. |
| TurnLaws.TurnCostsSlippage | crates/engine/src/executor.rs:210-268 | A turn lowers the marked value of its position by the slippage it reports. |
| ConductLaws.FillsTaken | crates/engine/src/executor.rs:227-252 | The fills taken are the first ones, all of them unless the accounting refuses one; order, child and reports move by exactly those. |
| ConductLaws.TurnSendsDue | crates/engine/src/executor.rs:210-268 | An order with something newly due sends exactly one child of all it owes, dated now; it fills what the book has within the order's limit, up to that, and the order ends filled, expired or working as it should. |
| ConductLaws.TurnWaits | crates/engine/src/executor.rs:210-268 | An order with nothing newly due sends nothing and fills nothing. |
| ExposureLaws.AddWorkingAdds | crates/engine/src/executor.rs:356-380 | The saturating sums over working orders are the exact sums, cut at the largest u64. |
| ExposureLaws.TurnNarrows | crates/engine/src/executor.rs:210-268 | A turn never widens what a position could become if all working orders filled. |
| ExposureLaws.StopNarrows | crates/engine/src/executor.rs:173-192 | Nor does a cancel. |
| MarkLaws.ExposureIsExact | crates/engine/src/executor.rs:356-380 | Under the position limit nothing saturates: the exposure is exact. |
| MarkLaws.GrossIsExact | crates/engine/src/executor.rs:393-405 | The gross exposure is the exact sum over symbols, cut at the largest i128. |
| MarkLaws.TotalPnlIsExact | crates/engine/src/executor.rs:344-354 | The total P&L is the exact sum of marked positions, never positive, cut at the smallest i128. |
| MarkLaws.NarrowerLowersGross | crates/engine/src/executor.rs:393-405 | Fills, cancels and expiries never raise the gross exposure. |
| TickLaws.LoopNarrows | crates/engine/src/executor.rs:206-268 | The tick's loop over working orders widens nothing. |
| TickLaws.LoopListsEnded | crates/engine/src/executor.rs:264-266 | The loop lists exactly the orders that ended, each once. |
| TickLaws.LoopWorksOrders | crates/engine/src/executor.rs:206-268 | Every working order gets its turn unless the accounting failed, and no other order changes. |
| TickLaws.LoopKeepsWorth | crates/engine/src/executor.rs:206-268 | P&L plus reported slippage is the same after the loop as before. |
| TickConduct.LoopActs | crates/engine/src/executor.rs:210-268 | Over the tick's loop each working order does just that, unless the accounting failed before its turn; new children have ids of their own. |
| TickConduct.LoopReportsInOrder | crates/engine/src/executor.rs:210-268 | Reports come child by child, and a child's reports are all of one order. |
| TickConduct.LoopReportsById | crates/engine/src/executor.rs:210-268 | A tick's reports come lowest order id first. |
| RetireLaws.PruneFiles | crates/engine/src/executor.rs:409-416 | Pruning keeps the finished queue within its limit, and the stored orders the disjoint union of working and finished. |
| RetireLaws.RetireAllFiles | crates/engine/src/executor.rs:270-273 | Retiring the listed orders files each of them and leaves the others as they are. |
| FilingLaws.PruneDropsOldest | crates/engine/src/executor.rs:409-416 | Pruning forgets exactly the oldest finished orders beyond the retained number, and touches no other. |
| FilingLaws.RetireAllIsFiled | crates/engine/src/executor.rs:270-273 | Orders that ended are filed in order as the newest; what they push out is forgotten. |
| FilingLaws.TickFiles | crates/engine/src/executor.rs:270-277 | Over a whole tick, halt included, the same of everything that ended in it. |
| FilingLaws.CancelStops | crates/engine/src/executor.rs:173-192 | A cancel of a working order answers Ok, takes it out of the working set, marks it cancelled and files it as the newest; it is forgotten only where nothing is retained, and nothing else changes but for the oldest ended order, if there is no room. |
| FilingLaws.CancelRefuses | crates/engine/src/executor.rs:173-183 | Any other id is refused, as unknown or with the phase it ended in, and nothing changes. |
| FilingLaws.HaltStopsAll | crates/engine/src/executor.rs:283-292 | A halt cancels exactly the working orders, files them by id, and changes nothing else. |
| SafetyLaws.TickRests | crates/engine/src/executor.rs:201-279 | After a tick every book is a full ladder, every order is filed, no child was refused, and the engine is halted or above its loss limit. |
| SafetyLaws.HaltKeepsOrders | crates/engine/src/executor.rs:283-292 | A halt cancels and files every working order and changes nothing else. |
| SafetyLaws.TickKeepsLimits | crates/engine/src/executor.rs:201-279 | A tick keeps the position and gross limits. |
| SafetyLaws.TickKeepsAccounts | crates/engine/src/executor.rs:201-279 | A tick keeps P&L equal to minus the slippage of all fills reported. |
| SafetyLaws.TickKeepsEnded | crates/engine/src/executor.rs:201-279 | A tick never changes an order that has ended. |
| SafetyLaws.TickIsPunctual | crates/engine/src/executor.rs:201-279 | After a tick each working order has released exactly the slices due by then. |
| CommandLaws.ScheduleIsGood | crates/engine/src/executor.rs:419-454 | Whatever the algorithm, an accepted schedule has positive quantities that sum to the order, at strictly increasing times inside its window. |
| ScheduleLaws.TwapFollows | crates/algo-core/src/twap.rs:43-63 | What an even split has due before each slice is total times the slice number over the slices, to the nearest unit; children stand at the starts of slices. |
| ScheduleLaws.VwapFollows | crates/algo-core/src/vwap.rs:47-83 | The same of a profile: due before each slice is the profile's share so far, to the nearest unit. |
| ScheduleLaws.IsFollows | crates/algo-core/src/is.rs:102-145 | The same of a shortfall order and the optimal trajectory. |
| ScheduleLaws.ScheduleFollows | crates/engine/src/executor.rs:420-450 | An order gets the schedule of the algorithm it asked for. |
| CommandLaws.PassedHasRoom | crates/engine/src/risk.rs:104-125 | An order that passes leaves room under the position and gross limits even if everything working fills. |
| AdmitLaws.AdmitsExactly | crates/engine/src/executor.rs:133-160 | Before the schedule, an order passes exactly if it is real, its symbol listed, its window not over, nothing halted, and every limit kept in exact arithmetic; a refusal gives the first reason that holds, with the exact figure. |
| AdmitLaws.SchedulesExactly | crates/engine/src/executor.rs:420-450 | An order gets a schedule exactly if its window has room for its slices and its algorithm's parameters make sense. |
| AdmitLaws.SubmitsExactly | crates/engine/src/executor.rs:133-170 | A submit accepts exactly those orders: stored under the next id with what was asked for, working, nothing done yet. It refuses all others without effect. |
| CommandLaws.SubmitKeeps | crates/engine/src/executor.rs:133-170 | A submit is rejected without effect, or adds one working order and keeps the limits and the filing. |
| CommandLaws.CancelKeeps | crates/engine/src/executor.rs:173-192 | A cancel keeps the limits and the filing, touches no other working order and no position. |
| CommandLaws.HaltKeeps | crates/engine/src/executor.rs:283-292 | A halt keeps the limits and leaves nothing working. |
| RunLaws.StartsSolvent | crates/engine/src/executor.rs:330-342 | An engine without positions is above its loss limit exactly when that limit is positive. |
| RunLaws.StepKeepsSafe | crates/engine/src/executor.rs:133-292 | One command, of any kind, keeps everything the engine promises. |
| RunLaws.RunIsSafe | crates/engine/src/executor.rs:133-292 | So does every run from a new engine. |
| HistoryLaws.StepFollows | crates/engine/src/executor.rs:133-292 | One command reuses no id, changes no order that had ended, takes back no reply or fill, and trades nothing after a halt. |
| HistoryLaws.GoesOn | crates/engine/src/executor.rs:133-292 | So does any number of commands. |
| OrderLaws.RecordActed | crates/engine/src/state.rs:102-120 | An order's turn adds to its record what it reports: in quantity, in money and child by child. |
| OrderLaws.TickOnRecord | crates/engine/src/executor.rs:201-279 | A tick keeps every stored order as asked for and on record, and reports no fill beyond an order's quantity or limit. |
| OrderLaws.StepKeepsRecord | crates/engine/src/executor.rs:133-292 | So does every command. |
| OrderLaws.StaysUntraded | crates/engine/src/executor.rs:201-279 | However a run goes on, nothing more is reported for an order that no longer works. |
| EnginePromises.PnlIsMinusCost | crates/engine/src/executor.rs:330-354 | After every run, marked P&L is minus the sum over all reported fills of quantity times distance from the reference price; and the engine is halted or its P&L is above minus the loss limit. |
| EnginePromises.PnlNeverRises | crates/engine/src/executor.rs:330-354 | Whatever commands follow, the P&L never rises. |
| EnginePromises.EndedOrdersAreFinal | crates/engine/src/executor.rs:133-292 | Over any two runs, one going on from the other: an id given out by the first that is not of a working order is absent from the second, or names exactly the order it named. Terminal states never change, and no pruned id comes back. |
| EnginePromises.IdsAreGivenOut | crates/engine/src/executor.rs:163-166 | Every stored order's id is below the next id, which never falls. |
| EnginePromises.HaltIsForGood | crates/engine/src/executor.rs:281-296 | After a halt, whatever follows, the engine stays halted, works nothing, reports nothing and moves no position. |
| EnginePromises.RecordsStand | crates/engine/src/executor.rs:201-279 | No reply and no reported fill is taken back. |
| EnginePromises.ReportsAgree | crates/engine/src/executor.rs:228-251 | After every run, each stored order has filled the sum of what was reported for it; each position holds the net quantity reported in its symbol; and its realized P&L less cost basis is the net cash reported there. |
| EnginePromises.PositionsStayInLimit | crates/engine/src/risk.rs:104-114 | After every run, in each symbol, position plus working buys and position minus working sells are within the limit; so no fill can overflow the quantity. |
| EnginePromises.GrossStaysInLimit | crates/engine/src/executor.rs:393-405 | After every run the gross exposure is exact and within its limit. |
| EnginePromises.LedgersAreRight | crates/engine/src/state.rs:84-148 | After every run, child fills sum to filled, at most released, at most quantity; released is what was due by the latest tick while working; filled exactly when complete; expired only with all released. |
| EnginePromises.StoredOrdersAreFiled | crates/engine/src/executor.rs:407-416 | After every run, stored orders are the disjoint union of the working ones and the bounded finished queue, and a halted engine has none working. |
| EnginePromises.BooksAreFullLadders | crates/engine/src/executor.rs:225-277 | After every run every book is its full ladder with its mid at the reference, and no child was ever refused. |
| OrderPromises.SubmitAnswers | crates/engine/src/executor.rs:133-170 | In any run, a submit accepts exactly the admissible and schedulable orders, works them under the next id, and refuses any other for the first reason that holds, without effect. |
| OrderPromises.CancelAnswers | crates/engine/src/executor.rs:173-192 | In any run, a cancel of a working order stops and files it and answers Ok; any other cancel says why not and changes nothing. |
| OrderPromises.HaltAnswers | crates/engine/src/executor.rs:283-292 | In any run, a halt cancels and files exactly the working orders. |
| OrderPromises.TickAnswers | crates/engine/src/executor.rs:201-279 | In any run, a tick has each working order send all it owes by now as one child if a slice has come due, and nothing otherwise, unless the accounting of an order before it failed; each takes the fills reported for it, which come lowest id first; no other order changes. |
| OrderPromises.TickEnds | crates/engine/src/executor.rs:270-277 | What ends in a tick is filed behind what had ended; the oldest are forgotten, and no more than must be. |
| OrderPromises.OrdersAreKept | crates/engine/src/executor.rs:133-170 | After any run, each stored order is the one asked for under its id, scheduled by the algorithm asked for; its fills, its notional and each of its children are the sums of what was reported. |
| OrderPromises.FillsAreAsked | crates/engine/src/executor.rs:224-252 | After any run, each reported fill has its order's symbol and side, keeps to its limit price and is not before its start; no order is filled beyond its quantity. |
| OrderPromises.EndedOrdersNeverTrade | crates/engine/src/executor.rs:173-192 | Once an order no longer works, nothing more is ever reported for it. |
| OrderPromises.MarketsShowLadders | crates/engine/src/venue.rs:91-123 | After any run, each configured market shows its quantity at each of its levels, and no more. |
| OverflowLaws.FillFitsExactly | crates/engine/src/accounting.rs:74-90 | Of a position as the engine keeps it, a fair fill overflows exactly when the checked sum of realized P&L does; no other checked step can fail. |
| OverflowLaws.FairFillsOverflow | crates/engine/src/accounting.rs:207-216 | Five fair fills around one reference price are taken and leave a sound position, and a sixth is refused. |
| OverflowLaws.AccountingNeverFails | crates/engine/src/executor.rs:232-240 | After every run, the next tick's accounting does not overflow if the loss and gross limits add up to at most 2^127 + 1. |
| OverflowLaws.PnlIsExactlyMinusCost | crates/engine/src/executor.rs:344-354 | With such limits the P&L is minus the cost of the reported fills, and nothing saturates. |
| Configuration.AcceptedLimits | crates/engine/src/executor.rs:37-71 | Limits from accepted settings always leave that room, and are what the run theorems ask for exactly when the loss limit is at least 0.000005. |
| Configuration.TinyLossLimit | crates/config/src/lib.rs:145-150 | A smaller accepted loss limit rounds to no ticks and is reached before anything trades. |
| Configuration.ConfiguredEngineIsExact | crates/engine/src/executor.rs:37-71 | An engine with accepted limits never overflows its accounting, and its P&L is exact, after every run. |
| HaltLaws.TickHaltsExactly | crates/engine/src/executor.rs:274-277 | A tick halts a running engine exactly if the accounting failed or the P&L it leaves is at or below minus the loss limit, for that reason and with that P&L. |
| HaltLaws.HaltedForAReason | crates/engine/src/executor.rs:283-342 | After any run: not halted means the fills have cost less than the loss limit; halted means that a halt was asked for, that a tick's accounting failed, or that they have cost the limit, and the reason says which. |
| HaltLaws.HaltsExactlyAtTheLossLimit | crates/engine/src/risk.rs:127-130 | With limits that leave the accounting room, a run nobody halts is halted exactly when its fills have cost the loss limit. |
| Engines.EngineCore.constructor | crates/engine/src/executor.rs:117-130 | A new engine has no orders, no positions, ids from 1, and is not halted. |
| Engines.EngineCore.Exposure | crates/engine/src/executor.rs:356-380 | The loop over working orders computes the saturating exposure of one symbol. |
| Engines.EngineCore.GrossExposure | crates/engine/src/executor.rs:393-405 | The fold over symbols computes the saturating gross exposure. |
| Engines.EngineCore.TotalProfit | crates/engine/src/executor.rs:344-354 | The fold over positions computes the saturating total P&L. |
| Engines.EngineCore.SubmitOrder | crates/engine/src/executor.rs:133-170 | The new state and the answer are those of the state machine, checks in the same order (what those are: `AdmitLaws.SubmitsExactly`). |
| Engines.EngineCore.CancelOrder | crates/engine/src/executor.rs:173-192 | The same for a cancel (`FilingLaws.CancelStops`, `FilingLaws.CancelRefuses`). |
| Engines.EngineCore.Retire | crates/engine/src/executor.rs:409-416 | The same for filing a finished order and pruning the oldest (`FilingLaws.PruneDropsOldest`). |
| Engines.EngineCore.TakeAll | crates/engine/src/executor.rs:227-251 | The loop over a child's fills updates position, order and reports together, and stops at the first overflow. |
| Engines.EngineCore.WorkOrder | crates/engine/src/executor.rs:210-268 | One order's turn, in place, is the turn of the state machine. |
| Engines.EngineCore.Tick | crates/engine/src/executor.rs:201-279 | A whole tick, in place, is the tick of the state machine, with the fills in order. |
| Engines.EngineCore.Halt | crates/engine/src/executor.rs:283-292 | The same for a halt (`FilingLaws.HaltStopsAll`). |
| Engines.EngineCore.CheckLossLimit | crates/engine/src/executor.rs:330-342 | The same for the loss check (`HaltLaws.TickHaltsExactly`). |
| Engines.EngineCore.Obey | crates/engine/src/executor.rs:133-292 | Any one command takes the class where it takes the state machine, with the same reply. |
| Engines.Open | crates/engine/src/executor.rs:117-130 | Opening an engine fails as its venue does, or returns the initial state. |
| Engines.Replay | crates/engine/src/executor.rs:103-292 | Any sequence of commands takes the class where it takes the state machine, with the same replies and fills, so every theorem about runs holds of it. |
| Schedule.ValidateWindow | crates/algo-core/src/schedule.rs:45-75 | Accepts exactly the windows with a quantity, one to a million slices, and at least one nanosecond for each; an error says what is wrong. |
| Schedule.SlicesPartition | crates/algo-core/src/schedule.rs:79-83 | Slice boundaries start and end with the window and every slice is at least 1 long. |
| Schedule.BoundaryIsShare | crates/algo-core/src/schedule.rs:79-83 | Each boundary is its share of the window from the start on, rounded down. |
| Schedule.GoodScheduleMeans | crates/algo-core/src/schedule.rs:11-17 | What a good schedule is, child by child: positive, strictly increasing times in the window, summing to the order. |
| Schedule.SlicedScheduleIsGood | crates/algo-core/src/twap.rs:43-63 | Slice quantities released at slice starts form a good schedule of their sum. |
| Twap.TargetIsNearest | crates/algo-core/src/twap.rs:102-115 | The split form of a slice target is total times k over n, rounded to the nearest. |
| Twap.PrefixWithinHalf | crates/algo-core/src/twap.rs:102-115 | Every prefix is the even split to the nearest unit, and the last completes the order. |
| Twap.QuantitiesDifferByOne | crates/algo-core/src/twap.rs:102-115 | Each slice is the floor or the ceiling of total over n. |
| Twap.PrefixSums | crates/algo-core/src/twap.rs:102-115 | Slice quantities add up to the target of each prefix. |
| Twap.RunQuantities | crates/algo-core/src/twap.rs:102-115 | The running computation gives those quantities, with every intermediate in range. |
| Twap.TwapIsGood | crates/algo-core/src/twap.rs:43-63 | An accepted TWAP is a good schedule of the whole order. |
| SplitMix.XorTwice | crates/algo-core/src/twap.rs:126-132 | Exclusive or, bit by bit, undoes itself. |
| SplitMix.XorBits | crates/algo-core/src/twap.rs:126-132 | Bit by bit it is what an exclusive or is. |
| SplitMix.ShiftMovesBits | crates/algo-core/src/twap.rs:126-132 | A shift moves every bit down. |
| SplitMix.Reduce | crates/algo-core/src/twap.rs:135-137 | Multiply-shift reduction stays below its bound. |
| SplitMix.ReduceScales | crates/algo-core/src/twap.rs:135-137 | It is the draw scaled to the bound, rounded down. |
| SplitMix.SplitMix64.NextU64 | crates/algo-core/src/twap.rs:126-132 | Each call advances the state by the constant, wrapping around, and returns the seed's next draw. |
| SplitMix.SplitMix64.Below | crates/algo-core/src/twap.rs:135-137 | Each call takes exactly one draw and reduces it below the bound. |
| Twap.ComputeRandomized | crates/algo-core/src/twap.rs:71-95 | The loop draws once for each slice, traded or not, from the seed's draws. |
| Twap.ReleasedInsideSlice | crates/algo-core/src/twap.rs:66-95 | Each slice is released inside its own bounds. |
| Twap.ReleasedByDraw | crates/algo-core/src/twap.rs:66-95 | Where in it, the slice's own draw decides, scaled to the slice's length. |
| Twap.RandomizedIsGood | crates/algo-core/src/twap.rs:71-95 | The randomized schedule is good and has the plain one's quantities. |
| Twap.ReleaseTimesIgnoreTotal | crates/algo-core/src/twap.rs:66-95 | Orders of different sizes release the slices both trade at the same times. |
| Cumulative.RunQuantities | crates/algo-core/src/schedule.rs:103-120 | The loop, with its clamps, computes the rounded curve's differences. |
| Cumulative.CompletesTheOrder | crates/algo-core/src/schedule.rs:103-120 | Whatever the curve, dips included, the quantities add up to the total. |
| Cumulative.FollowsTheCurve | crates/algo-core/src/schedule.rs:85-120 | On a rising curve each prefix is within half a unit of it, and a flat stretch trades nothing. |
| Vwap.SliceContainingIsInverse | crates/algo-core/src/vwap.rs:168-178 | The slice of an offset is the one slice whose boundaries contain it. |
| Vwap.BucketVolume | crates/algo-core/src/vwap.rs:146-157 | The bucketing loop gives each slice exactly the volume of the bars in its interval. |
| Vwap.TotalVolume | crates/algo-core/src/vwap.rs:159-162 | The pooled total is the volume of all slices. |
| Vwap.ProfileFromBars | crates/algo-core/src/vwap.rs:112-166 | Accepted exactly when the window fits a day and saw volume; then each entry is the slice's share and they sum to 1. |
| Vwap.LargestWeight | crates/algo-core/src/vwap.rs:181-196 | Returns the largest weight, or the first negative entry, or that nothing is positive. |
| Vwap.RunningCurve | crates/algo-core/src/vwap.rs:55-74 | Scaling by the largest weight cancels: the curve is the cumulative share, cut after the last slice with volume. |
| Vwap.VwapFollowsProfile | crates/algo-core/src/vwap.rs:47-83 | Each prefix is within half a unit of the profile's share, and a slice without volume trades nothing. |
| Vwap.LastSliceCompletes | crates/algo-core/src/vwap.rs:59-66 | The order completes on the last slice with volume. |
| Vwap.VwapIsGood | crates/algo-core/src/vwap.rs:47-83 | An accepted VWAP is a good schedule of the whole order. |
| Vwap.ComputeVwap | crates/algo-core/src/vwap.rs:47-83 | Succeeds exactly on a valid window and a profile that is nowhere negative and somewhere positive, and computes that schedule. |
| Pov.ComputeSchedule | crates/algo-core/src/pov.rs:69-130 | Succeeds exactly on valid parameters and data in time order, and returns the running schedule and its shortfall. |
| Pov.Participate | crates/algo-core/src/pov.rs:95-123 | The loop, its early exit and its in-place update of the last child compute the running schedule. |
| Pov.FindUnsorted | crates/algo-core/src/pov.rs:88-93 | Finds the first observation earlier than the one before it, or shows that there is none. |
| Pov.ScheduledIsAllowed | crates/algo-core/src/pov.rs:95-123 | After every observation, scheduled is the smaller of the total and the participation floor of the volume seen. |
| Pov.NothingHeldBack | crates/algo-core/src/pov.rs:95-123 | One unit more would exceed the order or the rate. |
| Pov.PovIsGood | crates/algo-core/src/pov.rs:95-123 | Children are positive with strictly increasing times in the window, none later than the data. |
| Pov.LaterDataChangesNothing | crates/algo-core/src/pov.rs:95-123 | Data from a time on never changes what was released before it. |
| Pov.SplittingChangesNothing | crates/algo-core/src/pov.rs:95-123 | Reporting one time's volume in two parts leaves the schedule unchanged, anywhere in the data. |
| AlmgrenChriss.KappaSolvesTheModel | crates/algo-core/src/is.rs:222-249 | The urgency formula gives the decay factor that solves z + 1/z = 2 + 2y, and it is 1 exactly when there is no risk term. |
| AlmgrenChriss.FactoredRoot | crates/algo-core/src/is.rs:222-249 | The form used for large urgency has the same root. |
| AlmgrenChriss.FractionFalls | crates/algo-core/src/is.rs:279-288 | The remaining fraction starts at 1, ends at 0 and never rises, linear case included. |
| AlmgrenChriss.FractionRecurrence | crates/algo-core/src/is.rs:279-288 | Interior fractions satisfy the discrete optimality recurrence. |
| AlmgrenChriss.ObjectiveIsWeighed | crates/algo-core/src/is.rs:251-265 | Expected cost plus weighted risk is, up to scale and a constant of the order, the sum of squared trades and weighted squared holdings. |
| AlmgrenChriss.BalancedIsOptimal | crates/algo-core/src/is.rs:20-40 | A trajectory that satisfies the recurrence weighs least among all with its endpoints, and is the only one that does. |
| AlmgrenChriss.HoldingsAreOptimal | crates/algo-core/src/is.rs:102-145 | The computed holdings fall from the order size to zero, satisfy the recurrence, and no other trajectory has expected cost plus lambda times variance as low. |
| ImplementationShortfall.ComputeHoldings | crates/algo-core/src/is.rs:111-116 | The loop pushes exactly the closed-form holdings. |
| ImplementationShortfall.ChildrenFollowOptimum | crates/algo-core/src/is.rs:118-126 | Each prefix of the children is within half a unit of the optimal trajectory, in the even split without urgency too. |
| ImplementationShortfall.IsIsGood | crates/algo-core/src/is.rs:102-145 | An accepted schedule is good: positive children in the window that sum to the order. |
| ImplementationShortfall.ComputeSchedule | crates/algo-core/src/is.rs:102-145 | The loops return that schedule and the optimal holdings, or the same error. |
| ShortfallModel.ModelIsSensible | crates/algo-core/src/is.rs:188-219 | Exactly the parameters with a valid window, no negative input and a positive adjusted impact are accepted; slice length and adjusted impact are the window's and the impacts' in seconds. |
| ShortfallModel.NewModel | crates/algo-core/src/is.rs:188-219 | An accepted model is valid; a refusal names the window's error first. |
| ShortfallModel.GrowthSolves | crates/algo-core/src/is.rs:222-248 | Both branches of the urgency formula give a decay factor that solves the model. |
| ShortfallModel.Cost | crates/algo-core/src/is.rs:251-264 | The sums over the holdings give the model's expected cost and variance. |
| ShortfallModel.KappaDecays | crates/algo-core/src/is.rs:222-248 | kappa is the logarithm's; e^(-kappa tau) is the decay factor, and kappa is 0 exactly when that is 1. |
| ShortfallModel.RemainingAt | crates/algo-core/src/is.rs:278-288 | The overflow-free formula in exponentials gives, at each boundary, the power form of the decay factor. |
| ShortfallModel.Trajectory | crates/algo-core/src/is.rs:111-116 | The loop over boundaries computes the closed-form holdings. |
| ShortfallModel.Compute | crates/algo-core/src/is.rs:102-145 | Fails exactly when the model refuses its parameters; otherwise returns kappa, the optimal holdings, their cost, and the children rounded from them. |
| ShortfallModel.NoTrajectoryIsCheaper | crates/algo-core/src/is.rs:153-177 | No trajectory that the cost function accepts has expected cost plus lambda times variance as low as the computed one. |
| Session.PerformWritesOwn | crates/trader-gui/src/main.rs:1475-1515 | A worker's write puts content of its own session only, and only in stores it has locked; marking a row unknown leaves whose it is. |
| Session.WriteKeeps | crates/trader-gui/src/main.rs:580-585 | A write made after the check under the lock never lands where a newer session has cleared. |
| Session.PerformLands | crates/trader-gui/src/main.rs:1475-1515 | What a job was to write is there, and nothing else has changed. |
| Session.StepWrites | crates/trader-gui/src/main.rs:533-585 | A worker that saw its session current writes all it was to write, one whose session is over gives up; only such a write puts anything into a store, and only the UI thread clears one. |
| Session.StepKeeps | crates/trader-gui/src/main.rs:537-548 | Every step, of the UI thread or of any worker, keeps the invariant. |
| Session.SessionIsolation | crates/trader-gui/src/main.rs:533-548 | In every interleaving, once a session has cleared a store, nothing of an earlier session is ever in it again. |
| Session.OnlyThisSession | crates/trader-gui/src/main.rs:537-548 | When a session has finished clearing, every store holds only what it reported itself. |
| Session.NoDeadlock | crates/trader-gui/src/main.rs:1487-1501 | Whenever someone has work left, some step of the UI thread or of a lock holder is possible. |

## Left out

- The gRPC service, its tasks and channels, the event loop and shutdown order: plumbing over libraries that are not part of this model.
- Rendering, forms, polling and reconnecting in the client; Python bindings, backtests, charts and benchmarks.
- Configuration parsing, and validation of anything but the risk limits.
- Order status and position views, average prices and shortfall in basis points: floating-point reporting.
- f64 rounding. `AlmgrenChriss`, `Vwap` and `Cumulative` compute over the reals, so NaN, infinities and the last-bit behaviour of totals above 2^53 are not modelled.
- ShortfallModel.Compute: takes the square root, exponential and logarithm as arguments, because the reals here have none; all that is assumed of them is in `ShortfallModel.Library.Sound`.
- The engine's own shortfall orders carry the decay factor, or none where the model refuses the parameters; `ShortfallModel.Compute` shows that this is what the parameters come to.
- The quality of the generator's output: `Twap` holds for any stream of 64-bit draws.
- Symbols are numbers in the order of their text, with 0 for the empty name; error, halt and rejection reasons are data, not text.
- Ids are unbounded. Child ids are assumed to stay below 2^63, where quote ids begin; parent and quote ids never wrap.
- Sums of volume over all bars are unbounded where the source uses u128, and lengths are unbounded.
- Quotes and child orders pass a clamp to their machine range that never acts on a sound configuration and ledger (`VenueLaws.QuoteIsSound`, `TurnLaws.SendOpens`).
- OrderBooks.OrderBook.CheckInvariants: says whether a check fails, not which one fails first.
- Engines.EngineCore.WorkOrder: an order and a position are copied into a cell, changed in place and put back, which stands for the exclusive borrow of a map entry; aliasing between entries does not arise in the source.
- OverflowLaws.AccountingNeverFails: is one-directional in the limits; fill by fill the exact condition is `OverflowLaws.FillFitsExactly`. Which limits above the bound let some run overflow depends on the listed markets and is not determined.
- Session.SessionIsolation: covers tracked ids, orders, positions, fills and the halt reason. The client handle is left out, because connecting checks the generation under another lock than it writes under; the stream status text is left out too.
