# Verified model of the low-latency trading lab

A Dafny model of a deterministic trading engine and of the protocols around it, with proofs that hold for
every input, every run and every interleaving.

The engine keeps, per instrument, an order book held as a slab of linked nodes with an index and price levels,
and matches in price-time order. Every request passes pre-trade risk checks that count working orders, is
deduplicated by a bounded request cache, and leaves a numbered stream of events. A market-data view per
instrument synchronizes on snapshots and sequence numbers and keeps a bounded ladder. Around the engine stand a
three-thread pipeline with bounded queues and a kill latch, a checksummed journal with recovery and a tailing
reader, binary codecs, a read model folded from the event stream, and a settlement outbox with a dispatcher that
survives crashes and lost answers.

## How the project is built

Each component has a specification on plain values and, where the source changes things in place, a class or a
loop proved to compute it.

| files | what they hold |
|---|---|
| `Domain`, `PriceTime`, `OrderBook`, `Matching`, `ReferenceBook`, `Lockstep` | a book side as one list in price-time order; the slab book and the deque book, both proved to represent it; both driven by the same commands |
| `Market`, `Ladder`, `Feed`, `Tightness`, `Reference`, `MarketView` | the feed machine, its bounded ladder against the unbounded book, and the reference price |
| `Ledger`, `Core`, `Cache`, `Engine`, `Replay` | the engine as a step function, and the class with the source's fields proved to compute it |
| `Accounts`, `Safety`, `History`, `Outputs`, `Attacks`, `Makers`, `Halts`, `Collar`, `Capacity`, `Rejections`, `Retries`, `Runs` | what one step keeps, and theorems over whole runs |
| `Margin`, `Admission`, `Verdicts`, `Requests`, `Cancels`, `Outcomes`, `Controls`, `Stamps` | what decides a request, as conditions on the state before it, and what each kind of input does to books, accounts and events |
| `Settlement`, `Dispatcher` | the settlement protocol as a transition system, and the classes whose ticks are its runs |
| `Projection`, `OrdersTable` | the read model under redelivery, and the exact condition under which its orders table is the book |
| `Wire`, `Canonical`, `InputCodec`, `FrameCodec`, `Journal` | byte formats, decoders, recovery and tailing |
| `Pipeline`, `Ingress`, `EndToEnd` | interleavings of feed, engine, output and operator, and what survives in the journal |
| `Scenario`, `Counterexamples`, `Overtaking` | one small market, and the concrete runs in it where a promise fails |

`Fault` has the source's two values and a third, `Panic`, for every `expect` or index that would abort; run
theorems show that neither `Accounting` nor `Panic` is reachable. Sequence exhaustion, the remaining fault, stops
the engine and is a hypothesis where it matters (`fault.None?`).

## Where the code does not do what it says

- The ladder is documented to keep best bid and ask correct (README.md:100-102). It does so exactly while fewer
  retained levels were deleted since the last snapshot than the ladder is deep: `Feed.LadderShowsBest` and
  `Tightness.ExactExactlyBelowDepth`, with `Tightness.BestCanBeLost` building the failing feed for every larger
  count.
- A comment promises that a kill is never overtaken by a queued order
  (crates/engine-runtime/src/pipeline.rs:332-333). The latch is read once per input and the command queue is drained
  after that, so in every interleaving the input is applied under the value read for it if and only if the last kill
  command drained for it, if any, says the same (`Pipelines.AppliedUnderLatch`). An engaged latch therefore stops
  every order but those for which a queued release was drained last (`Pipelines.KillIsNotOvertaken`), and
  `Overtaking.KillCanBeOvertaken` is a schedule from the start in which such an order trades.
- The price collar is compared with the limit of an order, not with the prices it trades at. No request trades at a
  price worse for it than the collar allows (`Collar.NeverWorseThanCollar`). On both sides the collar holds if and only
  if the request does not execute against a best opposite price beyond it (`Collar.BothSidesExactly`);
  `Counterexamples.BetterThanCollar` trades at 100 with a reference of 1000 and a collar of 10.
- The projected orders table follows the book after a request if and only if no remainder that was reported as
  resting was refused by the book, a condition on the own side of the book before the call
  (`OrdersTable.RequestFollows`, failing in `Counterexamples.RefusedRemainder`), and after a retry if and only if the
  remembered report still describes the live orders (`OrdersTable.RetryFollows`, failing in
  `Counterexamples.RetryBreaksTable`). Over whole runs these are exactly the ways to lose it
  (`OrdersTable.OrdersTableIsBook`).

## Model

| member | source | states |
|---|---|---|
| `PriceTime.MatchConsumesPrefix` | crates/trading-core/src/matching.rs:34-70 | the k-th fill is with the k-th order of the list, for all that order had left except perhaps the last; untouched orders keep their place |
| `PriceTime.MatchFillsAllReachable` | crates/trading-core/src/matching.rs:34-70 | exactly the smaller of the quantity and the liquidity at acceptable prices is filled |
| `PriceTime.MatchRespectsLimit` | crates/trading-core/src/matching.rs:34-70 | no fill is at a price the taker did not accept, and a remainder means nothing acceptable is left |
| `PriceTime.MatchKeepsQueue` | crates/trading-core/src/matching.rs:34-70 | what remains is still ordered by price and priority, with unique ids and something left in every order |
| `PriceTime.MatchIsPriceTime` | crates/trading-core/src/matching.rs:34-70 | of two fills the earlier one is with the better price or, at one price, with the earlier priority, and took all its maker had left |
| `PriceTime.RestingRemainderKeepsUncrossed` | crates/trading-core/src/core.rs:329-360 | resting what matching left over never crosses the book |
| `PriceTime.EnqueueKeepsQueue` | crates/trading-core/src/book.rs:104-157 | an order with a fresh id and a later priority goes behind its price and keeps the list ordered |
| `PriceTime.LookupInsert` | crates/trading-core/src/book.rs:104-157 | after an insert every id is found as before and the new one as inserted |
| `PriceTime.LookupDrop` | crates/trading-core/src/book.rs:159-190 | after a removal every other id is found as before and the removed one is not |
| `PriceTime.LookupResize` | crates/trading-core/src/book.rs:193-213 | after a reduction only the reduced order reads differently |
| `PriceTime.LookupFill` | crates/trading-core/src/book.rs:216-243 | after a fill of the first order only that order reads differently, or is gone |
| `IndexedBook.InsertRepresents` | crates/trading-core/src/book.rs:104-157 | hooking a node behind its level tail keeps links, index, level counts and totals a faithful picture of the list with the order enqueued |
| `IndexedBook.DropRepresents` | crates/trading-core/src/book.rs:166-190 | unhooking a node keeps links, index, level counts and totals a faithful picture of the list without that order |
| `IndexedBook.ResizeRepresents` | crates/trading-core/src/book.rs:193-213 | changing an order in place with its level total keeps the picture faithful |
| `IndexedBook.OrderBook.Get` | crates/trading-core/src/book.rs:87-89 | the index finds exactly what the list lookup finds |
| `IndexedBook.OrderBook.IsFull` | crates/trading-core/src/book.rs:83-85 | full exactly when the book holds the capacity |
| `IndexedBook.OrderBook.Insert` | crates/trading-core/src/book.rs:104-157 | succeeds exactly when there is room in the slab and in the level aggregates, and then the list is the old one with the order behind its price; otherwise nothing changes |
| `IndexedBook.OrderBook.Remove` | crates/trading-core/src/book.rs:159-164 | returns the order as it was and drops it from the list, or changes nothing |
| `IndexedBook.OrderBook.Unlink` | crates/trading-core/src/book.rs:166-190 | takes the node out of slab, index, links and level, whatever its place in the level |
| `IndexedBook.OrderBook.ReduceTotal` | crates/trading-core/src/book.rs:193-213 | lowers the total of one order, which keeps its place |
| `IndexedBook.OrderBook.FillMaker` | crates/trading-core/src/book.rs:216-243 | applies a fill to the first order of a side and removes it when filled |
| `IndexedBook.OrderBook.NextEligiblePrice` | crates/trading-core/src/book.rs:258-279 | the price of the first order of the side if the taker accepts it |
| `IndexedBook.OrderBook.LevelCells` | crates/trading-core/src/book.rs:329-342 | walking the links from a level head gives the orders of that price in priority order |
| `IndexedBook.OrderBook.Snapshot` | crates/trading-core/src/book.rs:345-353 | bids then asks as rows from the best price, each with its orders in priority order |
| `Matching.MatchOrder` | crates/trading-core/src/matching.rs:34-70 | the nested loop over levels and heads computes the fills, the filled quantity and the book of the list specification |
| `SimpleBook.ReferenceBook.Insert` | crates/trading-core/src/reference.rs:56-61 | pushing onto a level deque enqueues behind the price |
| `SimpleBook.ReferenceBook.Remove` | crates/trading-core/src/reference.rs:63-82 | finds the order on either side and drops it from the list |
| `SimpleBook.ReferenceBook.ReduceTotal` | crates/trading-core/src/reference.rs:84-93 | lowers one total in place |
| `SimpleBook.ReferenceBook.MatchOrder` | crates/trading-core/src/reference.rs:106-157 | the deque loop computes the same fills and book as the list specification |
| `SimpleBook.ReferenceBook.Snapshot` | crates/trading-core/src/reference.rs:159-168 | the same rows as the list specification |
| `SimpleBook.CanonicalOrders` | crates/trading-core/src/reference.rs:171-178 | the orders of a level as comparable cells, in queue order |
| `Lockstep.Step` | crates/trading-core/tests/model.rs:60-147 | one command against both books: results and rows agree and are those of the list specification |
| `Lockstep.Compare` | crates/trading-core/tests/model.rs:60-147 | for every command sequence the two books agree throughout and end with the rows and fills of the list specification |
| `BoundedLadder.SetTracks` | crates/trading-core/src/market.rs:340-379 | setting a level keeps the ladder a submap of the unbounded book that holds its best levels, up to the losses so far |
| `BoundedLadder.DeleteTracks` | crates/trading-core/src/market.rs:277-293 | deleting a retained level costs exactly one of the best levels still guaranteed |
| `Feed.LadderShowsBest` | crates/trading-core/src/market.rs:241-293 | for every feed the ladder is a bounded submap of the unbounded book, contains its best depth-minus-losses levels, and its best price is exact while losses are below the depth |
| `Tightness.BestCanBeLost` | crates/trading-core/src/market.rs:340-379 | for every number of lost levels from the depth on, a feed after which the ladder shows the wrong best price |
| `Tightness.ExactExactlyBelowDepth` | README.md:100-102 | the best price is right after every feed with that many lost levels if and only if they are fewer than the depth |
| `Feed.LiveIsContinuous` | crates/trading-core/src/market.rs:320-338 | whenever the feed is live the source sequences accepted since its snapshot began are consecutive |
| `Feed.LiveIsComplete` | crates/trading-core/src/market.rs:255-276 | the feed becomes live only at a snapshot end whose number matches and whose count is what arrived, and the visible levels are then the best delivered ones up to the depth, with the delivered quantities and no others |
| `Feed.VisibleBookChangesOnly` | crates/trading-core/src/market.rs:241-318 | the visible book changes only by completing a snapshot, by a level message while live, or by a reset to a newer epoch, and then exactly so |
| `Feed.LevelsStayInDomain` | crates/trading-core/src/market.rs:206-217 | every visible and pending level and the last trade lie in the instrument price domain after every feed |
| `Feed.ReferenceInDomain` | crates/trading-core/src/market.rs:116-121 | the reference price lies in the instrument price domain after every feed |
| `Reference.ReferenceMarks` | crates/protocol/src/ids.rs:65-68 | the reference price lies halfway between the greatest visible bid and the least visible ask, one nearer to the bid if the distance is odd, exists exactly when their sum fits 64 bits, and is the last trade when the sides are not both quoted or meet |
| `Reference.OneMark` | crates/trading-core/src/market.rs:116-121 | no other price meets these conditions |
| `Reference.RecencyFollowsFeed` | crates/trading-core/src/market.rs:165-318 | after every feed a further message moves the time of the last update exactly when it counts, and the last trade exactly when it is a trade on a live feed or a reset |
| `Reference.FeedStateFollows` | crates/trading-core/src/market.rs:165-318 | after every feed a message that counts moves the feed state as its kind says, a stale one leaves it, any other opens a gap, and a snapshot goes live exactly when it completes the one that began |
| `MarketFeed.Trimmed` | crates/trading-core/src/market.rs:368-379 | the loop removes worst levels until the depth is kept |
| `MarketFeed.BoundedSet` | crates/trading-core/src/market.rs:340-356 | sets, replaces or refuses a level as the specification does |
| `MarketFeed.MarketView.Apply` | crates/trading-core/src/market.rs:165-318 | one message moves the view exactly as the feed machine specifies, duplicates, gaps and out-of-domain prices included |
| `MarketFeed.MarketView.ReferencePrice` | crates/trading-core/src/market.rs:116-121 | halfway between the best visible bid and ask, rounded down, if their sum fits 64 bits; the last trade if the sides are not both quoted or meet |
| `Cache.RequestCache.Lookup` | crates/trading-core/src/account.rs:87-99 | ring and index together answer for the newest matching entry among the last window entries |
| `Cache.RequestCache.Record` | crates/trading-core/src/account.rs:101-114 | records one entry, evicting the oldest when the window is full |
| `Cache.RequestCache.CanonicalEntries` | crates/trading-core/src/account.rs:122-128 | the retained entries, oldest first |
| `Accounts.TradeKeeps` | crates/trading-core/src/core.rs:693-725 | settling one fill keeps reservations, registries and room consistent for maker and taker, self-trades included, and its accounting succeeds |
| `Accounts.RestKeeps` | crates/trading-core/src/core.rs:749-813 | resting a remainder reserves what it has left, registers it, and its accounting succeeds |
| `Accounts.WithdrawKeeps` | crates/trading-core/src/core.rs:386-398 | withdrawing an order releases what it had left, forgets it, and its accounting succeeds |
| `Accounts.ShrinkKeeps` | crates/trading-core/src/core.rs:428-487 | lowering a total releases the difference and keeps everything else |
| `Margin.GrossIsMarked` | crates/trading-core/src/risk.rs:286-311 | the loop over instruments gives the sum of held lots at their absolute reference prices and of working notional, refuses a held instrument without a mark if what comes before it fits, and overflows exactly when the sum does |
| `Margin.ExposureIsMeasured` | crates/trading-core/src/risk.rs:235-317 | the exposure check passes or gives its reason exactly by that sum, with the added order in and the replaced one out, and by the worst position if the working side filled |
| `Safety.ExecuteKeeps` | crates/trading-core/src/core.rs:567-691 | executing an admitted order settles all its fills without an accounting fault and keeps the invariant |
| `Safety.NewFine` | crates/trading-core/src/core.rs:313-372 | a new order keeps the invariant, and no accounting fault or failed expectation is possible |
| `Safety.CancelFine` | crates/trading-core/src/core.rs:374-410 | a cancel keeps the invariant, and no accounting fault or failed expectation is possible |
| `Safety.ReplaceFine` | crates/trading-core/src/core.rs:412-562 | a replace, in place or anew, keeps the invariant, and no accounting fault or failed expectation is possible |
| `Safety.StepFine` | crates/trading-core/src/core.rs:187-211 | every input keeps the invariant, and no accounting fault or failed expectation is possible |
| `Requests.UnknownMisses` | crates/trading-core/src/account.rs:87-99 | the cache misses exactly when no retained entry bears the request id |
| `Requests.NovelIsHandled` | crates/trading-core/src/core.rs:269-311 | a request the cache does not know is handled, its report comes last, and only its account remembers it; the last client sequence becomes its own if it was accepted and carries one |
| `Requests.ConflictIsRefused` | crates/trading-core/src/core.rs:269-311 | a known request id with other content is refused as a conflicting duplicate and leaves the desk alone |
| `Verdicts.RequestIsJudged` | crates/trading-core/src/risk.rs:13-164 | the final report of a new order or a replacement gives the reason of the first of 28 checks that fails, each stated as a condition on the state before the call, and is no rejection if all hold |
| `Verdicts.OneVerdict` | crates/trading-core/src/risk.rs:1-2 | these checks leave no choice: one request always has one primary reason |
| `Verdicts.AcceptedWithinLimits` | crates/trading-core/src/risk.rs:279-314 | whatever is accepted leaves the worst position and the marked gross exposure, with the order in and the replaced one out, within the limits of the account |
| `Verdicts.GrossExactly` | crates/trading-core/src/risk.rs:311-314 | a request that passes every earlier check is refused for gross exposure if and only if the marked sum exceeds the limit |
| `Verdicts.PermissionExactly` | crates/trading-core/src/risk.rs:192-214 | a well-formed request is refused for the kill switch, for a disabled account or for an old client sequence if and only if that is the first of them that applies |
| `Verdicts.AcceptedIsPermitted` | crates/trading-core/src/risk.rs:192-214 | in every state a new order or replacement that is accepted, and is no retry, comes with the kill switch released, from an enabled account, under a client sequence above its last, for a live feed |
| `Verdicts.SequenceFollows` | crates/trading-core/src/core.rs:838-851 | a step moves the last client sequence of an account exactly when it accepts a request of that account that carries one and is no retry |
| `Cancels.CancelWithdraws` | crates/trading-core/src/core.rs:374-410 | a cancel of a registered order is never refused, whatever the kill switch, feed or account say: the order is in no book and no registry, the reservation of its owner falls by exactly what it had left, everything else is as it was, and the report describes the order |
| `Cancels.CancelUnknown` | crates/trading-core/src/core.rs:374-385 | a cancel under a key that is not registered is refused as an unknown order and changes nothing |
| `Outcomes.NewTakesAndRests` | crates/trading-core/src/core.rs:313-372 | an accepted new order takes the smaller of its quantity and what its limit reaches, by price-time matching; what is left of a limit order rests behind its price under a new priority if its level has room, what is left of a market order is cancelled, and the report says so |
| `Outcomes.ReplaceKeepsPlaceOrRequeues` | crates/trading-core/src/core.rs:412-562 | a lower total at the same price keeps the place of the order and trades nothing; a total of exactly what is filled withdraws it; anything else takes it out, takes what the new price reaches and rests the remainder under the same id with a new priority |
| `Controls.KillSwitches` | crates/trading-core/src/core.rs:231-245 | the kill command sets the switch, touches nothing else and is announced exactly when it changes something |
| `Controls.EnablingSwitches` | crates/trading-core/src/core.rs:246-258 | enabling and disabling set that account alone and are announced exactly when they change something; an unknown account is ignored |
| `Controls.LimitsSwitch` | crates/trading-core/src/core.rs:259-267 | new limits are set for that account alone and announced; an unknown account is ignored |
| `Controls.MarketEventMovesView` | crates/trading-core/src/core.rs:213-229 | a market event moves the view of its instrument alone, and a change of feed state is announced and nothing else is |
| `Stamps.EventsBearTheirInput` | crates/trading-core/src/core.rs:187-211 | every event bears the engine sequence of its input, one above the last, and the time it was received |
| `Runs.NoAccountingFault` | crates/trading-core/src/core.rs:187-211 | no input sequence leads to an accounting fault, a failed expectation or a bad index |
| `Runs.ReservationsMatchBooks` | crates/trading-core/src/account.rs:28-54 | in every reachable state the open lots and open notional of an account equal the sums over its resting orders |
| `Runs.RegistriesMatchBooks` | crates/trading-core/src/core.rs:749-836 | an id is live exactly when one book holds it, its registration names account and instrument, and exactly one client key leads to it |
| `Runs.LimitsHold` | crates/trading-core/src/risk.rs:235-340 | position plus working orders stays within the largest position limit ever in force, and working notional within the largest gross limit |
| `Runs.PositionsFit` | crates/trading-core/src/risk.rs:235-340 | in every reachable state the position with all working buys, and with all working sells, fits 64 signed bits |
| `Runs.BooksStayUncrossed` | crates/trading-core/src/core.rs:329-360 | every reachable book is uncrossed and ordered by price and priority |
| `Capacity.BooksStayWithinCapacity` | crates/trading-core/src/book.rs:104-157 | in every reachable state every book holds at most its capacity of orders |
| `Runs.OutputsAreDense` | crates/trading-core/src/core.rs:853-864 | output sequences and trade ids are 1, 2, 3 and so on without a gap |
| `Runs.PositionsAreTrades` | crates/trading-core/src/core.rs:693-725 | every position is the signed sum of the account trades in the stream |
| `Runs.FillsAreTrades` | crates/trading-core/src/core.rs:567-691 | every resting order has filled exactly what the trades naming it add up to, across replaces |
| `Runs.PositionsSumToZero` | crates/trading-core/src/core.rs:693-725 | the positions of all accounts in an instrument sum to zero |
| `Runs.TerminalStaysTerminal` | crates/trading-core/src/core.rs:374-562 | an issued id that is no longer live never is again and no later trade names it |
| `Runs.HaltFreezes` | crates/trading-core/src/risk.rs:192-231 | through any stretch with the kill engaged or the feed not live the instrument does not trade and its live orders only disappear |
| `Runs.HaltFreezesPositions` | crates/trading-core/src/risk.rs:192-231 | through such a stretch no position in the instrument moves |
| `Runs.DisabledFreezes` | crates/trading-core/src/risk.rs:192-199 | through any stretch in which an account is disabled it takes in no trade and its live orders only disappear |
| `Attacks.RequestShape` | crates/trading-core/src/core.rs:269-311 | a request that executes emits trade, maker report, taker report per fill, the taker on the side of the request and counting up, and then one final report whose cumulative quantity is what was filled before plus what these trades add up to; any other request emits only its report |
| `Makers.MakersAreDescribed` | crates/trading-core/src/core.rs:592-688 | whatever a request trades is with the orders at the front of the queue it meets, one after the other and at their prices, and each maker report gives its order, client id included, as the trade leaves it |
| `Halts.RequestContained` | crates/trading-core/src/risk.rs:192-231 | a request trades and adds live orders only when the kill switch is released, its account enabled, its client sequence new and its feed live, only as taker for its own account and only in its own instrument |
| `Collar.NeverWorseThanCollar` | crates/trading-core/src/risk.rs:41-60 | in every state, whatever a request trades is under a live and fresh feed, at a price no worse for it than the collar around the reference allows and no worse than its limit |
| `Collar.BothSidesExactly` | crates/trading-core/src/risk.rs:41-60 | the trades of a request are within the collar on both sides if and only if it does not execute against a best opposite price beyond the collar |
| `Counterexamples.BetterThanCollar` | crates/trading-core/src/risk.rs:41-60 | a run from a fresh engine and a request in its last state that trades beyond the collar, on the side better for it |
| `Rejections.RejectionChangesNothing` | crates/trading-core/src/core.rs:900-907 | a final report with a reject reason is the only event and leaves books, positions, registries, limits, client sequences and ids untouched |
| `Retries.RetryRepeats` | crates/trading-core/src/core.rs:269-311 | a remembered request only takes a sequence and repeats its report |
| `Retries.RetryIsIdempotent` | crates/trading-core/src/core.rs:269-311 | a request sent again, after any inputs that record fewer than the window of other outcomes and nothing else under its id, further retries allowed, returns the same report up to sequences and time and changes nothing else |
| `Engine.NewCore` | crates/trading-core/src/core.rs:75-132 | a fresh engine holds the initial state of the specification |
| `Engine.TradingCore.SettleOneFill` | crates/trading-core/src/core.rs:592-688 | one fill updates positions, reservations and registries in place and emits its three events, as specified |
| `Engine.TradingCore.ExecuteOrder` | crates/trading-core/src/core.rs:567-691 | the loop over fills computes the specified state and events |
| `Engine.TradingCore.RestOrderWith` | crates/trading-core/src/core.rs:749-793 | takes a priority and books, reserves and registers the remainder, or drops it when refused |
| `Engine.TradingCore.CheckExposureOf` | crates/trading-core/src/risk.rs:235-317 | the loop over instruments computes the specified verdict |
| `Engine.TradingCore.CheckNewOrder` | crates/trading-core/src/risk.rs:13-88 | the checks in the source order give the specified verdict and reason |
| `Engine.TradingCore.CheckReplacement` | crates/trading-core/src/risk.rs:90-164 | the replacement checks in the source order give the specified verdict and reason |
| `Engine.TradingCore.HandleNewOrder` | crates/trading-core/src/core.rs:313-372 | the new-order handler computes the specified state, events and report |
| `Engine.TradingCore.HandleCancelOrder` | crates/trading-core/src/core.rs:374-410 | the cancel handler computes the specified state and report |
| `Engine.TradingCore.HandleReplaceOrder` | crates/trading-core/src/core.rs:412-562 | the replace handler computes the specified state, events and report, in place and anew |
| `Engine.TradingCore.ApplyOrderRequest` | crates/trading-core/src/core.rs:269-311 | cache lookup, handling and recording compute the specified step |
| `Engine.TradingCore.ApplyMarketEvent` | crates/trading-core/src/core.rs:213-229 | market events compute the specified step |
| `Engine.TradingCore.ApplyControlCommand` | crates/trading-core/src/core.rs:231-267 | control commands compute the specified step |
| `Engine.TradingCore.Apply` | crates/trading-core/src/core.rs:187-211 | from any valid engine every input keeps it valid and gives exactly the state and events of the step function |
| `Replaying.DigestRecorder.RecordInput` | crates/trading-core/src/replay.rs:89-94 | the input stream grows by exactly the canonical bytes of the input |
| `Replaying.DigestRecorder.RecordOutput` | crates/trading-core/src/replay.rs:96-101 | the output stream grows by exactly the canonical bytes of the event |
| `Replaying.ReplayStep` | crates/trading-core/src/replay.rs:137-151 | one input is applied and recorded with its events |
| `Replaying.ReplayRun` | crates/trading-core/src/replay.rs:153-157 | the streams grow by exactly the inputs and the events of their run |
| `Replaying.EqualInputStreamsReplayEqually` | crates/trading-core/src/replay.rs:89-109 | replays of one start that recorded equal input streams reach the same state and record equal output streams |
| `Settlement.HappenKeeps` | apps/control-api/src/settlement/dispatcher.ts:57-125 | every tick, wait, answer, record, crash, release and new trade keeps the protocol invariant |
| `Settlement.EachTradeSettlesOnce` | apps/control-api/src/settlement/outbox.ts:95-169 | over every run a trade belongs to at most one settlement the venue applied |
| `Settlement.StatusesTellTheTruth` | apps/control-api/src/settlement/outbox.ts:267-368 | pending and failed rows have no receipt at the venue, confirmed rows have theirs, and no row exceeds the automatic attempts |
| `Settlement.NoManifestConflict` | apps/control-api/src/settlement/outbox.ts:95-169 | no new batch meets an existing row and every manifest can be rebuilt from the claimed trades |
| `Settlement.ConfirmedIsFinal` | apps/control-api/src/settlement/outbox.ts:326-368 | what the venue applied and what was confirmed never changes again |
| `Settlement.AppliedTradesStayClaimed` | apps/control-api/src/settlement/outbox.ts:311-324 | the trades of an applied settlement are never claimed by another |
| `Dispatching.SettlementOutbox.CreateBatch` | apps/control-api/src/settlement/outbox.ts:95-169 | claims exactly the least unclaimed trades, in order, for one row with that manifest, and no other trade or row changes; or reports the conflict and changes nothing |
| `Dispatching.SettlementOutbox.ManifestFor` | apps/control-api/src/settlement/outbox.ts:179-219 | rebuilds the manifest from the claimed trades |
| `Dispatching.SettlementOutbox.Pending` | apps/control-api/src/settlement/outbox.ts:225-237 | selects the due open rows with the least first trades, in that order, up to the limit, and leaves none out that fits |
| `Dispatching.SettlementOutbox.ReleaseFailed` | apps/control-api/src/settlement/outbox.ts:311-324 | removes a failed row and frees exactly its trades; any other row is refused and nothing changes |
| `Dispatching.SettlementDispatcher.Advance` | apps/control-api/src/settlement/dispatcher.ts:74-125 | one row is advanced by steps of the protocol and ends as the last answer of the venue says: a receipt confirms it with that receipt, a refusal fails it, silence counts an attempt and leaves it unknown, or with the operator at the eighth; a healthy venue confirms it; no other row changes |
| `Dispatching.SettlementDispatcher.Tick` | apps/control-api/src/settlement/dispatcher.ts:57-72 | a whole tick is a run of the protocol: it claims the least unclaimed trades and selects the due rows; each of these is concluded by what the venue said, no other row changes, and a healthy venue confirms them all with the receipts it holds |
| `Projecting.RedeliveryIsExact` | apps/control-api/src/projection.ts:168-204 | under any redelivery whatever the tables are the fold of exactly the events from the first one delivered up to the last one applied, each once |
| `Projecting.OverlapReaches` | apps/control-api/src/projection.ts:168-204 | overlapping in-order batches leave the reader healthy at the end of the stream |
| `Projecting.GapFreezes` | apps/control-api/src/projection.ts:163-204 | after a gap nothing more is applied |
| `Projecting.FoldLots` | apps/control-api/src/projection.ts:213-258 | a projected position is the signed sum of the trades in the stream |
| `Projecting.FoldTurnover` | apps/control-api/src/projection.ts:243-258 | the projected bought and sold lots are what the account bought and sold in the stream |
| `Projecting.FoldRejections` | apps/control-api/src/projection.ts:260-272 | the projected count of a reject reason is the number of reports that give it |
| `Projecting.ProjectedPositionsAreEngines` | apps/control-api/src/projection.ts:213-258 | once all events of any run are applied the projected positions are the engine positions |
| `Projecting.Projection.Apply` | apps/control-api/src/projection.ts:168-204 | the batch loop computes the specified deliveries |
| `OrdersTable.RequestFollows` | apps/control-api/src/projection.ts:260-307 | after a request that is not a retry the orders table shows the live book if and only if no reported remainder overflows its own level, judged on the own side before the call |
| `OrdersTable.RetryFollows` | apps/control-api/src/projection.ts:260-307 | after a retry it does if and only if the remembered report is a rejection, or final for an order that is not live, or gives the price, total and fill of the live order |
| `OrdersTable.OrdersTableIsBook` | apps/control-api/src/projection.ts:260-307 | over every run and at every point of it the orders table was the live book at each input boundary so far if and only if every input so far met those conditions |
| `Counterexamples.RefusedRemainder` | apps/control-api/src/projection.ts:260-307 | a run from a fresh engine in which a level would exceed 64 bits and the table shows an order that never rested |
| `Counterexamples.RetryBreaksTable` | apps/control-api/src/projection.ts:260-307 | a run from a fresh engine in which a retried request puts the row of a cancelled order back |
| `Pipelines.StepKeeps` | crates/engine-runtime/src/pipeline.rs:241-532 | every step of feed, engine, output and operator, a requested shutdown included, keeps the pipeline invariant |
| `Pipelines.PipelineIsReplay` | crates/engine-runtime/src/pipeline.rs:324-532 | in every interleaving the journal, then the queued events, then the unsent batch are the single-threaded replay of the captured inputs while the output side is alive; otherwise the journal is a prefix; the fed inputs are a prefix of the feed; the queues keep their bounds |
| `Pipelines.SuccessIsComplete` | crates/engine-runtime/src/pipeline.rs:502-532 | when all threads end without an error the journal is the whole replay, the captured inputs are exactly those the feed produced, and these are the whole feed unless the operator asked for a shutdown |
| `Ingress.CommandsAreKept` | crates/engine-runtime/src/pipeline.rs:355-366 | in every interleaving the commands the operator queued are those applied so far, in that order and each once, and then those still queued |
| `Ingress.CapturedAreStamped` | crates/engine-runtime/src/pipeline.rs:324-366 | in every interleaving every captured input bears its number, and a command or latch change bears the clock the engine had reached |
| `Pipelines.AppliedUnderLatch` | crates/engine-runtime/src/pipeline.rs:331-366 | in every interleaving the input in hand is applied under the latch value read for it if and only if the last kill command drained for it, if any, says the same |
| `Pipelines.EngagedOrderDoesNotTrade` | crates/engine-runtime/src/pipeline.rs:331-366 | an order applied while the switch is engaged emits no trade |
| `Pipelines.KillIsNotOvertaken` | crates/engine-runtime/src/pipeline.rs:331-366 | in every interleaving, once the latch is engaged and left alone, no order whose latch read is still to come trades, however many inputs were queued, unless the last kill command drained for it was a release |
| `Overtaking.KillCanBeOvertaken` | crates/engine-runtime/src/pipeline.rs:331-366 | a schedule from the start in which the latch is read as engaged for an order and the order trades |
| `Pipelines.NoDeadlock` | crates/engine-runtime/src/queue.rs:142-201 | with queues of positive size some thread other than the operator can move until all have finished |
| `Pipelines.EveryRunFinishes` | crates/engine-runtime/src/pipeline.rs:502-532 | however the scheduler interleaves the threads, once the operator is quiet all of them finish |
| `Wire.LeRoundTrip` | crates/protocol/src/read.rs:40-66 | an integer that fits reads back from its little-endian bytes |
| `Wire.BytesRoundTrip` | crates/protocol/src/read.rs:40-66 | bytes are the little-endian form of the integer they read as |
| `Wire.PutHolds` | crates/protocol/src/canonical.rs:19-83 | a buffer begins with a written field exactly when it begins with what came before and then holds the value |
| `Wire.Reader.Take` | crates/protocol/src/read.rs:19-30 | returns the next bytes or fails with the offset and moves nothing |
| `Wire.Reader.U64` | crates/protocol/src/read.rs:50-55 | reads the field at the cursor or fails as truncated |
| `Wire.RejectOf` | crates/protocol/src/canonical.rs:196-206 | the search finds the reason with that code, zero meaning none, and fails exactly on unknown codes |
| `Wire.StreamsNest` | crates/trading-core/src/replay.rs:171-268 | streams of a prefix-free code that begin the same bytes nest |
| `Wire.StreamInjective` | crates/trading-core/src/replay.rs:171-268 | equal streams of a prefix-free code come from equal sequences |
| `Canonical.OutputFields` | crates/protocol/src/canonical.rs:19-83 | bytes begin with an event encoding exactly when its fields lie at their offsets |
| `Canonical.OutputsPrefixFree` | crates/protocol/src/canonical.rs:19-83 | no event encoding begins another |
| `Canonical.OutputStreamsDetermineOutputs` | crates/protocol/src/canonical.rs:19-83 | equal output streams come from equal events |
| `Canonical.EncodeOutput` | crates/protocol/src/canonical.rs:19-83 | appends exactly the encoding |
| `Canonical.DecodeOutput` | crates/protocol/src/canonical.rs:86-158 | succeeds exactly when the bytes begin with some event encoding, and returns that event and the bytes consumed, which it re-encodes to; otherwise it says truncated exactly when more bytes could make them an event, and invalid field when none could |
| `Canonical.LegibleIsBegun` | crates/protocol/src/canonical.rs:86-158 | bytes that hold no whole event begin one if and only if every code among them means something |
| `InputCodec.InputsPrefixFree` | crates/trading-core/src/replay.rs:171-268 | no input encoding begins another |
| `InputCodec.InputStreamsDetermineInputs` | crates/trading-core/src/replay.rs:171-268 | concatenated input encodings are equal only if the input sequences are |
| `InputCodec.EncodeInput` | crates/trading-core/src/replay.rs:171-268 | appends exactly the encoding |
| `FrameCodec.ContentFields` | crates/protocol/src/codec.rs:240-255 | bytes are a frame content exactly when its fields lie at their offsets |
| `FrameCodec.ContentDetermines` | crates/protocol/src/codec.rs:259-316 | content determines an encodable frame |
| `FrameCodec.EncodeFrame` | crates/protocol/src/codec.rs:240-255 | writing a zero length and patching it in appends exactly the frame with its checksum |
| `FrameCodec.DecodeFrame` | crates/protocol/src/codec.rs:259-316 | succeeds exactly when the bytes begin with an encodable frame, and returns that frame and the bytes consumed, which it re-encodes to; each error is returned exactly when more bytes are needed, the length is implausible, the checksum differs, or the content has that defect |
| `FrameCodec.CutFrameIsIncomplete` | crates/protocol/src/codec.rs:259-316 | every proper beginning of a frame is reported as needing more bytes, never as bad |
| `FrameCodec.DecodePayload` | crates/protocol/src/codec.rs:375-452 | reads the payload of a message type or fails exactly when no carried body of that type is there |
| `Journal.JournalWriter.constructor` | crates/engine-runtime/src/journal.rs:73-92 | a fresh journal is the header |
| `Journal.JournalWriter.Append` | crates/engine-runtime/src/journal.rs:98-108 | one record is added behind the others |
| `Journal.ScanRecord` | crates/engine-runtime/src/journal.rs:150-188 | finds the record the bytes begin with, if any, and calls bytes bad only if no record is compatible with them |
| `Journal.ReadJournal` | crates/engine-runtime/src/journal.rs:133-196 | for all bytes: the longest run of whole valid records, and a truncation mark exactly when something follows; header errors as specified |
| `Journal.CutRecovery` | crates/engine-runtime/src/journal.rs:133-196 | a journal cut anywhere past the header recovers the run id and exactly the whole records before the cut, and is marked truncated exactly off the record boundaries |
| `Journal.OpenTail` | crates/engine-runtime/src/journal.rs:210-229 | attaches exactly when the header is complete and recognised |
| `Journal.JournalTail.Poll` | crates/engine-runtime/src/journal.rs:243-288 | delivers the next records up to the limit, reads only new bytes, and on failure keeps its place and names bytes no record is compatible with |
| `Journal.DeliveredIsRecovered` | crates/engine-runtime/src/journal.rs:243-288 | what was delivered from a file is a prefix of its recovery |
| `Journal.CutIsNotBroken` | crates/engine-runtime/src/journal.rs:258-279 | a cut of a real journal is never reported corrupt |
| `Journal.Follow` | crates/engine-runtime/src/journal.rs:243-288 | for every sequence of file lengths and limits the polls together deliver a prefix of the recovery of the last file, each record once and in order, and all of it when the last poll stayed under its limit |
| `Journal.DeliveredOfCut` | crates/engine-runtime/src/journal.rs:243-288 | what was delivered of a cut journal is a prefix of the recovery of that cut, and all of it exactly when no whole record is left |
| `EndToEnd.SurvivingJournalIsReplay` | crates/engine-runtime/src/pipeline.rs:324-532 | at any moment of any interleaving, whatever part of the journal file survives past its header recovers to a prefix of the single-threaded replay |
| `EndToEnd.WholeJournal` | crates/engine-runtime/src/journal.rs:133-196 | an uncut journal recovers whole |
| `EndToEnd.CleanRunProjects` | apps/control-api/src/projection.ts:101-127 | after a run that ended without an error, a reader that consumed the recovered journal shows every position as the engine holds it |

## Left out

- Tokio server, Unix socket, JSON projection, HTTP routes, WebSocket stream, configuration and metrics counters: input, output and presentation.
- Benchmarks, latency harness, wait strategies, the simulator and the seeded generator.
- CRC-32, BLAKE3, SHA-256 and the request fingerprint: parameters or functions of the bytes; nothing is claimed about collisions.
- File header and instrument table of the feed format: the frames are modelled, the header is not.
- State digest and checkpoints of a replay: the recorded input and output streams are modelled, the digest of the state is not.
- On-chain programs, ledger templates and their clients: the simulated venue stands for a venue.
- Projection rebuild, cross-run merging, resynchronization of the outbox and database transactions as such.
- Wall-clock time, backoff and intervals: which settlement rows are due and when ticks happen is left open.
- Snapshot telemetry of the pipeline, flush and sync policy of the journal: any part of the written bytes may be what survives.
- Slab and queue internals: an unused slot is chosen, and queues are bounded and first-in-first-out; a retry loop is a step that waits until it is enabled.
- Configurations with repeated account or instrument ids, or without positive tick and lot sizes: the engine relies on neither occurring. A request window of zero is the ring of one slot that the source makes of it.
- Wire.Reader.Take: the checked addition on the offset is unbounded here; both of its failures are the same error in the source.
- Canonical.DecodeOutput: states which kind of error is returned, not at which offset.
- FrameCodec.DecodeFrame: states the kind of every error, and the offset of all but those inside a payload.
- SimpleBook.ReferenceBook.ReduceTotal: asks, like the slab book, that the reduced total exceeds what is filled.
- IndexedBook.OrderBook.ReduceTotal: a reduction to exactly the filled quantity followed by a removal is one removal here (`Engine.TradingCore.DropReduced`), so the reduced total is asked to exceed what is filled.
- Lockstep.Step: commands are not restricted to ones that avoid crossing, so more sequences are covered than the original compares.
- SimpleBook.ReferenceBook.Insert: takes the owner as a ghost argument, since the simple book does not store one.
- Single guarded updates of the outbox, the answers of the simulated venue and the update of one projected row: they compute their specification functions, and the theorems above are about those.
- Dispatching.SettlementDispatcher.Tick: the statistics it counts are not modelled; venue faults are given as a script; the guard against overlapping ticks is the single dispatcher of the protocol.
- Pipelines.EveryRunFinishes: needs a scheduler that runs some enabled thread, not a fair one; an operator who acts for ever is not covered.
- Last client sequences are not monotone, since a cancel may carry any, and the per-fill taker reports of a replace count from zero again: the code does not promise otherwise.
- A level whose quantity would overflow 64 bits refuses a remainder silently: modelled, and visible in `OrdersTable.RequestFollows`.
