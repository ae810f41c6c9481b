# Matchbook: a verified model

This project models the matching engine, its naive twin, the market-data feed
around it and the order-entry and risk layers in front of it, and proves what
the repository promises of them. `dafny verify dfyconfig.toml` checks it all.

## How it is laid out

**The abstract engine.** `Types`, `Ladders` and `Book` hold the state: four
ladders (displayed bids and asks, pending buy and sell stops), each a FIFO queue
of orders per tick; the index from live ids to places; the last trade, the
halted flag and the event tape. `Matching` is the sweep, one maker at a time,
with iceberg replenishment and self-trade prevention; `Auction` the uncross;
`Engine` the public operations, each followed by the stop pump. Buys and sells
share one definition with the side as a parameter.

**The two engines.** `MatchingEngine.dfy` is the flat-array engine as a class:
level arrays with cached totals (`LevelBook`), occupancy bitmaps of 64-bit words
(`LevelBitmap`), cached best ticks, counters, flags, and the orders in a slab
(`Slab`): nodes with `prev` and `next` in slots handed out by a `Pool`, the head
and tail of every level, the id table pointing at nodes, and the side table of
icebergs and stop-limits with its free list. A level's FIFO is a ghost value;
`Slab` proves on every operation that the links mean it. `ReferenceEngine.dfy`
is the map-of-queues engine as a class, with its linear scans. Both are proved
equal to the abstract engine call by call, and `Lockstep` drives both with the
same calls. `Walks` and `Visitors` are the read-only walks over orders, levels
and stops.

**Laws of the engine.** `SweepLaws` (conservation, fair and monotone prints),
`Reach` (what a sweep can execute, and price-time priority, replenished clips
included), `SelfTrade` (what a sweep cancels, and the account of every resting
order), `FillOrKill`, `Safety` (never locked or crossed, no armed stop left
pending), `StopCascade` (firing order), `LastTrade`. What each call does is told
by its own arguments: `Entries` (limit, iceberg and market orders), `Amends` and
`OrderTypes` (cancel, reduce, modify), `Icebergs` (what a clip shows),
`StopOrders` and `StopHistory` (stops by the trigger they were sent with),
`AuctionCall` (the uncross).

**The feed.** `Feed` is the publisher's event mapping and the consumer that
rebuilds an engine from the messages. `FeedMirror` says when the rebuilt book is
the displayed book and proves it for one message; `FeedSync` follows sweeps and
cascades; `FeedShadow` and `FeedCross` follow a call auction; `FeedRuns` covers
every call and whole runs; `FeedServe` what the publisher itself knows, over
runs of any kind; `FeedTrades` that the trades it prints are the engine's;
`FeedReplace` what the consumer makes of a venue's Replace; `FeedJoin` the
snapshot and joining late through packets; `FeedCalm` which auctions keep the
feed true, read off the book before the call; `RoundTrip` the result from a
fresh venue and the runs that break the unguarded claim. `FeedClasses` are the
publisher and the builder as objects around the array engine. `FeedBounds` shows
that what is published fits the fields of the format. `Wire`, `ItchCodec` and
`MoldUdp64` carry the messages as bytes, `Layouts` says where each field stands;
message shapes follow Nasdaq TotalView-ITCH 5.0 ("Add Order Message", "Modify
Order Messages") and MoldUDP64 1.00 ("Downstream Packet").

**Around the engine.** `RiskGate` and `GateOutcomes` (checks, kill-and-flatten),
`Positions` (whose fills the gate counts), `Ouch`, `OuchOutcomes`,
`OuchReplace`, `OuchCodec` and `OuchGateway` (the order-entry session),
`SpscRing` (the two-thread ring, with the replay tool's loops as the threads'
programs).

## What turned out false, and exactly when it holds

- A clip shown in a call auction is announced at the clearing price, not at the
  order's limit. The feed then carries the wrong level. `RunMirrorsIff` gives
  the exact condition on the outcome, `AuctionBreaksFeed` the run. Before the
  call, `CalmAuction` is a condition on the book alone: away from the clearing
  tick the auction stops at no level in the middle of its icebergs. It always
  suffices (`CalmKeepsLimits`, `CalmRoundTrips`), and it is exact unless the
  level the auction stops in has an iceberg before its last order (`CalmIff`).
  Both engines announce alike, so their agreement is untouched.
- `resume()` without an uncross can leave a crossed book in continuous trading
  (documented at the call, `include/matchbook/matching_engine.hpp:218-224`):
  `ResumeIsSafeIff`, `ResumeCanCross`. The feed then breaks as well, with no
  auction at all: `CrossedResumeBreaksFeed`. A snapshot taken later, halted or
  uncrossed, is right again in both cases: `AnySnapshotServes`.
- A fill-or-kill is not all-or-nothing when own orders are within the limit: the
  feasibility sum counts them and the size behind them. The code says so at
  `include/matchbook/matching_engine.hpp:127-131`. `FokAllOrNothingIff` gives
  the exact condition, `OwnSellReached` and `OwnOrderBreaksFok` a run of two calls.
- A client can hear `Replaced` for an order that is dead and whose quantity never
  traded, with no `Canceled` (`include/matchbook/ouch.hpp:461-462`).
  `ReplacedButDeadIff` gives the exact condition before the call: the quantity
  asked is 0, or the re-entry wants more than lies in front of its owner's own
  orders. `ZeroQtyKillsQuietly` and `OwnOfferKillsQuietly` are sessions that get
  there.
- The risk gate's per-owner position is not always the net of that owner's fills:
  a modify that re-enters an order files it under the owner of the last
  submission (`include/matchbook/risk_gate.hpp:144-155`, 297-300).
  `CallTalliesIff` gives the exact condition for each call,
  `PositionsAreNetFills` the claim over the runs that meet it, and
  `MisreadReached` three calls that do not.
- A packet of 65535 blocks reads as end of session, and a larger count wraps:
  `PacketRoundTripsIff`. Fields beyond 32 bits do not survive the feed format:
  `CodecRoundTripsIff`.
- A token holding a NUL is echoed space-padded, so two tokens the session keeps
  apart can look alike on the wire: `EchoIsFaithfulIff`, `NulTokensLookAlike`.

## Model

| member | source | states |
|---|---|---|
| Lockstep.Lockstep | tests/reference_engine.hpp:25-543 | driven with any sequence of calls (all order types, all time-in-force and self-trade policies, cancel, reduce, modify, halt, resume, uncross), the flat-array engine and the map-and-queue engine give the same replies, the same ordered event tape and the same book |
| FastEngine.MatchingEngine.Apply | include/matchbook/matching_engine.hpp:503-516 | one public call on the array engine, stop cascade included, is exactly one step of the abstract engine: reply, event tape and every queue; totals, bitmaps, best ticks, linked nodes, id table, side table, pool and counters are exact again afterwards |
| NaiveEngine.ReferenceEngine.Apply | tests/reference_engine.hpp:32-188 | one public call on the naive engine is exactly the same step of the abstract engine |
| FastEngine.MatchingEngine.constructor | include/matchbook/matching_engine.hpp:109-121 | a new engine over a band is the abstract fresh state, with all caches exact |
| FastEngine.MatchingEngine.SubmitLimitOrder | include/matchbook/matching_engine.hpp:520-546 | limit entry refines the abstract entry: reject, halt rules, FOK and post-only checks, match, rest or kill |
| FastEngine.MatchingEngine.SubmitMarketOrder | include/matchbook/matching_engine.hpp:548-560 | market entry refines the abstract sweep of the whole band, its remainder discarded; `MarketOutcome` says how much that trades |
| FastEngine.MatchingEngine.SubmitIcebergOrder | include/matchbook/matching_engine.hpp:583-610 | iceberg entry refines the abstract entry with a peak |
| FastEngine.MatchingEngine.SubmitStopOrder | include/matchbook/matching_engine.hpp:562-581 | stop entry refines the abstract one: park under the trigger, or fire at once when already armed; `StopWaits` and `StopFiresAtOnce` say where and how |
| FastEngine.MatchingEngine.CancelOrder | include/matchbook/matching_engine.hpp:615-626 | cancel refines the abstract removal from book or stop shelf, whichever holds the id |
| FastEngine.MatchingEngine.ReduceOrder | include/matchbook/matching_engine.hpp:628-660 | reduce refines the abstract in-place shave, reserve before displayed clip, totals kept |
| FastEngine.MatchingEngine.ModifyOrder | include/matchbook/matching_engine.hpp:662-702 | modify refines cancel, silent in-place amend, cancel-replace or refusal, as the abstract engine chooses |
| FastEngine.MatchingEngine.UncrossOrders | include/matchbook/matching_engine.hpp:750-830 | the array uncross refines the abstract one |
| FastEngine.MatchingEngine.PickClearing | include/matchbook/matching_engine.hpp:774-798 | the candidate loop over the two volume curves picks the tick of the abstract scan |
| FastEngine.MatchingEngine.SupplyCurve | include/matchbook/matching_engine.hpp:757-766 | supply[k] is the asked volume, hidden included, at or below the k-th tick of the overlap |
| FastEngine.MatchingEngine.DemandCurve | include/matchbook/matching_engine.hpp:767-772 | demand[k] is the bid volume, hidden included, at or above the k-th tick of the overlap |
| FastEngine.MatchingEngine.CrossAll | include/matchbook/matching_engine.hpp:805-829 | the crossing loop on arrays is the abstract crossing loop |
| FastEngine.MatchingEngine.CrossFillAt | include/matchbook/matching_engine.hpp:712-748 | consuming a head in the auction refines the abstract fill: displayed part, then reserve, then a fresh clip at the back announced at the clearing price; `AuctionUnveils` says what the clip shows |
| FastEngine.MatchingEngine.PlaceLimitOrder | include/matchbook/matching_engine.hpp:884-906 | match then rest, kill or drop the remainder refines the abstract placement |
| FastEngine.MatchingEngine.RestOrder | include/matchbook/matching_engine.hpp:1162-1202 | resting refines the abstract join, iceberg shape, bit and best tick included |
| FastEngine.MatchingEngine.MatchSide | include/matchbook/matching_engine.hpp:1058-1087 | the price loop of match_buy and match_sell refines the abstract sweep |
| FastEngine.MatchingEngine.SweepLevel | include/matchbook/matching_engine.hpp:1109-1160 | one level of the sweep refines the abstract encounters at the best tick, replenishment and self-trade prevention included; `SweepUnveils` says what the next clip shows |
| FastEngine.MatchingEngine.PumpStops | include/matchbook/matching_engine.hpp:1015-1032 | the stop loop refines the abstract pump |
| FastEngine.MatchingEngine.NextTriggered | include/matchbook/matching_engine.hpp:984-993 | the two bitmap probes find the abstract next armed stop, or none |
| FastEngine.MatchingEngine.FillableAsks | include/matchbook/matching_engine.hpp:1038-1048 | the early-stopping scan answers feasibility as the full sum would |
| FastEngine.MatchingEngine.FillableBids | include/matchbook/matching_engine.hpp:1049-1056 | the early-stopping scan answers feasibility as the full sum would |
| FastEngine.MatchingEngine.FinishWork | include/matchbook/matching_engine.hpp:1062-1067 | after a level is swept its bit and the cached best tick are exact again |
| FastEngine.MatchingEngine.OpenCountIsExact | include/matchbook/matching_engine.hpp:348 | pool capacity less free slots equals resting orders plus pending stops and the number of live ids; the stop counter equals the pending stops |
| NaiveEngine.ReferenceEngine.UncrossOrders | tests/reference_engine.hpp:466-525 | the naive uncross refines the abstract one, and pumps |
| NaiveEngine.ReferenceEngine.CrossAll | tests/reference_engine.hpp:500-524 | the naive crossing loop is the abstract crossing loop |
| LevelBooks.LevelBook.Behind | include/matchbook/matching_engine.hpp:297-299 | the bitmap hop lands on the next occupied level and skips only empty ones |
| LevelBooks.LevelBook.NextBest | include/matchbook/matching_engine.hpp:1216-1223 | when the best level empties the hop finds the new best |
| LevelBooks.Pushed | include/matchbook/matching_engine.hpp:1182-1199 | cached totals stay the sums over the FIFO when an order joins the back |
| LevelBooks.Unlinked | include/matchbook/matching_engine.hpp:1206-1214 | cached totals stay the sums over the FIFO when any order leaves |
| LevelBooks.Rotated | include/matchbook/matching_engine.hpp:1131-1147 | cached totals stay the sums over the FIFO when the head shows its next clip at the back |
| Slabs.Slab.Push | include/matchbook/matching_engine.hpp:1162-1202 | taking a node from the pool, filling it (with a side-table slot for an iceberg or a stop-limit), linking it behind the tail of its level and tabling it means appending the order to that level's FIFO; every other FIFO, and every other id's entry, stays |
| Slabs.Slab.Drop | include/matchbook/matching_engine.hpp:1204-1226 | constant-time pointer surgery around any node, its id's entry nulled, its slots given back, means removing that order from its FIFO, all else in order |
| Slabs.Slab.Amend | include/matchbook/matching_engine.hpp:646-658 | writing new sizes into a node and its side-table slot means replacing that one FIFO entry |
| Slabs.Slab.Rotate | include/matchbook/matching_engine.hpp:1131-1147 | head-to-tail pointer surgery with the next clip shown means requeueing the head last |
| Slabs.Slab.List | include/matchbook/matching_engine.hpp:319-323 | following the next pointers from a level's head meets exactly its FIFO |
| Slabs.Slab.Register | include/matchbook/matching_engine.hpp:871-874 | a new id is the next one and points nowhere |
| Slabs.Slab.Release | include/matchbook/matching_engine.hpp:850-856 | a released node's slot and its side-table slot become free, and nobody else's do |
| Slabs.Slab.TableIsExact | include/matchbook/matching_engine.hpp:863-865 | a non-null table entry is the linked node, in the level it says it stands in, that carries that id |
| Slabs.Slab.LinkedIsTabled | include/matchbook/matching_engine.hpp:964 | every linked node is in the table, under its own id and no other |
| Slabs.Slab.ExtrasAreOwn | include/matchbook/matching_engine.hpp:839-848 | two linked nodes never share a side-table slot, and none they hold is on the free list |
| Slabs.Slab.UsedIsLive | include/matchbook/pool.hpp:21-33 | as many node slots are handed out as ids have a table entry |
| Slabs.AppendedLinked | include/matchbook/matching_engine.hpp:1182-1189 | linking behind the tail turns a well-linked chain into the same chain with the node last: head, tail, next and prev all agree |
| Slabs.BypassedLinked | include/matchbook/matching_engine.hpp:1209-1210 | bypassing any node leaves the rest of its chain well linked |
| Slabs.RequeuedLinked | include/matchbook/matching_engine.hpp:1134-1144 | hanging the head behind the tail leaves the rotated chain well linked |
| Pools.Pool.Alloc | include/matchbook/pool.hpp:21-28 | a slot handed out was free and is nobody else's until given back |
| Pools.Pool.Grow | include/matchbook/pool.hpp:40-50 | a new chunk adds exactly its own slots, lowest handed out first |
| Pools.Pool.InUse | include/matchbook/pool.hpp:32-33 | capacity less free slots is exactly the number of slots handed out |
| Bitmap.LevelBitmap.Set | include/matchbook/level_bitmap.hpp:16 | exactly one more level is marked |
| Bitmap.LevelBitmap.Clear | include/matchbook/level_bitmap.hpp:17 | exactly that level is no longer marked |
| Bitmap.LevelBitmap.FindLe | include/matchbook/level_bitmap.hpp:23-38 | the word scan returns the greatest marked level at or below the argument, or -1 |
| Bitmap.LevelBitmap.FindGe | include/matchbook/level_bitmap.hpp:40-53 | the word scan returns the least marked level at or above the argument, or -1 |
| Bits.HighestIsHighest | include/matchbook/level_bitmap.hpp:32-34 | the leading-zero count names the highest set bit of a non-zero word |
| Bits.LowestIsLowest | include/matchbook/level_bitmap.hpp:47-49 | the trailing-zero count names the lowest set bit of a non-zero word |
| Engine.DoValid | include/matchbook/matching_engine.hpp:520-702 | every operation keeps ids unique, each in exactly the queue the index names, and stop limits inside the band; the event tape only grows |
| Visitors.VisitOrders | include/matchbook/matching_engine.hpp:316-327 | the visitor meets the resting orders best price first and in queue order, skipping only empty levels |
| Visitors.VisitStops | include/matchbook/matching_engine.hpp:332-346 | the visitor meets the pending stops in trigger order, FIFO within a trigger |
| Visitors.VisitLevels | include/matchbook/matching_engine.hpp:287-308 | the bounded walk lists the best occupied levels, best first, with their displayed totals and counts; a level is left out only when there is no room for it behind better ones |
| Walks.TopIsUnique | include/matchbook/matching_engine.hpp:287-308 | there is exactly one such listing, so any two engines with the same queues show the same one |
| SweepLaws.MatchConservesTaker | include/matchbook/matching_engine.hpp:1109-1160 | incoming quantity equals what was traded plus the remainder |
| SweepLaws.MatchConservesMakers | include/matchbook/matching_engine.hpp:1109-1160 | displayed plus hidden size of the orders the taker may trade with drops by exactly what was traded |
| SelfTrade.MatchConservesSide | include/matchbook/matching_engine.hpp:1088-1160 | displayed plus hidden size on the opposite side drops by exactly the fills plus the size of the orders self-trade prevention cancelled |
| SelfTrade.MatchStrikesOwn | include/matchbook/matching_engine.hpp:1088-1102 | the taker's own size on the opposite side drops by exactly the size, reserve included, of the orders cancelled |
| SelfTrade.CancelsAreOwn | include/matchbook/matching_engine.hpp:1114-1121 | a sweep cancels only live orders of the opposite side that are the taker's own: none under cancel-taker, and under cancel-both only as its last event, when it is stopped |
| SelfTrade.StopCancelsLast | include/matchbook/matching_engine.hpp:1114-1121 | under cancel-both a sweep that is stopped has cancelled an order as its last event |
| SelfTrade.OrdersAreAccounted | include/matchbook/matching_engine.hpp:1088-1160 | each resting order accounts for itself over a sweep: another owner's is never cancelled and its size before is what it traded plus what is left of it; the taker's own never trades, and is either untouched or cancelled and gone |
| SweepLaws.MatchPrintsFairly | include/matchbook/matching_engine.hpp:1120-1130 | every print is at a limit a maker offered, within the taker's limit, of positive quantity, and never between equal nonzero owners |
| SweepLaws.MatchPrintsMonotone | include/matchbook/matching_engine.hpp:1058-1087 | along a sweep no later print is at a better price than an earlier one |
| Reach.TimePriority | include/matchbook/matching_engine.hpp:1103-1160 | before an order trades, every order displayed ahead of it (better price, or same price and earlier) has traded all it displayed, or is the taker's own and has been cancelled |
| Reach.ClipsRequeue | include/matchbook/matching_engine.hpp:1127-1148 | before an order trades beyond its first displayed clip, every order its level displayed behind it has traded all it displayed, or is the taker's own and has been cancelled |
| Reach.PricePriority | include/matchbook/matching_engine.hpp:1058-1087 | before a worse price prints, every order at a better one has traded its whole size, hidden reserve included, or is the taker's own and has been cancelled |
| Reach.MatchReaches | include/matchbook/matching_engine.hpp:1058-1160 | the sweep trades exactly what an independent measure of the book says is executable, capped by its quantity, and is stopped by self-trade prevention exactly when it wants more than lies in front of the wall |
| Matching.MatchExhausts | include/matchbook/matching_engine.hpp:1058-1087 | matching stops only when filled, stopped by self-trade prevention, or out of reach |
| Matching.MatchFrame | include/matchbook/matching_engine.hpp:1058-1160 | matching touches one side only, keeps the index exact, moves no order between levels and only appends to the tape |
| Reach.FillableIsExecutable | include/matchbook/matching_engine.hpp:1034-1056 | with no own order within the limit the feasibility sum equals what the sweep can execute |
| FillOrKill.FokAllOrNothingIff | include/matchbook/matching_engine.hpp:536-539 | a continuous FOK is all-or-nothing exactly when the check refuses it, or the book can fill it whole, or nothing is executable under cancel-taker |
| FillOrKill.FokIsAllOrNothing | include/matchbook/matching_engine.hpp:127-131 | with no own order within the limit an FOK trades nothing and changes nothing, or fills whole |
| FillOrKill.OwnOrderBreaksFok | include/matchbook/matching_engine.hpp:127-131 | with its owner's sell of 5 alone on the book (a state OwnSellReached reaches), a cancel-maker fill-or-kill buy of 5 passes the check, cancels that sell and is killed untraded: not all-or-nothing |
| OrderTypes.AmendDownKeepsPriority | include/matchbook/matching_engine.hpp:682-686 | a modify at the same price and no larger keeps the order's place in its queue, alters only its own size and says nothing |
| OrderTypes.ShaveTakesReserveFirst | include/matchbook/matching_engine.hpp:628-648 | a reduction eats the hidden reserve before the displayed clip |
| OrderTypes.CancelTouchesNothingElse | include/matchbook/matching_engine.hpp:615-626 | a cancel leaves every other live order, resting or pending, as it was and where it was |
| OrderTypes.NothingTradesWhileHalted | include/matchbook/matching_engine.hpp:206-213 | while halted no call but an uncross or a resume trades or moves the last price |
| Entries.EntryOutcome | include/matchbook/matching_engine.hpp:520-546 | in continuous trading a limit or iceberg order is accepted under the next id and trades exactly what is executable at its price or better for its side, owner and policy; a fill-or-kill of more than the size priced within its limit and a post-only that would meet anything are killed unseen; only a good-till-cancelled or post-only rests, exactly the remainder, last at its price, showing its display when the remainder exceeds that and hiding the rest, unless its own owner's orders stopped it |
| Entries.HaltedEntryOutcome | include/matchbook/matching_engine.hpp:583-610 | during a halt only a good-till-cancelled order stays: whole, untraded, last at its price, an iceberg showing its display; any other is killed unseen |
| Entries.BadEntryIsRejected | include/matchbook/matching_engine.hpp:520-525 | an order priced out of the band, of nothing, or an iceberg showing nothing is rejected under no id and changes nothing |
| Entries.MarketOutcome | include/matchbook/matching_engine.hpp:548-560 | a market order trades exactly what is executable at any price of the band for its owner and policy, answers with what it could not trade and leaves nothing behind |
| Entries.MarketTakesAll | include/matchbook/matching_engine.hpp:548-560 | of no owner, it trades the whole of the other side up to its quantity, hidden reserve included, and answers with the excess |
| Entries.HaltedMarket | include/matchbook/matching_engine.hpp:548-552 | during a halt a market order is rejected with all its quantity |
| Amends.CancelOutcome | include/matchbook/matching_engine.hpp:615-626 | a cancel takes exactly that order out of its queue, displayed or pending, and says so; nothing else moves |
| Amends.ReduceOutcome | include/matchbook/matching_engine.hpp:628-660 | a reduction shaves the reserve first and the clip in place after that; one by the whole size or more takes the order out and still answers yes; neither is told to the handler |
| Amends.ModifyInPlace | include/matchbook/matching_engine.hpp:662-686 | a modify to nothing is a cancel, to a price out of the band is refused, and to its own price and no more than its size is a reduction |
| Amends.PendingStopsStay | include/matchbook/matching_engine.hpp:628-668 | a pending stop cannot be reduced, nor modified to anything but nothing |
| Amends.DeadIdIsRefused | include/matchbook/matching_engine.hpp:615-668 | of an id that is not live a cancel, a reduction and a modify answer no and change nothing |
| Amends.ReplaceOutcome | include/matchbook/matching_engine.hpp:687-702 | to another price or a larger size the order leaves as if cancelled and re-enters good-till-cancelled under its id, owner, policy and display: it trades exactly what is executable without it, and the remainder rests last at the new price, showing its display when it exceeds that |
| Icebergs.SweepUnveils | include/matchbook/matching_engine.hpp:1109-1160 | when a sweep meets another owner's order it prints what both have at the maker's price; a clip that lasts shrinks in place, one used up is followed by one of the peak or of all that is left, whichever is less, last in the queue and announced, the rest staying hidden; an order with nothing left goes |
| Icebergs.AuctionUnveils | include/matchbook/matching_engine.hpp:712-748 | one auction print takes its quantity off both best orders, displayed clip first and then reserve, and a fresh clip of either shows exactly the peak or all that is left, whichever is less |
| Icebergs.NeverShowsMore | include/matchbook/matching_engine.hpp:1162-1180 | over every run no iceberg shows more than its peak, and nothing but an iceberg hides anything |
| LastTrade.LastIsLatest | include/matchbook/matching_engine.hpp:1109-1123 | over every run the last trade, which arms stops and breaks auction ties, is the price of the latest print on the tape |
| Auction.ClearingIsOptimal | include/matchbook/matching_engine.hpp:774-803 | no band price clears better: most volume, then least imbalance, then nearest the last trade, then lowest |
| Auction.UncrossExecutesMaximum | include/matchbook/matching_engine.hpp:228-236 | the uncross executes exactly the maximum over all band prices of min(demand, supply), hidden reserve included, and nothing when nothing overlaps |
| Auction.UncrossUncrosses | include/matchbook/matching_engine.hpp:800-829 | from every state the uncross leaves the book strictly uncrossed |
| Auction.UncrossPrints | include/matchbook/matching_engine.hpp:805-829 | every print is at the one clearing price between a bid limited at or above it and an ask limited at or below it; the printed total is the returned quantity |
| Auction.CrossStepShape | include/matchbook/matching_engine.hpp:805-829 | each step of the crossing loop removes at least one order, so the loop ends |
| AuctionCall.UncrossOutcome | include/matchbook/matching_engine.hpp:750-830 | the uncross returns what it traded, the most any price of the band could execute; the price it leaves as the last trade executes that much, and no price that executes as much has a smaller imbalance, or the same and nearer the last trade before, or the same and lower |
| Safety.StepValid | include/matchbook/matching_engine.hpp:503-516 | every call ends with no armed stop pending in continuous trading, and keeps an uncrossed continuous book uncrossed unless it resumes a crossed one |
| Safety.RunIsSafe | include/matchbook/matching_engine.hpp:503-516 | over every run in which continuous trading resumes only on an uncrossed book: ids unique, no armed stop left pending, never locked or crossed |
| Safety.AuctionCycleIsSafe | include/matchbook/matching_engine.hpp:222-242 | from every valid state, uncross then resume ends in safe continuous trading |
| Safety.ResumeIsSafeIff | include/matchbook/matching_engine.hpp:218-224 | resuming an uncrossed book is safe whatever stops fire; when no stop is armed by the last trade it is safe exactly then |
| Safety.ResumeCanCross | include/matchbook/matching_engine.hpp:218-224 | two overlapping orders entered in a halt stand crossed after a bare resume |
| Safety.PumpSettles | include/matchbook/matching_engine.hpp:1011-1032 | the stop cascade terminates with nothing armed, and keeps an uncrossed book uncrossed |
| StopCascade.FiredWereArmed | include/matchbook/matching_engine.hpp:984-993 | every stop the cascade fires was armed by the last trade at that moment |
| StopCascade.CascadeInTriggerOrder | include/matchbook/matching_engine.hpp:981-993 | within one pump buy triggers never go down and sell triggers never go up |
| StopCascade.CascadeIsFifo | include/matchbook/matching_engine.hpp:981-993 | each trigger level fires first in, first out; what fired followed by what is left is the original queue |
| StopOrders.StopWaits | include/matchbook/matching_engine.hpp:562-581 | a stop submitted during a halt or with its trigger not reached stands at its submitted trigger, last in that queue, with the submitted quantity, owner, policy, kind and limit; nothing else moves |
| StopOrders.StopFiresAtOnce | include/matchbook/matching_engine.hpp:572-577 | with its trigger reached in continuous trading a stop is never left pending: a market stop trades what is executable at any price, a stop-limit what is within its limit, its remainder resting last there |
| StopOrders.BadStopIsRejected | include/matchbook/matching_engine.hpp:562-569 | a stop with its trigger or limit out of the band, or of nothing, is rejected under no id and changes nothing |
| StopOrders.CascadeFiresTheDue | include/matchbook/matching_engine.hpp:984-1009 | each stop the cascade fires is the first at its trigger, its trigger reached by the last trade, none of its side nearer, and if a sell no buy reached; it then trades exactly what is executable for it as a market order, or as a good-till-cancelled limit at its limit |
| StopHistory.FiresAtItsTrigger | include/matchbook/matching_engine.hpp:981-1009 | over every run a stop that fires was submitted, the last trade has reached the trigger it was submitted with, and it does what was then asked |
| StopHistory.PendingIsNotReached | include/matchbook/matching_engine.hpp:1011-1032 | over every run a stop pending in continuous trading stands at its submitted trigger as it was submitted, and the last trade has not reached it |
| FeedRuns.CallMirrorsIff | include/matchbook/itch_publisher.hpp:67-139 | after any publisher call the rebuilt engine shows the identical displayed book, except exactly after an uncross that leaves a live clip announced off its limit; FeedCalm gives the condition before the call |
| FeedRuns.RunMirrorsIff | include/matchbook/itch_publisher.hpp:14-45 | over a run that resumes only on uncrossed books, the rebuilt book equals the displayed one at every point if and only if no uncross leaves a live clip announced off its limit |
| RoundTrip.RoundTrips | include/matchbook/itch_publisher.hpp:1-12 | from a fresh venue the engine rebuilt from the published messages has the same levels, quantities and queue order, and has itself never traded |
| RoundTrip.SameTop | include/matchbook/itch_book_builder.hpp:1-12 | engines with the same display give the same top of the book at every depth |
| RoundTrip.CrossedResumeBreaksFeed | include/matchbook/itch_publisher.hpp:14-45 | resumed on a crossed book, a five-call run with no auction breaks the mirror: the rebuilt engine trades a replenished clip |
| FeedCross.UncrossMirrorsIff | include/matchbook/itch_publisher.hpp:129-140 | the exact condition for a call auction to keep the feed true |
| FeedCalm.CalmKeepsLimits | include/matchbook/matching_engine.hpp:712-748 | if at no level away from the clearing tick the auction stops in the middle of its icebergs, read off the book before the call, then no clip is announced off its limit |
| FeedCalm.CalmIff | include/matchbook/matching_engine.hpp:712-748 | that condition before the call is exact unless the auction stops in the middle of the icebergs of a level away from the clearing tick that has one standing before its last order; levels it does not stop in may hold anything |
| FeedCalm.CalmRoundTrips | include/matchbook/itch_publisher.hpp:1-12 | the round trip under conditions a caller can check before each call: resume on uncrossed books, uncross on calm ones |
| RoundTrip.AuctionBreaksFeed | include/matchbook/matching_engine.hpp:712-737 | a bid iceberg of 12 showing 5 at 102 against an ask of 5 at 99 leaves the consumer with a clip at 99 for an order at 102 |
| FeedSync.MatchFollows | include/matchbook/itch_publisher.hpp:215-243 | through a whole sweep, replenished clips and self-trade cancels included, the rebuilt book stays equal to the displayed one |
| FeedSync.PumpFollows | include/matchbook/itch_publisher.hpp:215-268 | through a whole stop cascade the rebuilt book stays equal to the displayed one |
| FeedSync.SyncedReload | include/matchbook/itch_publisher.hpp:215-243 | a clip dying by execution and the next one announced under a fresh reference land the rebuilt order at the back of its level |
| FeedRuns.SyncedReduce | include/matchbook/itch_publisher.hpp:98-115 | the wrapper's diff of the displayed quantity recovers a silent amend: shrink, removal, or a reserve-only change that is rightly invisible |
| FeedRuns.PhaseCall | include/matchbook/itch_publisher.hpp:119-126 | halting and resuming keep both books equal, stops fired by the resume included |
| FeedMirror.MirrorAdd | include/matchbook/itch_book_builder.hpp:22-26 | an Add that cannot match rests at the back of the same level in the rebuilt engine |
| FeedMirror.MirrorConsume | include/matchbook/itch_book_builder.hpp:27-37 | an execution or cancel of all that is displayed removes the right rebuilt order and no other |
| FeedMirror.MirrorShrink | include/matchbook/itch_book_builder.hpp:27-37 | a partial execution or cancel shrinks the right rebuilt order in place |
| FeedMirror.MirrorDelete | include/matchbook/itch_book_builder.hpp:38-44 | a Delete removes the right rebuilt order and forgets its reference |
| FeedReplace.MirrorReplace | include/matchbook/itch_book_builder.hpp:45-57 | a venue that replaces a displayed order under a new reference is followed: the rebuilt book shows it at the new price and quantity, in place when it stays at its price and does not grow, else last there, found under the new reference only |
| FeedReplace.ReplaceRebinds | include/matchbook/itch_book_builder.hpp:45-57 | a Replace of an unknown reference does nothing; refused by the engine it changes nothing; taken, the new reference names the order the old one named, the old one is forgotten and every other stays |
| FeedReplace.ReplaceStands | include/matchbook/itch_book_builder.hpp:45-57 | where the new price meets nothing the replaced order stands exactly at that price with that quantity, in place or last, and every other order stays |
| FeedReplace.ReferenceActs | include/matchbook/itch_book_builder.hpp:27-44 | an execution, a priced execution and a cancel reduce exactly the order the reference names, a delete cancels it and forgets the reference, an unknown reference does nothing |
| FeedReplace.ReplayBuilds | include/matchbook/itch_book_builder.hpp:15-69 | whatever messages it is fed, a builder's engine holds no stop, no owner and nothing hidden |
| FeedReplace.NewBuilds | include/matchbook/itch_book_builder.hpp:15-17 | a new builder over an empty engine is such a one |
| FeedShadow.HitShadows | include/matchbook/matching_engine.hpp:712-748 | where the consumer believes each order stands stays tied to the real book through an auction fill |
| FeedJoin.SnapshotMirrors | include/matchbook/itch_publisher.hpp:142-175 | a snapshot taken while halted or uncrossed rebuilds the displayed book in queue order, under the live references, on an empty engine |
| FeedJoin.LateJoin | include/matchbook/itch_publisher.hpp:142-175 | whenever the publisher's references are exact (every reachable state, by RunServable), snapshot plus everything published from there on ends with the displayed book, whatever earlier messages did to other consumers' books |
| FeedJoin.JoinThroughPackets | include/matchbook/mold_udp64.hpp:94-119 | the same through packets: a tracker started at the snapshot's sequence number, fed any packets, lost, duplicated, overlapping or reordered, with no gap counted: as soon as it stands at the end of what any prefix of the calls published, snapshot plus the blocks it let through show exactly the displayed book after that prefix |
| FeedServe.RunServable | include/matchbook/itch_publisher.hpp:215-268 | over every run of calls, resumes on crossed books and clips announced off their limit included, the publisher's references are exactly the displayed orders, each its own, with the displayed quantities |
| FeedServe.CallTold | include/matchbook/itch_publisher.hpp:64-140 | every single call keeps them so, an uncross of a crossed continuous book and the stops it fires included |
| FeedJoin.AnySnapshotServes | include/matchbook/itch_publisher.hpp:142-175 | after any run of calls on a fresh venue, a snapshot taken while halted or uncrossed rebuilds the displayed book |
| FeedJoin.AnyoneJoins | include/matchbook/itch_publisher.hpp:142-175 | after any run of calls on a fresh venue a joiner starting from such a snapshot is in step with the later stream through packets |
| FeedJoin.PublishRunAfter | include/matchbook/itch_publisher.hpp:177-183 | what is published later does not depend on what was drained before |
| FeedClasses.FeedPublisher.Call | include/matchbook/itch_publisher.hpp:64-140 | a publisher call steps the wrapped engine and publishes what the publishing function says |
| FeedClasses.FeedPublisher.ModifyOrder | include/matchbook/itch_publisher.hpp:101-108 | the modify wrapper publishes events or a diff, never both |
| FeedClasses.FeedPublisher.UncrossOrders | include/matchbook/itch_publisher.hpp:129-140 | the uncross wrapper publishes per-order executions and one closing cross print when something executed |
| FeedClasses.FeedPublisher.OnEvent | include/matchbook/itch_publisher.hpp:215-268 | each engine event becomes its messages and reference bookkeeping, and book events are noted |
| FeedClasses.FeedPublisher.TakeMessages | include/matchbook/itch_publisher.hpp:177-183 | successive takes concatenate to everything published |
| FeedClasses.FeedPublisher.TakeSnapshot | include/matchbook/itch_publisher.hpp:157-175 | the snapshot walk yields the best-first Adds and the sequence number to splice in at |
| FeedTrades.CallPrints | include/matchbook/itch_publisher.hpp:226-243 | the executions one call publishes are its trades, one for one and in order, each for its quantity under its maker's reference; reductions and cancellations print none |
| FeedTrades.RunVolume | include/matchbook/itch_publisher.hpp:226-243 | over every run without an auction the volume the feed prints is the volume the engine traded |
| FeedTrades.AuctionPrints | include/matchbook/itch_publisher.hpp:129-142 | an uncross during a halt that trades nothing publishes nothing; one that trades prints its executions and fresh clips at the price it cleared at and closes with one cross print of the quantity it returns at that price |
| FeedTrades.CancelIsTold | include/matchbook/itch_publisher.hpp:258-267 | a cancelled displayed order is told by a delete of its reference, any other by nothing |
| FeedTrades.ReduceIsTold | include/matchbook/itch_publisher.hpp:269-287 | a reduction is told by a delete when it takes the whole order, by a shrink of what the clip lost when it reaches the clip, and by nothing when the reserve absorbs it |
| FeedTrades.PhaseIsToldFirst | include/matchbook/itch_publisher.hpp:119-126 | a halt or a resume is told before anything it sets off |
| FeedClasses.BookBuilder.Apply | include/matchbook/itch_book_builder.hpp:20-69 | applying a message steps the wrapped engine and the reference map as the rebuilding function says, a refused Replace leaving the old reference in force; `ReplaceRebinds` and `ReferenceActs` say what each message does to reference and order |
| FeedClasses.ApplyAll | include/matchbook/itch_book_builder.hpp:20-69 | applying a stream message by message is the replay of the stream |
| RiskGates.KillFlattens | include/matchbook/risk_gate.hpp:176-190 | from any state between calls, cancelling every visited id leaves no resting order and no pending stop, emits exactly one cancel per previously live id and nothing else |
| Walks.AllIdsExact | include/matchbook/matching_engine.hpp:310-346 | the visitors together meet every live id exactly once |
| Safety.CancelArmsNothing | include/matchbook/matching_engine.hpp:615-626 | a cancel can arm no stop |
| RiskGates.RiskGate.KillAndCancelAll | include/matchbook/risk_gate.hpp:178-190 | the method throws the switch and flattens as above |
| RiskGates.KilledStaysFlat | include/matchbook/risk_gate.hpp:10-12 | after kill-and-flatten the books stay empty and silent under every further sequence of calls |
| RiskGates.RiskGate.Call | include/matchbook/risk_gate.hpp:90-166 | a gated call is the gate function: counted, judged in the stated order, then passed on unchanged or refused with the engine untouched |
| RiskGates.UnlimitedIsTransparent | include/matchbook/risk_gate.hpp:39-41 | a gate with default limits leaves the engine exactly as a bare engine over every run |
| RiskGates.ReductionIsNeverBlocked | include/matchbook/risk_gate.hpp:31-34 | cancel, reduce, halt, resume and uncross pass whatever the limits, budget and switch |
| RiskGates.BudgetBoundsFlow | include/matchbook/risk_gate.hpp:13-15 | within a window no more new flow passes than the message budget allows, cancels and reductions eating into it |
| RiskGates.BudgetAcrossWindows | include/matchbook/risk_gate.hpp:14-15 | over any number of windows no more new flow passes than that many budgets, whatever was used up before the first |
| RiskGates.RiskGate.NewWindow | include/matchbook/risk_gate.hpp:169 | a new window starts its message count from zero and changes nothing else |
| RiskGates.OpenOrdersCapped | include/matchbook/risk_gate.hpp:26 | resting orders plus pending stops never exceed the cap over any run, stop cascades and replaces included |
| Walks.OpenIsLive | include/matchbook/matching_engine.hpp:348 | open_orders is the number of live ids |
| RiskGates.StepGrows | include/matchbook/matching_engine.hpp:520-702 | only a submission adds a live id, and only its own |
| RiskGates.RiskGate.AdmitOrder | include/matchbook/risk_gate.hpp:264-278 | the first failing check, in the documented order, is the recorded reason |
| RiskGates.NotionalIsExact | include/matchbook/risk_gate.hpp:237-241 | the division form of the notional check refuses exactly the orders whose price times quantity exceeds the cap |
| RiskGates.AdmittedIff | include/matchbook/risk_gate.hpp:262-278 | priced flow passes exactly when every enabled limit holds of it |
| GateOutcomes.SubmissionOutcome | include/matchbook/risk_gate.hpp:88-127 | a submission reaches the engine exactly when it breaches no limit, judged on its own quantity, value, price, side and owner; refused, the engine never hears of it, the sender is told in the engine's own way, and the first breach in the order of the checks is recorded and counted |
| GateOutcomes.ModifyOutcome | include/matchbook/risk_gate.hpp:144-155 | a modify passes exactly when neither switch nor budget refuses it and its new quantity, value and price keep their limits, unless it asks for nothing |
| Positions.PositionsAreNetFills | include/matchbook/risk_gate.hpp:196-199 | over every run through a new gate in which no modify re-enters an order of another sender than the last, each owner's position is the net of the fills of the orders that owner sent |
| Positions.CallTalliesIff | include/matchbook/risk_gate.hpp:297-311 | one call keeps the positions the senders' net fills exactly when it is not such a modify: the re-accept files the order under the last submission's owner |
| Positions.MisreadReached | include/matchbook/risk_gate.hpp:144-155 | three calls get there: two owners bid, and the first one's bid is asked to grow |
| SpscRing.EveryInterleavingIsFifo | include/matchbook/spsc_ring.hpp:27-47 | over every interleaving of the two threads' accesses, also under index wrap-around: cached_tail <= tail <= cached_head <= head <= cached_tail + capacity, popped is a prefix of pushed, and no unread slot is overwritten |
| SpscRing.FeedKeepsInv | include/matchbook/spsc_ring.hpp:27-36 | every producer access keeps the ring invariant |
| SpscRing.DrainKeepsInv | include/matchbook/spsc_ring.hpp:38-47 | every consumer access keeps the ring invariant |
| SpscRing.ExitMeansAllPopped | tools/replay_main.cpp:92-101 | the replay loop exits only after popping everything the feeder had to push |
| SpscRing.ShutdownCompletes | tools/replay_main.cpp:92-101 | once the done flag is up, every schedule that runs the consumer often enough ends its loop with the whole feed popped |
| SpscRing.FairScheduleDeliversAll | tools/replay_main.cpp:57-111 | from the start, every schedule that can be cut into enough stretches in each of which both threads run ends the consumer's loop with the whole feed popped |
| SpscRing.Ring.TryPush | include/matchbook/spsc_ring.hpp:27-36 | a push fails exactly when the ring is full and otherwise appends |
| SpscRing.Ring.TryPop | include/matchbook/spsc_ring.hpp:38-47 | a pop fails exactly when the ring is empty and otherwise hands out the oldest value |
| MoldUdp64.PacketRoundTripsIff | include/matchbook/mold_udp64.hpp:36-80 | a packet decodes to the same session, payloads and consecutive numbers exactly when it has fewer than 65535 blocks |
| MoldUdp64.EmptyPackets | include/matchbook/mold_udp64.hpp:82-90 | heartbeat and end-of-session packets deliver nothing and are told apart |
| MoldUdp64.BlocksAreInside | include/matchbook/mold_udp64.hpp:47-54 | on any bytes, each payload delivered is a stretch of the packet, behind its own length and behind the blocks before it |
| MoldUdp64.BlocksAreNumbered | include/matchbook/mold_udp64.hpp:47-54 | on any bytes, blocks are numbered consecutively, as many as announced exactly when the packet is not malformed |
| MoldUdp64.DecodePacket | include/matchbook/mold_udp64.hpp:36-54 | the moving-offset loop delivers what the recursive reading says |
| MoldUdp64.EncodePacket | include/matchbook/mold_udp64.hpp:67-80 | the encoder appends the packet to whatever the buffer held |
| MoldUdp64.AccountingIsExact | include/matchbook/mold_udp64.hpp:92-121 | for every packet sequence, delivered block numbers strictly increase and delivered plus given up equals expected minus the start |
| MoldUdp64.NoGapMeansAll | include/matchbook/mold_udp64.hpp:97-106 | without a gap every block from the start on is applied exactly once |
| MoldUdp64.LateStartSkips | include/matchbook/mold_udp64.hpp:101-107 | a tracker skips every sequence of packets that all end before its start, unmoved and counting no gap |
| MoldUdp64.SequenceTracker.Hear | include/matchbook/mold_udp64.hpp:108-117 | one packet moves expected and gap, and answers the number of leading blocks to skip |
| ItchCodec.CodecRoundTripsIff | include/matchbook/itch_parser.hpp:45-109 | parsing an encoded message returns its tracked fields, the printed price of an execution included, exactly when they fit 32 and 64 bits |
| ItchCodec.SplitUndoesStream | include/matchbook/itch_encode.hpp:130-134 | a length-framed stream splits back into the same bodies |
| ItchCodec.ReadStream | tools/replay_main.cpp:56-61 | the read loop yields the split of the file, a truncated tail dropped |
| ItchCodec.WireIsTransparent | include/matchbook/itch_encode.hpp:1-13 | encoded, framed, split and parsed, a stream has on the consumer's engine the effect of the messages themselves |
| FeedBounds.PublishedFits | include/matchbook/itch_encode.hpp:18-33 | on a band inside 32 bits, with submitted quantities below 2^32 and fewer than 2^64 references given out, every message of every run fits its fields, an execution's price included |
| FeedBounds.StepKeeps | include/matchbook/matching_engine.hpp:520-702 | no call makes an order, a print or an announcement larger than what was submitted, or prices one outside the band |
| FeedBounds.RoundTripsOverTheWire | include/matchbook/itch_encode.hpp:1-13 | the round trip from a fresh venue holds through encoding, framing, splitting and parsing |
| ItchCodec.PutMessage | include/matchbook/itch_encode.hpp:36-128 | pushing a message field by field appends its encoding |
| Wire.FitsIff | include/matchbook/itch_encode.hpp:18-33 | a number survives a big-endian field of n bytes exactly when it is in range |
| Layouts.AddLayout | include/matchbook/itch_encode.hpp:44-54 | Add Order: 36 bytes, reference at 11, side at 19, shares at 20, stock at 24, price at 32, big-endian |
| Layouts.ExecuteLayout | include/matchbook/itch_encode.hpp:56-64 | Order Executed: 31 bytes, reference at 11, shares at 19, match number at 23 |
| Layouts.CancelLayout | include/matchbook/itch_encode.hpp:78-91 | Order Cancel: 23 bytes, reference at 11, shares at 19; Order Delete: 19 bytes, reference at 11 |
| Layouts.VenueLayout | include/matchbook/itch_encode.hpp:108-129 | Cross Trade: 40 bytes, shares at 11, stock at 19, price at 27, match number at 31, cross type at 39; Trading Action: 25 bytes, stock at 11, state at 19 |
| Layouts.FrameLayout | include/matchbook/itch_encode.hpp:131-134 | a framed body stands behind its length in two bytes |
| Layouts.ExecuteAtLayout | include/matchbook/itch_encode.hpp:66-76 | Order Executed With Price: 36 bytes, reference at 11, shares at 19, match number at 23, printable at 31, price at 32 |
| Layouts.ReplaceLayout | include/matchbook/itch_parser.hpp:88-96 | Order Replace: 35 bytes, old reference at 11, new one at 19, shares at 27, price at 31 |
| Layouts.ReadsOnlyWhole | include/matchbook/itch_parser.hpp:45-109 | a body is read exactly when its kind is tracked and it is long enough; an Add with attribution reads as one without; only a halt and a resume of trading reach the book |
| Layouts.PacketLayout | include/matchbook/mold_udp64.hpp:67-93 | a packet holds its session, sequence number and count at 0, 10 and 18, then each message behind its length; the end of a session counts all ones |
| Layouts.EnterLayout | include/matchbook/ouch.hpp:99-113 | Enter Order: 36 bytes, token at 1, side at 15, shares at 16, price at 20, time in force at 28, display at 29, owner at 33, policy at 35, with the enumeration values of the format |
| Layouts.AmendLayout | include/matchbook/ouch.hpp:115-129 | Replace Order: 41 bytes, tokens at 1 and 15, shares at 29, price at 33; Cancel Order: 15 bytes, token at 1 |
| Wire.PutBig | include/matchbook/itch_encode.hpp:22-33 | the shift loop appends the big-endian bytes |
| Wire.ReadBack64 | include/matchbook/itch_parser.hpp:39-41 | the 64-bit read undoes the 64-bit write wherever the field stands |
| Wire.ReadBack32 | include/matchbook/itch_parser.hpp:35-38 | the 32-bit read undoes the 32-bit write wherever the field stands |
| Wire.ReadBack16 | include/matchbook/itch_parser.hpp:32-34 | the 16-bit read undoes the 16-bit write wherever the field stands |
| Ouch.MessageServes | include/matchbook/ouch.hpp:316-330 | every well-formed message is answered; live tokens and ids stay one-to-one; burned tokens stay burned; it grants at most one token, never a known one |
| Ouch.FillsAreReported | include/matchbook/ouch.hpp:450-459 | the executions a message causes are the engine's fills, both sides of each and in order, every one under its own order's token |
| Ouch.SessionIsSound | include/matchbook/ouch.hpp:297-330 | a session on a fresh venue, whatever it is sent, answers every message, keeps tokens and ids one-to-one and grants no token twice |
| Ouch.TokensAreSingleUse | include/matchbook/ouch.hpp:297-304 | over every message sequence an accepted or replaced-in token is never granted again |
| Ouch.BurnedTokensStaySilent | include/matchbook/ouch.hpp:300-303 | a replaced-away token, the empty one included, is never heard of again except in a rejection |
| Ouch.ReplaceServes | include/matchbook/ouch.hpp:403-434 | a replace the engine takes is acknowledged before all executions its re-entry causes, none of them under the old token; otherwise it is rejected and nothing moves |
| OuchReplace.ReplacedButDeadIff | include/matchbook/ouch.hpp:403-470 | an accepted replace never reports its own order cancelled; the order is nevertheless gone with its quantity untraded exactly when the quantity asked is 0, or it re-enters continuous trading wanting more than lies in front of its owner's own orders |
| OuchReplace.ReplaceLosesIff | include/matchbook/matching_engine.hpp:662-702 | the same condition on the engine alone, stops or not: a modify it takes loses the order exactly then |
| OuchReplace.SessionNoStops | include/matchbook/ouch.hpp:99-163 | a session can enter no stop: from a venue without a pending one, no message sequence leaves one pending, so the session result above covers every session on a fresh venue |
| OuchReplace.OwnOfferKillsQuietly | include/matchbook/ouch.hpp:403-470 | a session replaces its bid up into its own offer: it hears Replaced, nothing else, and the order is dead |
| OuchReplace.ZeroQtyKillsQuietly | include/matchbook/ouch.hpp:403-470 | a session replaces its bid down to quantity 0: it hears Replaced, nothing else, and the order is dead |
| Ouch.EnterServes | include/matchbook/ouch.hpp:362-383 | an entry answers acceptance or rejection first, and a fresh token becomes known exactly when it is accepted; `EnterOutcome` says what it does to the book |
| Ouch.CancelServes | include/matchbook/ouch.hpp:385-401 | a cancel is always answered and grants nothing |
| Ouch.EntryStep | include/matchbook/matching_engine.hpp:520-546 | the engine announces an entry first, under the next id, and nothing later accepts or rejects |
| OuchOutcomes.EnterOutcome | include/matchbook/ouch.hpp:362-383 | a fresh token's order in continuous trading is accepted and bound, trades exactly what is executable at the message's side and price for its owner and policy; an immediate-or-cancel or fill-or-kill never stays live, a post-only never trades, and the remainder of the others rests last at the message's price showing its display |
| OuchOutcomes.HaltedEnterOutcome | include/matchbook/ouch.hpp:362-383 | during a halt a good-till-cancelled entry stays whole and untraded, and any other touches nothing |
| OuchOutcomes.BadEnterOutcome | include/matchbook/ouch.hpp:362-383 | an entry out of the band or of nothing is rejected for validation, binds nothing and moves nothing |
| OuchOutcomes.ReusedTokenOutcome | include/matchbook/ouch.hpp:362-369 | a known token entered again is rejected and moves nothing |
| OuchOutcomes.EnterNotices | include/matchbook/ouch.hpp:461-470 | after an entry its own order is reported killed on entry and any other cancelled by self-trade prevention, each under its own token, and no other cancellation is reported |
| OuchOutcomes.CancelMsgOutcome | include/matchbook/ouch.hpp:385-401 | a cancel takes out exactly the order its token names and reports it as asked for; with no live order behind the token it is rejected and moves nothing |
| OuchOutcomes.ReplaceMsgOutcome | include/matchbook/ouch.hpp:403-434 | a replace modifies the order its token names to the message's price and quantity; taken, the new token names it, the old one is burned and its own cancellation is not reported; refused, only the rejection happens |
| OuchOutcomes.SessionNumbered | include/matchbook/ouch.hpp:450-459 | over every session the executions are numbered 1, 1, 2, 2, 3, 3: both sides of a fill share the next match number |
| OuchGateway.Gateway.Receive | include/matchbook/ouch.hpp:321-330 | the session object serves each message as the session function says, whose effect `EnterOutcome`, `CancelMsgOutcome` and `ReplaceMsgOutcome` state |
| OuchGateway.Gateway.HandleReplace | include/matchbook/ouch.hpp:403-434 | the replace handler binds the new token up front and inserts the ack where the queue ended |
| OuchCodec.EnterRoundTrips | include/matchbook/ouch.hpp:99-163 | an encoded entry decodes to itself, its token space-padded |
| OuchCodec.ReplaceRoundTrips | include/matchbook/ouch.hpp:115-172 | an encoded replace decodes to itself, its tokens space-padded |
| OuchCodec.CancelRoundTrips | include/matchbook/ouch.hpp:124-176 | an encoded cancel decodes to itself, its token space-padded |
| OuchCodec.EchoIsFaithfulIff | include/matchbook/ouch.hpp:85-95 | a wire token is echoed as written exactly when it holds no NUL |
| OuchCodec.NulTokensLookAlike | include/matchbook/ouch.hpp:85-95 | two tokens the session keeps apart can look alike on the wire |

## Left out

- Integer width in the engine: quantities, ids and totals are unbounded naturals; a level or side sum is assumed to fit 64 bits, prices are unbounded integers inside the band. Widths are modelled where they matter: ring indices, packet counts and numbers, wire fields, bitmap words.
- Deferred event delivery, handler re-entrancy and exceptions (`include/matchbook/matching_engine.hpp:368-494`): the default mode is modelled, with the tape as the record of what the handler was told.
- Level heads and tails are kept in `Slab` beside the nodes, level totals in `LevelBook`; the source has both in one struct. Pointers are slot numbers.
- The stop books are allocated with the engine instead of on the first stop.
- `Pool`: chunk storage and address stability are not modelled; slots are numbers.
- Read-only queries at one price (`depth_at`, `hidden_at`, `stop_depth_at`, `order_count_at`): they only read the cached totals proved exact here.
- `FeedPublisher`: the events of a call are heard from the tape after the engine call returns, in the order emitted, instead of by callback; match numbers and stock symbols are left to the codec.
- The multi-symbol `VenueBookBuilder`, `Venue` registration and symbol padding: they route by symbol to the same single-book operations.
- CallMirrorsIff: assumes the continuous book is uncrossed, and `resume` is called on an uncrossed book; `CrossedResumeBreaksFeed` shows what happens otherwise, but no exact condition is given for crossed continuous books.
- CalmIff: where the auction stops in the middle of the icebergs of a level away from the clearing tick, and one of them stands before the last order, the condition before the call is sufficient (`CalmKeepsLimits`) and not claimed to be necessary: whether a displaced clip survives then depends on how the orders of the other side cut the fills.
- `RiskGate`: `set_limits` and `clear_kill` mid-run, and any claim that a position stays within its limit: resting orders are deliberately not counted.
- `SpscRing`: each atomic access and each slot access is one step of an interleaving; hardware memory ordering and cache-line padding are not modelled.
- `size_approx` as a third party sees it, zero-capacity rings and zero-length bitmaps.
- `SequenceTracker`: 64-bit overflow of the sequence number is excluded by precondition.
- `ItchCodec`: the 'F' and 'P' messages have no encoder here; the parser's 'F' case is modelled.
- `OuchCodec`: outbound encoders and decoders, which have the same fixed-width form as the inbound ones.
- Strategies, simulation, language bindings, benchmarks, sockets, file and command-line handling.
