# A verified model of a paper-trading arbitrage engine

The engine watches two or more venues that list contracts on the same games. It
matches the venues' listings of one game, looks for a yes contract and a no
contract that together cost less than the dollar one of them will pay, sizes a
ticket to the books and a budget, fills both legs against simulated per-venue
accounts or neither, settles the positions when the game is over, and mirrors
everything into a database that start-up reads back.

This project models that path and proves what it promises. The end-to-end
result is `Chain.MatchedTicketPays`: if the venues' listings were matched, the
detector found a ticket on the group and the router filled it, then for every
final score that does not land on the line, settling both legs at what the
venues' own rules pay leaves at least the promised profit, in cash and in
realized profit alike.

## How it is laid out

| component | files |
|---|---|
| contracts, listings and matching | `Meaning.dfy`, `Matcher.dfy` |
| quotes and the feed that delivers them | `QuoteBook.dfy`, `FeedRepair.dfy` |
| fees, sizes, detection, ranking, resizing | `Fees.dfy`, `Qty.dfy`, `ArbEngine.dfy`, `PairRanking.dfy`, `Sizing.dfy`, `EngineRuntime.dfy` |
| accounts, brokers and the atomic commit | `Ledger.dfy`, `LedgerRuns.dfy`, `PaperBroker.dfy`, `ExecutionRouter.dfy`, `Tickets.dfy`, `GuaranteedProfit.dfy` |
| ticket admission and shutdown | `TicketService.dfy`, `TicketAdmission.dfy`, `Drain.dfy` |
| settlement, persistence, cash levelling | `AutoSettle.dfy`, `VenueSettle.dfy`, `SettlementProtocol.dfy`, `Persistence.dfy`, `CashLevelling.dfy` |
| the end-to-end result | `Chain.dfy` |
| shared | `Common.dfy`, `Types.dfy` |

Services whose methods update fields are classes here too: the broker, the
router, the quote book, the two settlement services, the engine runtime, the
feed adapter and the shutdown counters. Each method's contract ties the new
state to a function of the old one, and the promises are proved about those
functions, over every run of the operations. Where coroutines interleave, the
protocol is a state machine whose events are the stretches between two awaits.

## What the proofs found

Some things the code or its documentation suggests do not hold as stated. Each
is kept as the code has it, with a concrete witness, the exact condition under
which it does hold, or both.

- The router's comment says a failed ticket leaves no trace. The rollback restores
  balances, positions, averages and realized profit, but not the carried fees:
  the snapshot omits them. A ticket whose legs are each affordable alone and not
  together leaves the first legs' fees behind
  (`Tickets.RolledBackTicketLeavesFees`). A failed ticket of buys leaves no trace
  exactly when no leg before the one that stopped it is charged a fee at the
  price it is shown (`Tickets.RollbackConservesExactly`), and a restart forgets
  what it left (`Persistence.RollbackIsForgotten`).
- A sell is never checked to be covered; it conserves money exactly when it is
  covered or priced at the average (`Ledger.SellConservesExactly`,
  `Ledger.UncoveredSellGains`).
- Paying exactly once needs writes to land in capture order. With nothing
  dropped, a balance captured before a settlement and landing after it loses the
  payout at the next restart (`SettlementProtocol.ReorderedBalanceLosesPayout`).
  `SettlementProtocol.ExactlyOnceIff` is the exact condition on the stored rows for
  every schedule of the two settlement services after a restart, and
  `SettlementProtocol.VenueOnlyIff` the one for the venue pass alone.
- The venue-result service closes a ghost position without paying it, but the
  price-based service never reads settlement records: if it settles before the
  venue pass has finished, it pays a second time
  (`SettlementProtocol.GhostOutcomes`, `SettlementProtocol.GhostArises`).
- The service that settles at venue results documents that a paid-out position
  with a record can always be closed unpaid, because the cash is already in the
  stored balance. That is so only if a later balance has landed
  (`SettlementProtocol.SettlementDropped`).
- A ticket that fills while a settlement of its outcome is on record, or on its way
  there, may be closed without being paid: a record is taken to mean that
  whatever is held was paid (`SettlementProtocol.LateFillIsClosedUnpaid`). A fill is
  paid on every schedule exactly when no record is coming
  (`SettlementProtocol.FillIsPaidExactly`, `SettlementProtocol.PaysAllExactly`), and
  whatever is filled when, no contract is lost to anything else
  (`SettlementProtocol.ContractsAccounted`).
- Two tickets checked before either commits can take a group to twice its cap,
  which is the bound for two (`TicketAdmission.TwoTicketsPassTheCap`,
  `TicketAdmission.ExposureBounded`); `TicketAdmission.TwoTicketsExactly` says
  exactly when two pass it.
- Levelling cash twice can move money again with five venues
  (`CashLevelling.FiveVenuesLevelTwice`). With a positive floor the second plan is
  empty exactly when the first left every payer, or every receiver, too little to
  move (`CashLevelling.LevelsOnceExactly`), and it never moves more than the first
  rounded or dropped (`CashLevelling.SecondPlanMovesLeftover`).
- Purging is invisible to every read that trades, but not to the read that
  reports stale quotes (`QuoteBook.WithAgeSeesPurge`), which agrees exactly while
  no purge has dropped the entry (`QuoteBook.WithAgeExactly`).
- The two venues' spread conventions agree on every result but one that lands on
  the line (`Meaning.ConventionsPartAtPush`).
- The detector divides by the ticket's stake, and raises exactly when both asks
  of an admissible pair are zero (`ArbEngine.RaisesExactly`,
  `ArbEngine.ZeroAsksRaise`). An evaluation that raises leaves the remaining
  groups of that quote unevaluated (`EngineRuntime.QuoteKeeps`).

## Reading the model

- Decimals are exact reals; rounding to 28 digits or to the stored precision is
  not modelled. Rounding that the code asks for (to a tick, to a cent) is.
- Venue, outcome, account, order and group ids are opaque tokens. A fresh order
  id is the next one of a counter rather than a random one.
- What the book shows an order, the clock, the venues' answers and the database's
  answers are parameters, different at every read unless a lemma says otherwise.
- Quotes satisfy 0 <= bid <= ask <= 1 and fee rates lie between 0 and 1; the
  second bound is exactly what makes a cheaper fill never dearer
  (`Fees.UnitCostMonotoneExactly`).

## Model

| member | source | states |
|---|---|---|
| Fees.FeeLinear | arbys/shared/fees.py:36-50 | price times size plus fee is the unit cost times the size, which is what lets one contract decide whether any size is profitable |
| Fees.UnitCostMonotone | arbys/shared/fees.py:47-50 | a fill at a lower price never costs more once its fee is added, although the fee itself can rise |
| Fees.UnitCostMonotoneExactly | arbys/shared/fees.py:54-82 | that holds at all prices if and only if the rate is at most one |
| Fees.SaleProceedsNonNegative | arbys/shared/fees.py:85-128 | a sale's fee never exceeds its proceeds |
| Qty.RoundsTowardZero | arbys/shared/qty.py:14-20 | rounding is toward zero on either side of it |
| Qty.RoundDownLargest | arbys/shared/qty.py:14-20 | rounding down gives the largest tick multiple not above a size |
| Qty.KnownMinIsMin | arbys/shared/qty.py:26-64 | unknown depths do not bound the size and the least known one does |
| Qty.TradeableQtyIsLargest | arbys/shared/qty.py:26-64 | zero if a leg is known empty, and otherwise the largest tick multiple that every known depth, the budget and the legacy ceiling allow |
| Qty.SizeWithinLimits | arbys/shared/qty.py:26-64 | a size above zero is within each known depth and never costs more than the budget |
| ArbEngine.DetectCrossVenueTwoLeg | arbys/shared/arb_engine.py:94-215 | raises if some admissible pair is free, finds nothing if and only if no pair is admissible, and otherwise returns the first of the most profitable pairs |
| ArbEngine.TryPair | arbys/shared/arb_engine.py:126-213 | one pair yields a ticket exactly when it is a priced yes and no on two venues, cheaper together than a dollar, with a size of at least the minimum |
| ArbEngine.ProfitIsEdgeTimesQty | arbys/shared/arb_engine.py:154-186 | a pair's profit is its per-contract edge times its size, so an admissible pair always profits |
| ArbEngine.PairWithinBounds | arbys/shared/arb_engine.py:161-186 | a pair's size is within both known depths and its stake within the budget |
| ArbEngine.PairIsWorth | arbys/shared/arb_engine.py:150-186 | a pair is sized at the largest multiple of its venues' coarsest tick that depth and budget allow, and is admissible exactly when that size is worth opening and costs less, fees included, than it pays |
| ArbEngine.DetectorOptimal | arbys/shared/arb_engine.py:94-215 | the ticket is sound for two of the group's legs and no admissible pair is more profitable |
| ArbEngine.RaisesExactly | arbys/shared/arb_engine.py:188-213 | the division by the stake fails exactly when an admissible pair has two zero asks |
| ArbEngine.DetectedUnique | arbys/shared/arb_engine.py:94-215 | what the detector returns is determined by what it reads, ties included |
| ArbEngine.DetectComplementarySet | arbys/shared/arb_engine.py:218-296 | the single-venue detector returns what its specification says on every input |
| ArbEngine.SetProfitIsEdge | arbys/shared/arb_engine.py:251-287 | a set's stake is its summed unit costs times its size, for any number of legs |
| ArbEngine.SetIsWorth | arbys/shared/arb_engine.py:229-286 | a single-venue set is sized likewise, and is found or raises exactly when it has two priced legs or more, a size worth opening, and costs less than it pays |
| ArbEngine.ComplementSound | arbys/shared/arb_engine.py:218-296 | a found set buys every leg at its ask, all of one size, and profits whichever single outcome pays, within every known depth and the budget |
| ArbEngine.RateIsProfitOverStake | arbys/shared/arb_engine.py:188-213 | the rate opportunities are ranked by is the profit per ten thousand of the stake, for tickets and sets alike |
| ArbEngine.ComplementRaisesExactly | arbys/shared/arb_engine.py:285-296 | the set detector's division by the stake fails exactly on an admissible set whose every ask is zero |
| ArbEngine.ZeroAsksRaise | arbys/shared/arb_engine.py:188-213 | a concrete market on which the cross-venue detector raises |
| PairRanking.ListCandidates | arbys/backend/app.py:453-502 | the view lists every eligible pair exactly once, in the order of its loops |
| PairRanking.BestFillableIsFirstMax | arbys/backend/app.py:154-158 | the row's pair is the first of the fillable pairs with the largest edge times size |
| PairRanking.BestPricedIsFirstMax | arbys/backend/app.py:159-161 | the fallback is the first maximum of the two-part key |
| PairRanking.UnfillableRowIsHonest | arbys/backend/app.py:121-161 | with nothing fillable, a row never names an empty pair while another has depth, and names the best price among those |
| PairRanking.DisplayAgreesWithDetector | arbys/backend/app.py:453-504 | the detector finds a ticket exactly when the row's pair is fillable, and both name the same outcomes, size and profit, ties included |
| PairRanking.UncappedIsDepth | arbys/backend/app.py:474-486 | the size before the cap is shown exactly when some depth is known, and is the largest tick multiple both known depths allow |
| PairRanking.UncappedAtLeastCapped | arbys/backend/app.py:474-498 | what the budget leaves on the table is never negative |
| Sizing.SizeToBankroll | arbys/shared/sizing.py:23-78 | the loops over legs and venues compute the specified resizing |
| Sizing.ScaleReads | arbys/shared/sizing.py:45-53 | the scale is the least of the venues' ratios, attained at one, and absent exactly when some venue has none |
| Sizing.ResizedWithinBankrolls | arbys/shared/sizing.py:23-78 | no venue is asked for more than its bankroll, the legs keep their prices, and every leg still pays at least stake plus profit |
| Sizing.SizedExactly | arbys/shared/sizing.py:23-78 | resizing gives nothing when a venue has no bankroll or is asked for nothing, and otherwise the ticket at the scale that uses up the tightest bankroll, each leg the largest tick multiple within it and its fee in proportion, refused exactly when a leg vanishes or the least leg pays no more than all are asked for |
| Sizing.SizeToMaxStake | arbys/shared/sizing.py:81-97 | a ticket within the stake is kept as it is, and any other is resized to shares of it |
| Sizing.CappedExactly | arbys/shared/sizing.py:81-97 | a ticket beyond the stake becomes itself at the stake's share of what it asks, rounded and judged as any resized one |
| Sizing.CappedWithinStake | arbys/shared/sizing.py:81-97 | a capped ticket never costs more than the stake |
| EngineRuntime.Engine.RegisterGroup | arbys/ingest/engine_runtime.py:58-61 | registering indexes every leg and keeps every group's stored set current |
| EngineRuntime.Engine.UnregisterGroup | arbys/ingest/engine_runtime.py:63-68 | removing a group, or an unknown one, leaves every other group indexed and current |
| EngineRuntime.Engine.ClearGroupOpportunities | arbys/discovery/service.py:439-442 | emptying a retired group's set touches no registered group |
| EngineRuntime.Engine.OnQuote | arbys/ingest/engine_runtime.py:70-73 | only the groups indexed for the outcome are evaluated; an evaluation raises exactly when some indexed group's does, and then only the groups not reached are not current |
| EngineRuntime.Engine.EvaluateNow | arbys/ingest/engine_runtime.py:75-127 | returns the cross-venue ticket and then each venue's set, against the current book, or raises exactly when a detector does |
| EngineRuntime.FailsExactly | arbys/ingest/engine_runtime.py:75-127 | evaluation raises exactly when an admissible pair, or an admissible set where sets are on, asks nothing for every leg |
| EngineRuntime.EvaluatedOn | arbys/ingest/engine_runtime.py:86-87 | a group is evaluated on the stored quote of each of its outcomes that has one, and on no other |
| EngineRuntime.SetsAreComplete | arbys/ingest/engine_runtime.py:109-126 | a set is offered exactly where detection finds one on a venue's two or more legs |
| EngineRuntime.Engine.SetGroupOpportunities | arbys/backend/state.py:1156-1175 | the stored set is replaced, emptied when nothing is found, and no other group's moves |
| EngineRuntime.UnregisterUndoes | arbys/ingest/engine_runtime.py:56-68 | registering files a group under its id and each of its outcomes, and removing it undoes that and nothing else |
| EngineRuntime.RegisterKeeps | arbys/ingest/engine_runtime.py:58-61 | registration, also of changed legs, keeps the invariant of the index and of the stored sets |
| EngineRuntime.UnregisterKeeps | arbys/ingest/engine_runtime.py:63-68 | so does removal, for every group that stays |
| EngineRuntime.QuoteKeeps | arbys/ingest/engine_runtime.py:70-136 | incremental detection equals recomputation for every group with a leg quoted since its registration that no raised evaluation has missed; a quote on which none raises misses none |
| EngineRuntime.EvaluationIsUnique | arbys/ingest/engine_runtime.py:75-127 | evaluating a group against one book has one result, so being current pins the stored set |
| EngineRuntime.VenuesOfReads | arbys/ingest/engine_runtime.py:109-111 | each venue of a group is evaluated once |
| EngineRuntime.LegsAtReads | arbys/ingest/engine_runtime.py:109-111 | on exactly its own legs |
| QuoteBook.Book.Upsert | arbys/shared/quotebook.py:64-92 | stores a quote at its own back-dated stamp unless it is older than the stored one by more than the tolerance |
| QuoteBook.LagCounts | arbys/shared/quotebook.py:64-103 | a quote new to the book is, at every later moment, as old as the time since it arrived plus the lag it came with, and trades exactly until that passes the limit |
| QuoteBook.RefusedExactly | arbys/shared/quotebook.py:78-92 | a quote for a stored outcome is refused exactly when, its lag counted, it is from before the stored one by more than the tolerance |
| QuoteBook.AllGoByAge | arbys/shared/quotebook.py:94-142 | the trading read, the snapshot and the purge all keep exactly the entries whose reported age is within the limit |
| QuoteBook.Book.Get | arbys/shared/quotebook.py:94-103 | answers None for an unknown or stale outcome and its latest quote otherwise |
| QuoteBook.Book.GetWithAge | arbys/shared/quotebook.py:111-118 | reports the stored quote and its age, stale or not |
| QuoteBook.Book.Snapshot | arbys/shared/quotebook.py:120-128 | contains exactly the fresh quotes |
| QuoteBook.Book.PurgeStale | arbys/shared/quotebook.py:130-137 | removes exactly the stale entries and counts them |
| QuoteBook.NeverRegresses | arbys/shared/quotebook.py:81-92 | no upsert moves a stamp back by more than the tolerance, a refused quote was older than that, and no other outcome is touched |
| QuoteBook.AgreeStep | arbys/shared/quotebook.py:64-142 | every call keeps a purging and a non-purging book in agreement, and answers alike on both |
| QuoteBook.PurgingIsInvisible | arbys/shared/quotebook.py:130-142 | over any calls on a monotonic clock, a book that purges and one that never does answer every trading read alike |
| QuoteBook.ClockStepsBack | arbys/shared/quotebook.py:49-59 | without a monotonic clock they can differ |
| QuoteBook.WithAgeExactly | arbys/shared/quotebook.py:111-118 | over any calls on any clock, the reporting read agrees with a book that never purges if and only if no purge has dropped the entry since its last accepted upsert |
| QuoteBook.WithAgeSeesPurge | arbys/shared/quotebook.py:111-118 | a concrete run in which they differ |
| FeedRepair.ShardsPartition | arbys/adapters/polymarket_us_ws.py:253-256 | sharding loses no market, repeats none and overfills no connection |
| FeedRepair.ShardsMakePlan | arbys/adapters/polymarket_us_ws.py:253-256 | every shard of distinct markets is distinct and within the adapter's markets |
| FeedRepair.Adapter.Connect | arbys/adapters/polymarket_us_ws.py:386-394 | a fresh subscription restarts the delivery clock of its shard's markets only, with a full repair budget |
| FeedRepair.Adapter.Deliver | arbys/adapters/polymarket_us_ws.py:417-447 | any quote restores the repair budget, only a recent one restores the reconnect budget, and an unknown market changes nothing |
| FeedRepair.Adapter.RepairSubscriptions | arbys/adapters/polymarket_us_ws.py:456-539 | a sweep asks again for what is dark, in batches, and may then give the connection up; with nothing dark it does nothing |
| FeedRepair.Adapter.MaybeEscalate | arbys/adapters/polymarket_us_ws.py:593-647 | the connection is dropped exactly when some market is stuck and the shard is not cooling down, and each stuck market is charged |
| FeedRepair.SweepAsksForDark | arbys/adapters/polymarket_us_ws.py:496-531 | exactly the markets with repairs left that have been silent past their deadline, the tighter one for those with priority, are asked for, and none is taken past its repairs |
| FeedRepair.EscalatesExactly | arbys/adapters/polymarket_us_ws.py:496-647 | a sweep gives the connection up exactly when something is newly dark, some market is stuck after the sweep's own repairs, and the shard is not cooling down |
| FeedRepair.SilenceIsTimed | arbys/adapters/polymarket_us_ws.py:386-447 | a market's silence is timed from its last frame on an open connection or its shard's last subscription, and nothing else |
| FeedRepair.ReconnectsAreCounted | arbys/adapters/polymarket_us_ws.py:541-647 | a market's reconnects go up by one when its connection is dropped while it is stuck, are cleared by a quote no older than the priority deadline, and otherwise stay |
| FeedRepair.RepairsAreCounted | arbys/adapters/polymarket_us_ws.py:386-539 | a connection opens with no repair tried, counts one for each market a sweep finds dark, is forgiven a market's by a frame that quotes it, and goes when lost or dropped |
| FeedRepair.ReconnectsBounded | arbys/adapters/polymarket_us_ws.py:593-647 | in every run no market's budget is exceeded, and reconnects number at most twice the markets plus live frames |
| FeedRepair.ReplayRestoresNothing | arbys/adapters/polymarket_us_ws.py:541-553 | a frame with only old quotes never restores the right to drop a connection |
| FeedRepair.CooldownSpacing | arbys/adapters/polymarket_us_ws.py:638-643 | one shard's reconnects are at least the cooldown apart |
| Meaning.FetchSpreads | arbys/discovery/polymarket_us.py:423-485 | lists every spread market whose sides are the event's teams in order and whose line is not zero and not contradicted by its title, lists nothing else, files each side under its team, and counts the accepted ones whose title matched no pattern |
| Meaning.KalshiListsExactly | arbys/discovery/kalshi_spreads.py:148-174 | a market whose ticker is written for one of the event's teams is listed exactly when it is a greater-than market on a positive strike, and a totals market exactly when it has one |
| Meaning.AnchorRoundTrip | arbys/discovery/kalshi_spreads.py:56-71 | a ticket suffix written for either team of the event is read back as that team, whatever the widths of the codes |
| Meaning.AnchorCodeNames | arbys/discovery/kalshi_spreads.py:148-174 | the team read off a ticker is the one it was written for |
| Meaning.ListingMeansProposition | arbys/discovery/polymarket_us.py:423-479 | for every listing of either venue and every result off the line, the outcome under the yes key pays exactly when the common proposition holds, and the other exactly when it does not |
| Meaning.HalfLinesNeverPush | arbys/discovery/kalshi_totals.py:145-172 | no whole-number result lands on a line that is not a whole number |
| Meaning.ConventionsPartAtPush | arbys/discovery/polymarket_us.py:384-398 | the long side of a positive line and the other venue's anchored NO agree on a result if and only if it is off the line |
| Matcher.SortIsChronological | arbys/discovery/matcher.py:154-158 | buckets are clustered in order of start, exact starts first |
| Matcher.Gather | arbys/discovery/matcher.py:219-231 | a cluster takes, for every venue with an unclaimed game of the same fixture, the nearest one, first among equals |
| Matcher.MatchBucket | arbys/discovery/matcher.py:202-250 | every game is claimed by some round, and the rounds with two venues or more are the matches |
| Matcher.MatchGames | arbys/discovery/matcher.py:177-250 | every key's bucket is clustered once, unless a single venue listed all of it |
| Matcher.EachGameOnce | arbys/discovery/matcher.py:232-233 | no game is in two clusters, nor twice in one |
| Matcher.ClusterIsNearest | arbys/discovery/matcher.py:216-231 | the anchor is in its own cluster, each member is its venue's and the same fixture, and no unclaimed candidate of that venue was nearer |
| Matcher.ClusterIsClose | arbys/discovery/matcher.py:106-122 | games of a cluster with known starts start within ninety minutes of the anchor's and others are within the date tolerance, no unclaimed game so close is left out, and of two on one venue the nearer is taken |
| Matcher.DiscardedHadNoPartner | arbys/discovery/matcher.py:234-235 | a discarded cluster had no unclaimed game of the same fixture on another venue, anywhere in the bucket |
| Matcher.FlatHolds | arbys/discovery/matcher.py:198-201 | every listing of every venue is bucketed, and no other |
| Matcher.UnderIsFilter | arbys/discovery/matcher.py:198-201 | a bucket holds exactly the listings with its key, each as often as it was listed |
| Matcher.KeysMeetExactly | arbys/discovery/matcher.py:161-174 | two listings share a bucket if and only if sport, kind of market, line and anchor agree and the two teams are the same in either order |
| Matcher.ClusteredExactly | arbys/discovery/matcher.py:198-206 | a listing's bucket is clustered if and only if another venue listed the same |
| Matcher.MatchIsSourced | arbys/discovery/matcher.py:236-250 | a match carries its anchor's terms, and only games under the anchor's key, each under its own venue |
| Matcher.EarliestIsLeast | arbys/discovery/matcher.py:42-49 | a group starts when the first venue to publish a start says |
| Matcher.GroupListsItsGames | arbys/discovery/matcher.py:264-290 | a group has a leg for every outcome its venues listed and no other, on the yes side exactly when filed under the yes key, and it has ended exactly when some venue says so |
| Matcher.SameProposition | arbys/discovery/matcher.py:161-174 | listings under one key are on one proposition whichever order they name the teams in |
| Matcher.LegPaysItsSide | arbys/discovery/matcher.py:264-279 | a leg of a matched group pays one exactly when its side is right, under the rules of the venue that lists it |
| Matcher.PayoutIsByTheRules | arbys/ingest/auto_settle_service.py:270 | what a settlement pays a leg of a matched group, given which side won, is what the venue's own rules pay it |
| Matcher.OpposingLegsHedge | arbys/discovery/matcher.py:27-40 | for every result off the line, any yes leg and any no leg of a group pay exactly one together |
| Ledger.SlipAgainstTaker | arbys/shared/paper_broker.py:193-200 | slippage moves a price against the taker by its basis points, up to the end of the scale |
| Ledger.ShareIsProportional | arbys/shared/paper_broker.py:436-451 | a partial close takes carried fees in proportion to what leaves, and a full one all of them |
| Ledger.BuyConserves | arbys/shared/paper_broker.py:292-296 | a buy moves cash into cost basis and carried fees, to the cent |
| Ledger.SellConservesExactly | arbys/shared/paper_broker.py:297-299 | a sell conserves contributed money if and only if it is covered or priced at the average |
| Ledger.UncoveredSellGains | arbys/shared/paper_broker.py:297-299 | a concrete sell of contracts nobody holds that makes money |
| Ledger.SettleConserves | arbys/shared/paper_broker.py:557-576 | settling moves cost basis and carried fees into cash and realized profit |
| Ledger.CloseUnpaidMoves | arbys/shared/paper_broker.py:525-555 | closing a ghost writes off exactly its cost and its fees |
| LedgerRuns.StepSound | arbys/shared/paper_broker.py:245-314 | every legal operation keeps cash and holdings from going negative, carries no fee on a closed position, and keeps realized profit the sum over outcomes |
| LedgerRuns.StepConserves | arbys/shared/paper_broker.py:122-138 | every legal operation moves contributed money by what it put in from outside |
| LedgerRuns.StepFeesOnce | arbys/shared/paper_broker.py:436-451 | no operation drops a fee or charges one twice: realized profit less carried fees moves by what was won less what was charged |
| LedgerRuns.LedgerConserved | arbys/shared/paper_broker.py:245-314 | over every run, cash plus cost basis plus carried fees less realized profit is net deposits, and cash is never overdrawn |
| LedgerRuns.FeesRealizedOnce | arbys/shared/paper_broker.py:424-451 | over every run each fee reaches realized profit once, and what has not is still carried |
| LedgerRuns.FlatAccountReconciles | arbys/shared/paper_broker.py:557-576 | once every position is closed, cash is net deposits plus realized profit, and realized profit is what was won less every fee |
| PaperBroker.Broker.Deposit | arbys/shared/paper_broker.py:122-124 | adds to one account's cash and to nothing else |
| PaperBroker.Broker.Withdraw | arbys/shared/paper_broker.py:126-138 | succeeds exactly for a positive amount within free cash, and otherwise moves nothing |
| PaperBroker.Broker.HydrateBalance | arbys/shared/paper_broker.py:144-149 | overwrites the cash |
| PaperBroker.Broker.HydratePosition | arbys/shared/paper_broker.py:164-181 | overwrites one outcome's row and adds its realized profit to the total |
| PaperBroker.Broker.ApplyFill | arbys/shared/paper_broker.py:245-314 | one order attempt: refused orders are remembered and move nothing, filled ones leave the specified account |
| PaperBroker.Broker.SnapshotAccount | arbys/shared/paper_broker.py:316-325 | copies everything but the carried fees |
| PaperBroker.Broker.RestoreAccount | arbys/shared/paper_broker.py:327-334 | puts all of that back and leaves the carried fees |
| PaperBroker.Broker.ForgetOrder | arbys/shared/paper_broker.py:336-339 | drops one order and its fill |
| PaperBroker.Broker.SettleOutcome | arbys/shared/paper_broker.py:457-490 | pays every holder and reports exactly the accounts that held the outcome, with their cash, realized profit and fees after it |
| PaperBroker.Broker.CloseAlreadySettled | arbys/shared/paper_broker.py:525-555 | zeroes every holding without paying and counts the holders |
| ExecutionRouter.Router.Preview | arbys/shared/execution_router.py:66-104 | why one leg would be refused: an unknown venue, its book, or its venue's cash |
| ExecutionRouter.Router.Submit | arbys/shared/execution_router.py:66-106 | refused with every leg's rejection and nothing moved, filled on every venue, or unwound |
| ExecutionRouter.PreviewForetells | arbys/shared/execution_router.py:66-104 | at a known venue the preview refuses a leg for the reason an order for it alone would be refused, on the same books and cash, and not at all exactly when that order would fill |
| ExecutionRouter.RejectionsExactly | arbys/shared/execution_router.py:66-104 | a refusal names exactly the legs that would not fill, each with its own reason |
| ExecutionRouter.PreviewedNeverUnwinds | arbys/shared/execution_router.py:66-162 | with each leg on a venue of its own and the books unmoved between the passes, a ticket fills exactly when no leg is refused at preview, and is never unwound |
| ExecutionRouter.Router.CommitAtomically | arbys/shared/execution_router.py:108-162 | fills every leg or leaves every broker as before but for carried fees |
| ExecutionRouter.Router.FillLegs | arbys/shared/execution_router.py:132-148 | legs are filled in order up to the first rejection |
| ExecutionRouter.Router.TakeSnapshots | arbys/shared/execution_router.py:124-130 | one snapshot for each broker the ticket touches, however many legs share it |
| ExecutionRouter.CommitOnlyAdds | arbys/shared/execution_router.py:132-148 | a commit only adds the orders it filled, and touches no account but the ticket's |
| ExecutionRouter.TicketUnwound | arbys/shared/execution_router.py:150-157 | restoring and forgetting returns every broker's orders, fills, balances, positions, averages and realized profit |
| Tickets.AttemptIsLedgerStep | arbys/shared/paper_broker.py:245-314 | an order attempt at a broker is one step of the account's ledger, so the run results apply to it |
| Tickets.FilledLegs | arbys/shared/execution_router.py:132-148 | every filled leg is within its limit and the depth shown, at the fee the venue charges |
| Tickets.CommitFillsExactly | arbys/shared/execution_router.py:132-148 | a ticket of buys fills if and only if every leg would fill on its own and each venue has the cash for all its legs together |
| Tickets.FillsExactly | arbys/shared/execution_router.py:66-162 | a submitted ticket of buys fills if and only if no leg is refused at preview and each venue covers its legs at commit: books and cash known before the call |
| Tickets.DebitedExactly | arbys/shared/execution_router.py:132-148 | each venue is debited exactly its own legs' costs, also when several legs share it |
| Tickets.NoOverdraft | arbys/shared/execution_router.py:132-148 | no leg overdraws its venue |
| Tickets.FeesLeft | arbys/shared/paper_broker.py:316-334 | the commit leaves carried what was carried plus each filled leg's fee |
| Tickets.UnwoundTicket | arbys/shared/execution_router.py:150-157 | a failed ticket differs from its start in one field, by exactly the fees of the unwound legs |
| Tickets.RollbackConservesExactly | arbys/shared/paper_broker.py:316-334 | an unwound ticket of buys stops at some leg; every account reads as before, and conserves its contributed money, if and only if no leg before that one is charged a fee at the price it is shown |
| Tickets.SetIsDetected | arbys/shared/arb_engine.py:218-296 | detection finds the legs of the next ticket |
| Tickets.RolledBackTicketLeavesFees | arbys/shared/paper_broker.py:316-334 | a detected set that passes preview, is unwound, and leaves a fee behind |
| GuaranteedProfit.LegPays | arbys/shared/paper_broker.py:557-576 | a bought leg held to settlement moves cash and realized profit by the same amount, its payout less its cost |
| GuaranteedProfit.ProfitIsGuaranteed | arbys/shared/arb_engine.py:154-213 | whoever wins, a filled ticket adds the promised profit plus whatever the fills saved, to cash and to realized profit alike, on any prior holdings |
| GuaranteedProfit.FlatAccountsProfit | arbys/shared/execution_router.py:108-162 | on accounts flat in both outcomes, total cash ends at least the promised profit above where it started |
| Chain.MatchedTicketPays | arbys/discovery/matcher.py:264-290 | the whole chain, from the venues' own rules and listings to cash after the final score |
| TicketService.MatchLive | arbys/backend/ticket_service.py:67-79 | finds the first live opportunity with the same group and bought outcomes, if there is one |
| TicketService.CheckSkew | arbys/backend/ticket_service.py:207-265 | refuses exactly when two bought, quoted legs are further apart than the limit |
| TicketService.Admit | arbys/backend/ticket_service.py:395-540 | the guards in order, with the in-flight counter balanced on every refusal |
| TicketService.AdmittedIsLive | arbys/backend/ticket_service.py:343-540 | an admitted ticket is one detection finds now for the legs asked for, on a game within the allowed days, and with its stake the account stays within the cap over every outcome of the registered game |
| TicketService.AdmittedIsPlausible | arbys/backend/ticket_service.py:207-304 | an admitted ticket of two buys is within the plausible edge, and its quoted legs within the skew limit |
| TicketService.RefusedForCause | arbys/backend/ticket_service.py:395-540 | every refusal is given only where its cause holds: draining, settled, too far out, edge gone, implausible, stale skew or past the cap |
| TicketService.AdmittedMayBeChecked | arbys/backend/ticket_service.py:395-540 | whatever the service admits of what detection finds, tickets and sets alike, is covered by the exposure bound over all runs |
| TicketAdmission.CapBreach | arbys/backend/ticket_service.py:306-341 | refuses exactly when the group's cost basis over all venues plus the stake exceeds the cap |
| TicketAdmission.CommitExposure | arbys/shared/paper_broker.py:413-422 | a commit raises a group's cost basis by exactly what its fills in the group cost before fees |
| TicketAdmission.SubmittedExposure | arbys/backend/ticket_service.py:532-572 | however a submission ends, the basis rises by at most the stake: by exactly the shown cost of its legs in the group if it filled, and otherwise not at all |
| TicketAdmission.DetectedIsCosted | arbys/shared/arb_engine.py:161-213 | detected tickets cost what they say, within the ticket budget |
| TicketAdmission.SetIsCosted | arbys/shared/arb_engine.py:251-296 | and so do complementary sets, of any number of legs |
| TicketAdmission.ExposureBounded | arbys/backend/ticket_service.py:532-564 | with at most k tickets between check and commit, no run takes a group past the cap plus k - 1 ticket stakes |
| TicketAdmission.SerialNeverExceedsCap | arbys/backend/ticket_service.py:306-341 | one at a time, never past the cap |
| TicketAdmission.PassesCapExactly | arbys/backend/ticket_service.py:532-564 | a run of tickets ends above the cap if and only if the basis it began with, plus the shown cost of each ticket that will fill on the books and cash before its submission, exceeds it |
| TicketAdmission.TwoTicketsExactly | arbys/backend/ticket_service.py:532-564 | two tickets both checked before either commits pass on the same basis, and end above the cap if and only if that basis, plus the shown cost of each that will fill on the books and cash before it, exceeds it |
| TicketAdmission.TwoTicketsPassTheCap | arbys/backend/ticket_service.py:532-564 | two detected two-venue tickets that pass the check together and reach the bound exactly |
| Drain.AppState.BeginDraining | arbys/backend/state.py:1077-1080 | sets the flag and nothing else |
| Drain.AppState.EnterTicket | arbys/backend/state.py:1082-1085 | one more in flight, and not idle |
| Drain.AppState.ExitTicket | arbys/backend/state.py:1087-1090 | one fewer, never below zero, and idle at zero |
| Drain.AppState.Admit | arbys/backend/ticket_service.py:427-474 | a ticket is counted before its first await exactly when it is neither refused nor too late |
| Drain.IdleIffNoneInFlight | arbys/backend/state.py:1082-1090 | in every reachable state the counter is the number in flight, and the idle event is set exactly when it is zero |
| Drain.NoneEnterWhileDraining | arbys/backend/ticket_service.py:427-434 | once draining has begun, tickets only leave |
| Drain.EntersExactly | arbys/backend/ticket_service.py:427-474 | a ticket gets in exactly when neither refused nor too late, and the wait ends exactly when nothing is in flight |
| Drain.DrainCanEnd | arbys/backend/state.py:1092-1112 | from every reachable draining state, the tickets in flight need only leave for the wait to end |
| Drain.NoFillAfterDrain | arbys/backend/state.py:1092-1112 | once the drain wait ends without timing out, nothing later fills an order |
| Drain.FillsAfterTimeoutExactly | arbys/backend/state.py:1104-1112 | after a timeout some continuation fills an order if and only if a ticket is still in flight |
| Drain.FillAfterTimeout | arbys/backend/state.py:1104-1112 | a concrete fill after a timeout |
| SettlementProtocol.VenueActExactly | arbys/ingest/venue_settle_service.py:203-278 | a venue pass that saw nothing held moves nothing and queues at most the record; one that saw a holding pays what is held by then, or closes it unpaid if it found a record |
| SettlementProtocol.SteadyStep | arbys/shared/paper_broker.py:457-523 | every event, restarts and fills in time included, keeps memory, the stored rows and the writes on their way in agreement while writes land in order |
| SettlementProtocol.FreshIsSteady | arbys/shared/paper_broker.py:245-314 | a position whose own writes have landed is a start of such a run |
| SettlementProtocol.ExactlyOnceInOrder | arbys/shared/persistence.py:99-139 | over every in-order run with fills in time and any number of restarts, each contract held is credited or held at every moment, and every schedule after a restart credits exactly the contracts stored: never fewer than at the start, and all of them once nothing is on its way |
| SettlementProtocol.NothingLostInOrder | arbys/shared/persistence.py:99-139 | without fills, at every moment of such a run all contracts are credited or held, and every schedule after a restart there ends with each credited exactly once |
| SettlementProtocol.ContractsAccounted | arbys/shared/paper_broker.py:457-555 | over every run without a restart, however writes land, whatever is filled and whenever, each contract is credited once, still held, or was closed unpaid by a pass that found it on record |
| SettlementProtocol.PaidOncePerLifetime | arbys/shared/paper_broker.py:457-555 | however writes land, if fills come while no record is stored, on its way or known to the pass, memory pays each contract at most once in a lifetime and loses none |
| SettlementProtocol.PaysAllExactly | arbys/ingest/venue_settle_service.py:216-252 | from any state, every schedule without a restart or another fill that leaves nothing held has credited all that was held, if and only if nothing was or no record is stored, on its way or known to the pass |
| SettlementProtocol.FillIsPaidExactly | arbys/ingest/venue_settle_service.py:222-241 | so a fill is paid on every schedule if and only if it comes while no record is coming |
| SettlementProtocol.ExactlyOnceIff | arbys/ingest/venue_settle_service.py:208-279 | from any state, every schedule of the two services, landings and fills in time after a restart that leaves nothing held credits exactly n contracts besides those filled since, if and only if the stored balance and position account for n between them and no position is stored beside a record |
| SettlementProtocol.VenueOnlyIff | arbys/ingest/venue_settle_service.py:208-279 | the exact condition when only the venue pass settles and fills are in time: a stored position counts if and only if no record is stored |
| SettlementProtocol.VenueNeverPaysRecorded | arbys/ingest/venue_settle_service.py:216-241 | once a record is stored the venue pass alone never credits another contract, also not one filled since |
| SettlementProtocol.DbIsReplay | arbys/shared/persistence.py:99-139 | the stored rows are the landed transactions replayed, each whole |
| SettlementProtocol.LogDecides | arbys/shared/persistence.py:99-139 | from any state, for any fills and any order of landing and dropping, both conditions read off what a run landed: the last balance, the last position and whether a settlement or a record landed |
| SettlementProtocol.SettlementLanded | arbys/shared/persistence.py:99-139 | once the settlement landed, every schedule after a restart credits n contracts if and only if the last balance to land includes n payouts and the last position to land is the closed one; the venue pass alone, if and only if the balance does |
| SettlementProtocol.SettlementDropped | arbys/ingest/venue_settle_service.py:254-279 | if it never landed, from a fresh position whose fills stop once it is paid, every schedule is exact if and only if a later balance and a zero position landed, or neither balance nor record did and the stored position is whole; the venue pass alone also recovers a later balance beside a separate record |
| SettlementProtocol.GhostOutcomes | arbys/shared/paper_broker.py:525-555 | from a ghost, over every schedule, its contracts stay credited once if and only if the venue pass finishes before the other service settles, and are credited twice otherwise |
| SettlementProtocol.GhostArises | arbys/ingest/venue_settle_service.py:24-33 | a run that makes a ghost, from which the venue pass alone recovers and some schedule of the two services does not |
| SettlementProtocol.ReorderedBalanceLosesPayout | arbys/shared/persistence.py:52-58 | with nothing dropped, a late balance loses a payout on every schedule |
| SettlementProtocol.LateFillIsClosedUnpaid | arbys/ingest/venue_settle_service.py:222-241 | a concrete run in which contracts filled after the settlement are closed without being paid |
| VenueSettle.Service.SettleOnce | arbys/ingest/venue_settle_service.py:166-299 | one pass over every venue and then the missing records. By the groups and the clock: nothing is paid, closed, reported or recorded for a game still to come; every asked-about account is paid the published value of exactly what it held of the rest that is not on record, and holds none of it any more; and the report says exactly that |
| VenueSettle.NotStartedExactly | arbys/ingest/venue_settle_service.py:166-178 | a position is passed over exactly when some group with that leg has a known start still to come |
| VenueSettle.FinishedExactly | arbys/ingest/venue_settle_service.py:180-185 | the group told it is finished is the first listed with that leg, and no other |
| VenueSettle.PassSettles | arbys/ingest/venue_settle_service.py:208-252 | one account over a pass: what it is paid, and what it still holds, by the groups and the clock |
| VenueSettle.Service.PassIsComplete | arbys/ingest/venue_settle_service.py:208-279 | a pass's report says exactly which held outcomes were paid and at what, which were closed and which are unresolved, records every listed, started, unheld outcome whose venue has a result and no other, counts every outcome asked about once, and finishes exactly the groups of what it paid, closed or recorded |
| VenueSettle.Service.TreatOutcome | arbys/ingest/venue_settle_service.py:216-252 | one held outcome is skipped, closed, left or paid, and the report says which |
| VenueSettle.Service.RecordMissing | arbys/ingest/venue_settle_service.py:254-279 | each listed outcome in turn is passed over, left unresolved or recorded at the venue's value, as the report says, and no account asked about moves |
| VenueSettle.PassPaysOnce | arbys/ingest/venue_settle_service.py:208-252 | a pass closes a holding if and only if its game has started and it is on record or its venue has a result, and pays the published value of exactly those that are started, not on record and finalised, once |
| VenueSettle.SecondPassPaysNothing | arbys/ingest/venue_settle_service.py:208-252 | a second pass on the same answers pays nothing |
| VenueSettle.BrokerRefinesProtocol | arbys/shared/paper_broker.py:457-555 | the broker's own operations move the protocol's state as its settle and close steps do |
| AutoSettle.FindWinningSide | arbys/ingest/auto_settle_service.py:232-254 | names a side exactly when some leg of it is at the threshold and every quoted leg of the other below |
| AutoSettle.Service.ClearSettled | arbys/ingest/auto_settle_service.py:111-116 | forgets everything, for each group as its own rule does |
| AutoSettle.Service.MarkSettled | arbys/ingest/auto_settle_service.py:118-126 | marks one group and ends its streak, as its own rule does, and no other's |
| AutoSettle.Service.SettleGroup | arbys/ingest/auto_settle_service.py:256-278 | every account at a venue with a broker is paid a dollar for each contract it held of the winning side, nothing for the other's, and holds neither any more |
| AutoSettle.LegsPayTheWinners | arbys/ingest/auto_settle_service.py:256-278 | the same of one account over any number of legs |
| AutoSettle.Service.Tick | arbys/ingest/auto_settle_service.py:142-186 | every group moves by its own rule, each settlement is reported and paid once |
| AutoSettle.SettledAtMostOnce | arbys/ingest/auto_settle_service.py:142-216 | between clears, a group is settled at most once over every run |
| AutoSettle.RunIsGrounded | arbys/ingest/auto_settle_service.py:142-216 | in every run each settlement rests on a poll of it: the game had started, the book named its winner alone at the route's threshold, and a retired group was one the registry had shown |
| AutoSettle.BookExactly | arbys/ingest/auto_settle_service.py:148-216 | over every run from a fresh service, a poll settles a group on its last known book if and only if no settlement or mark came since the last clear, the group is one the registry says ended or one gone since it last showed it, the game has started, and that book names that winner alone; otherwise such a group is left open |
| AutoSettle.PinnedExactly | arbys/ingest/auto_settle_service.py:163-186 | over every run from a fresh service, a poll settles a group on price if and only if it reads the price of an open, started group and that is at least the third reading in a row of the same sole winner since the streak last started afresh |
| Persistence.Hydrate | arbys/backend/state.py:769-822 | start-up rebuilds the account from the stored rows, with the seed where no balance is stored |
| Persistence.MemoryMoves | arbys/shared/paper_broker.py:341-372 | memory moves as the broker's does whatever becomes of the writes, and every settled or closed position captures one write at once |
| Persistence.StepMirrors | arbys/shared/paper_broker.py:341-372 | every fill, transfer, settlement, capture, landing and dropped write keeps the rows the replay of what landed, and what was captured showing memory but for what is still to be captured |
| Persistence.SeededMirrors | arbys/backend/state.py:769-822 | a freshly seeded account with its seed stored is a start of every such run |
| Persistence.ReadBackExactly | arbys/shared/persistence.py:52-58 | with nothing still to be captured, a restart reads a key back if and only if the last landed word on it says what the last captured one says |
| Persistence.RestartIsTransparent | arbys/backend/state.py:769-822 | in any run, however writes land or are dropped, with nothing still to be captured start-up rebuilds cash, quantities, averages, realized profit per outcome and in total, and carried fees, if and only if every key's last landed word says what its last captured one says; as they do when every key's last landed write is its last captured one |
| Persistence.QuietInOrder | arbys/shared/persistence.py:52-58 | in capture order with nothing given up on, every quiet moment is such a one |
| Persistence.RollbackIsForgotten | arbys/shared/paper_broker.py:316-334 | a restart after an unwound ticket of buys rebuilds the account in memory if and only if no leg filled at its venue is charged a fee at the price it is shown |
| CashLevelling.PlanTransfers | arbys/shared/cash.py:54-101 | the plan of the specification, empty for one venue or no money |
| CashLevelling.PairOff | arbys/shared/cash.py:85-101 | the nested loops pair surpluses with deficits as the specification does |
| CashLevelling.RankedOrder | arbys/shared/cash.py:76-84 | shares are taken largest first, ties by venue |
| CashLevelling.MovesExhaust | arbys/shared/cash.py:85-101 | before rounding, the moves use every surplus and meet every deficit to the last fraction |
| CashLevelling.LossBounded | arbys/shared/cash.py:49-51 | rounding and dropping lose at each venue at most the floor and a cent for each move |
| CashLevelling.ApplyTransfers | arbys/shared/cash.py:104-130 | moves exactly the transfers that are covered, reports them, and touches nothing but cash |
| CashLevelling.MovedReconciles | arbys/shared/cash.py:104-130 | the transfers reported as made account for every venue's cash, whatever the plan |
| CashLevelling.WholePlanMoves | arbys/shared/cash.py:54-130 | carrying a levelling plan out makes every transfer of it |
| CashLevelling.TotalConserved | arbys/shared/cash.py:104-130 | no plan makes or loses money |
| CashLevelling.PlanIsSafe | arbys/shared/cash.py:54-130 | at most n - 1 transfers, each positive one accepted, and at every moment payers stay above the mean and receivers below it |
| CashLevelling.EndsNearMean | arbys/shared/cash.py:54-130 | every venue ends within n - 1 floors and cents of the mean |
| CashLevelling.EmptyPlanExactly | arbys/shared/cash.py:54-101 | with a positive floor a plan is empty if and only if every surplus is too small to send or every deficit too small to fill |
| CashLevelling.LevelsOnceExactly | arbys/shared/cash.py:54-130 | with a positive floor a second plan is empty if and only if what the first left every payer to pay is too small to send, or what it left every receiver to receive is |
| CashLevelling.LevelsOnce | arbys/shared/cash.py:54-101 | so it is whenever, before rounding, no venue receives from two others or none pays two others |
| CashLevelling.SinglePayerLevelsOnce | arbys/shared/cash.py:54-101 | so it is with a single payer, with a single receiver, and with at most three venues |
| CashLevelling.SecondPlanMovesLeftover | arbys/shared/cash.py:54-130 | for any balances, a second plan's exact moves carry precisely what rounding and dropping left of the first, at most a floor and a cent for each of n - 1 moves, and it is empty when that is less than the floor |
| CashLevelling.FiveVenuesLevelTwice | arbys/shared/cash.py:54-101 | with five venues a second plan need not be empty |

## Left out

- Sockets, HTTP, JSON, signing, access control, routing, logging and the frontend: venues appear as quotes, frames and results.
- SQL, migrations and the object mapper: the database is rows changed by transactions that land whole, late or never.
- Decimal and stored-precision rounding: amounts are exact reals.
- The account record as a shared mutable object: it is a value held by the broker, so a reference kept across an await is not modelled; its per-venue balance dictionary is reduced to the broker's own venue.
- Keys a defaulting dictionary creates by being read: a missing key reads as zero throughout.
- Sequential (non-atomic) commits and the inactive venue adapters: no promise about them is modelled.
- Performance reports, ledger queries, cursors and aggregates: sums that would only add easy members.
- Team tables, player names, ticker dates, horizons and title patterns: listings arrive with teams, dates and lines resolved.
- Group ids and titles as text: a group's id is a token, and a venue's complementary set is filed under its group's id rather than a suffixed one.
- The final sort of the matches and dictionary iteration order where results do not depend on it.
- What a venue pays when a result lands exactly on a line: such results are excluded rather than guessed at.
- Liveness of market repair: a sweep with nothing newly dark returns before escalating, so only the bounds are claimed.
- Frames whose order book is empty on both sides are frames with no quotes; log counters are not modelled.
- LedgerRuns.LedgerConserved: sells are covered and quantities positive, because the broker checks neither; Ledger.SellConservesExactly says what happens otherwise.
- SettlementProtocol.ExactlyOnceInOrder: follows one outcome of one account; fills are buys, made while no record is coming. SettlementProtocol.FillIsPaidExactly is why, and SettlementProtocol.ContractsAccounted covers the others.
- VenueSettle.Service.SettleOnce: one undisturbed pass; what may happen while it waits on a venue is the state machine of SettlementProtocol.
- AutoSettle.Service.Tick: groups are polled in an arbitrary order and each poll is one step; an error from a broker while a group is being settled is not modelled.
- EngineRuntime.Engine.OnQuote: expiry is off, so what detection finds does not change with the clock alone.
- TicketAdmission.ExposureBounded: the group's registration and the two limits stay fixed over the run, and the group's outcomes are bought only through its tickets.
- TicketService.Admit: the audit rows written for refusals and outcomes are not modelled.
- Persistence.RestartIsTransparent: orders and fills are stored for audit and never read back, so only balances and positions are modelled.
- CashLevelling.ApplyTransfers: the audit rows of a sweep are not modelled.
