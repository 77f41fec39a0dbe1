# Verified model of sol-whisperer's in-memory engine

This project models the three stateful cores of sol-whisperer and the wiring that joins
them, and proves what they are for.

- **Rolling volume engine** (`internal/volume`): a per-mint event log pruned by binary
  search, a 32-slot ring of market caps, a q20 support level, floor confidence, entry score
  and grade, a signature cache with lazy clean-up, and a per-mint emission throttle.
- **Delivery layer** (`internal/ws`): six FIFO lists drained by rank, a retry list that
  evicts its oldest entry, a token bucket per client, and the client and user maps.
- **Watches and subscriptions** (`internal/pumpportal`, `internal/listener`, `cmd/api`):
  reference counts, a bounded change queue replayed over reconnects, and a registry whose
  three maps stand for one set of (user, mint) pairs.

Main results:

1. *The rolling state is the history.* For every run of calls about a mint, in any order of
   times but none later than now, the pruned log is the last hour of the whole history if and
   only if no trade older than the hour arrived after one within it (`PrunedRunIsFreshIff`).
   Under that condition, which runs in order of time always meet, the verdict of the pruned,
   ring-buffered state equals, field by field, the verdict over the never-pruned log
   (`RollingStateAgreesWithHistory`, `OrderedStateAgreesWithHistory`, and the contract of
   `Tracker.Evaluate`). A single pruning equals the filter under the same condition
   (`PruneIsFilterIff`).
2. *Score bounds in every run, in any order of times*: floor confidence is 0 without window
   volume and otherwise in [0.089375, 0.960625), an organic entry score is in
   [11.340625, 95.409375), so neither clamp can be reached (`VerdictBoundsInEveryRun`). The
   reported grade is the grade of the reported numbers exactly when lifting the score and the
   floor by half a millionth does not lift the grade (`ReportedGradeAgreesIff`).
3. *The bounded signature cache answers as unbounded memory would*, while the clock that stamps
   its checks does not step back (`DedupeIsExact`), and, for times not before 1970, a
   spike the throttle lets through never collides with an id this process has stored
   (`NewIDIsFree`, `OnlyStoreLosesRecords`). The throttle lets a spike through exactly when every
   earlier emission of its mint is at least the interval before it (`ThrottleIsExact`). Over every
   run of trades, each stored row is the verdict on a buy of the run, and that verdict was a
   detection (`EveryRowWasDetected`).
4. *The six lists refine one arrival-ordered list* (`QueueRefinesList`). An open queue drains
   as the stable sort of that list by rank, which is an order of the messages' own fields
   (`DrainedInOrder`, `DrainedByFields`); a closed one hands out nothing, and what it held
   stays in it for good (`ClosedForGood`). The ledger accounts for every
   message (`QueueLedger`).
5. *Rate bounds without any assumption about the clock*: a client is granted at most
   rate * (1 + T) sends in an interval of T seconds, rounded up, and at most rate * (1 + T) in
   its first T seconds, rounded down; for every length some run reaches the bound
   (`GrantsInWindow`, `BurstReachesBound`, `GrantsSinceCreation`, `CreationBoundReached`).
6. *Subscriptions converge* over watches, failed writes, disconnects and reconnects, as long as
   the queue can record every change of membership (`DrainedMeansExact`); such a change keeps
   the tracker converging exactly when the queue can record it (`FlipConvergesIff`). What was
   lost before, a new connection heals under an exact condition on the queue
   (`ConnectHealsIff`), and from there on convergence needs only the later changes recorded
   (`ExactAfterHealing`). End to end, with the tracker enabled and every change recorded, at
   least since a moment at which it converged, a watched mint is subscribed once the tracker is
   connected and its queue drained, over any interleaving of requests with the writer's steps
   (`WatchedIsSubscribed`, `WatchedIsSubscribedSince`); a preload of any size can be recorded
   (`PreloadIsRecordable`).
7. *The registry is faithful for a population of users, over non-empty mints, exactly when no two
   of them clash* (`FaithfulIffNoClash`); a restart reproduces it (`RestartReproducesRegistry`).
8. *A spike reaches each client of each watching user exactly once* (`Server.OnSpike`), in every
   state that connections, departures, deliveries, requests and spikes lead to, with or without
   a tracker key: each method of `Server` keeps its invariant, connection ids included
   (`Server.Connect`, `Server.Disconnect`, `Server.Serve`), and each watcher's call counts the copies in the personal lanes
   (`Server.NotifyWatchers`). Composed with the processor, a trade tells anybody anything
   exactly when it ends announced, and then tells them the very verdict whose row has just been
   stored (`Pipeline.OnTrade`).
9. *The dual-source consumer loses nothing exactly when the event channels are unbuffered*
   (`LossFreeIffUnbuffered`), and the loop itself is that consumer (`RunDual`,
   `ConsumerIsLoop`).

Things the code does that one might not expect, each with a proof: pruning an out-of-order
log can lose a fresh event (`PruneLosesFreshEvent`); depth falls at the step onto five
buyers (`DepthMonotoneIff`); a spike can be reported with score 60 and grade Reject
(`GradeMayUnderstate`); a retry cap of 0 bounds nothing (`RetryBoundedIff`); a burst of 129 new
mints loses a subscription (`OverflowLosesSubscription`); two users who watch and
both leave keep a mint tracked (`TwoLeaversLeak`); spike ids of times before 1970 can
collide (`NegativeNumbersCollide`).

Where comments and code disagree the model follows the code. The comment above `RunDual`
says that it returns when the context is cancelled; it also returns when both sources are
exhausted (`internal/volume/processor.go:85`). The score is said to be about 0.5 at ratio 12
and about 0.3 at five wallets (`internal/volume/tracker.go:334`, `:357`); with the production
threshold of 12 both are 0 (`RatioImpulseLandmarks`, `UniqueGrowthLandmarks`). The flow band
is described as 3% on either side of the support level (`internal/volume/tracker.go:204`);
only the upper side is counted. The field `bounceCount` is never used and has no
counterpart.

Conventions. Floats are exact `real`s; times and durations are whole nanoseconds since
January 1, year 1 UTC, so that Go's zero time is 0. Clock readings, the success of store
calls and the order in which maps yield their keys are parameters or arbitrary choices.
Every locked call, with the enqueueing that follows it, and every handler is one atomic
step. Objects that the program updates in place are classes; each method is tied to a
function of the old state, and the properties are proved of that function over all runs.
The ghost parts of a class (`view`, `run`, `checks`, `offers`, `rows`, `earlier`, `visits`, `trades`,
`Repr`) only record what led to its state.

`dafny verify dfyconfig.toml` checks the project.

## Model

| member | source | states |
|---|---|---|
| TradeLog.SearchFresh | internal/volume/tracker.go:180-182 | the binary search lands between a stale and a fresh event whatever the order of the log |
| TradeLog.PruneIsFilterIff | internal/volume/tracker.go:178-188 | pruning equals keeping exactly the events of the last hour if and only if no stale event arrived after a fresh one |
| TradeLog.PruneLosesFreshEvent | internal/volume/tracker.go:178-188 | arrivals at 100, 0, 0 with cutoff 50 lose the fresh first event |
| TradeLog.PruneKeepsNewest | internal/volume/tracker.go:93-94 | an added event survives its own pruning, and what survives is a suffix of the log |
| TradeLog.AggregatesIgnoreStale | internal/volume/tracker.go:120-131 | window volume, baseline volume and wallet set do not change when events before the hour are dropped |
| TradeLog.HourSplits | internal/volume/tracker.go:124-130 | window and baseline together are the whole volume since the baseline's start |
| TradeLog.FlowHasWallets | internal/volume/tracker.go:118-127 | there is window volume exactly when the wallet set is non-empty |
| TradeLog.AggregatesOfOneMore | internal/volume/tracker.go:120-131 | what one more trade adds to window volume, baseline volume and wallets, by its own volume, time and wallet |
| TradeLog.BuyersOfOneMore | internal/volume/tracker.go:269-274 | what one more trade adds to the named buyers and to the volume of some of them |
| TradeLog.EmptyNameIsAWallet | internal/volume/tracker.go:117-127 | trades without a wallet name count as a wallet of the window and not as a named buyer |
| OrderStatistics.QuantileIndexInRange | internal/volume/tracker.go:440-446 | neither index clamp can be reached |
| OrderStatistics.QuantileIsOrderStatistic | internal/volume/tracker.go:423-448 | 0 exactly when no value is positive; otherwise a positive member with at least index+1 positive values not above it and n-index not below it |
| OrderStatistics.RoundsHalfAway | internal/volume/tracker.go:191 | rounding goes to a nearest integer, and halves away from zero on either side |
| OrderStatistics.IndexNearPosition | internal/volume/tracker.go:440 | the index is at most half a place from q of the way from first to last |
| OrderStatistics.QuantileRank | internal/volume/tracker.go:423-448 | in terms of q alone: of n positive values at least q*(n-1)+1/2 are not above the quantile and at least (1-q)*(n-1)+1/2 not below |
| OrderStatistics.QuantileEnds | internal/volume/tracker.go:423-429 | a q outside [0, 1] gives the least or the largest positive value |
| OrderStatistics.BandCountIsCardinality | internal/volume/tracker.go:241-249 | the number of samples from the support level to 1.03 times it |
| OrderStatistics.StatisticsByMultiset | internal/volume/tracker.go:222-249 | the support level and the band count depend only on the multiset of positive samples |
| Scoring.SupportFlowTradeOff | internal/volume/tracker.go:221-250 | support distance is below 1, flow is at least 1/32, and a full band excludes a distance above 0.03 because the current cap is a sample |
| Scoring.FloorBounds | internal/volume/tracker.go:194-218 | floor confidence is 0 without window volume and otherwise in [0.089375, 0.960625); the clamp is unreachable |
| Scoring.EntryBounds | internal/volume/tracker.go:298-330 | not organic gives (0, Reject), organic gives [11.340625, 95.409375), and a detected spike with threshold at least 1.5 takes the 0.8 persistence branch |
| Scoring.SupportExactly | internal/volume/tracker.go:221-235 | support is the share of the cap above the q20 level, 0.5 without a cap |
| Scoring.DistanceExactly | internal/volume/tracker.go:226-234 | that share times the cap is what the cap exceeds the level by, if it does |
| Scoring.FlowExactly | internal/volume/tracker.go:238-250 | flow is the share of the 32 slots between the q20 level and 1.03 times it, 0.3 without a cap |
| Scoring.DepthLandmarks | internal/volume/tracker.go:253-264 | depth is 0.3 below five buyers, a twentieth for each from five to twenty, and 1 from then on |
| Scoring.ConcentrationIff | internal/volume/tracker.go:267-296 | 0.8 exactly with three named buyers none of whom holds more than 40% of their volume, else 0.2 |
| Scoring.PersistenceIff | internal/volume/tracker.go:366-371 | 0.8 exactly when the window holds one and a half baseline buckets, else 0.3 |
| Scoring.StructureExactly | internal/volume/tracker.go:374-396 | 0.9, 0.6 or 0.3 by 80% and 60% of the largest cap, 0.5 for fewer than ten events or without caps |
| Scoring.WeightsExactly | internal/volume/tracker.go:194-330 | floor confidence and entry score are exactly the documented weighted sums, nothing clamped |
| Scoring.DetectedIff | internal/volume/tracker.go:134-141 | detected exactly when eleven times the window exceeds the threshold times the baseline and there are enough wallets; without a baseline a ten-millionth stands in |
| Scoring.VerdictReports | internal/volume/tracker.go:147-162 | each reported field is the one named, within half a millionth |
| Scoring.AgeInSeconds | internal/volume/tracker.go:163-165 | the reported age is the whole seconds since creation, 0 when unknown or not past |
| Scoring.EntryMonotone | internal/volume/tracker.go:300-371 | score and grade never fall when ratio, wallets, window volume or floor rise or the baseline falls |
| Scoring.GradeMonotone | internal/volume/tracker.go:399-410 | the grade never falls when score and floor rise |
| Scoring.GradeIsBest | internal/volume/tracker.go:398-410 | the grade is the best one whose demands on score and floor are met |
| Scoring.RatioImpulseLandmarks | internal/volume/tracker.go:332-350 | below a threshold of 30: 0 exactly up to the threshold, 1 exactly from a ratio of 30, linear in between; from 30 on a step at the threshold |
| Scoring.UniqueGrowthLandmarks | internal/volume/tracker.go:352-363 | 0 exactly up to five wallets, 1 exactly from fifty, linear in between |
| Scoring.DepthMonotoneIff | internal/volume/tracker.go:253-264 | depth is monotone between two buyer counts exactly unless it is the step from fewer than five onto five |
| Scoring.RoundedKeepsThreshold | internal/volume/tracker.go:190-192 | rounding moves a value by at most half a millionth and never below a threshold of whole millionths it had met |
| Scoring.GradeIsHonest | internal/volume/tracker.go:147-162 | a reported grade implies that the reported rounded score and floor meet its thresholds |
| Scoring.RoundedMeetsIff | internal/volume/tracker.go:190-192 | a rounded value meets a threshold exactly when the value is at most half a millionth short of it |
| Scoring.ReportedGradeAgreesIff | internal/volume/tracker.go:147-162 | the reported grade is that of the reported score and floor exactly when lifting both raw values by half a millionth does not change their grade; always so when not organic |
| UnderstatedGrade.GradeMayUnderstate | internal/volume/tracker.go:157-161 | with the production thresholds a run of ten trades, in order of time, is a spike reported with score 60, whose grade is C, and grade Reject |
| RollingHistory.RingStep | internal/volume/tracker.go:96-100 | the ring keeps holding exactly the last 32 positive caps, with its index at their number modulo 32 |
| RollingHistory.RingMembers | internal/volume/tracker.go:43-47 | the ring's positive members are exactly the recent caps, whatever the rotation |
| RollingHistory.StateTracks | internal/volume/tracker.go:76-101 | in any order of times: name, symbol, cap, creation time and ring are those of the whole history, and the log is a suffix of it |
| RollingHistory.NameIsLast | internal/volume/tracker.go:81-83 | the name is that of the last event that has one |
| RollingHistory.SymbolIsLast | internal/volume/tracker.go:84-86 | so is the symbol |
| RollingHistory.CapIsLast | internal/volume/tracker.go:87-89 | the cap is that of the last event with a positive one |
| RollingHistory.CreatedAtIs | internal/volume/tracker.go:90-92 | the creation time is that of the last creation, and without one the first time seen |
| RollingHistory.CapsOfOneMore | internal/volume/tracker.go:96-100 | the caps are the positive ones in order of arrival |
| RollingHistory.HistoryInputsAre | internal/volume/tracker.go:112-131 | the history's verdict looks at the last five minutes, the fifty-five before, the events of the last hour and the last 32 caps |
| RollingHistory.StructureRatioInRange | internal/volume/tracker.go:374-396 | the cap ratio, whenever computed, is in (0, 1] |
| RollingHistory.VerdictBoundsInEveryRun | internal/volume/tracker.go:103-167 | after every run, in any order of times: the floor range by window volume, the entry range, the 0.8 persistence branch of a detected spike, and a support level exactly when there is a cap |
| RollingHistory.PrunedRunIsFreshIff | internal/volume/tracker.go:178-188 | for runs in any order of times, none later than now: repeated pruning leaves exactly the last hour of the whole history if and only if no trade older than the hour arrived after one within it |
| RollingHistory.OrderedRunsLoseNothing | internal/volume/tracker.go:93-94 | runs with non-decreasing times meet that condition at every cutoff |
| RollingHistory.RollingStateAgreesWithHistory | internal/volume/tracker.go:103-167 | under the same condition, in any order of times, the verdict on the pruned, ring-buffered state is the verdict on the never-pruned history |
| RollingHistory.OrderedStateAgreesWithHistory | internal/volume/tracker.go:103-167 | so it is after every run in order of time |
| VolumeTracker.FirstFresh | internal/volume/tracker.go:180-182 | the search loop computes the specified index |
| VolumeTracker.QuantileNonZero | internal/volume/tracker.go:423-448 | the filter, sort and index code computes the quantile of the positive members, with the rank that q asks for |
| VolumeTracker.CountInBand | internal/volume/tracker.go:242-248 | the counting loop counts exactly the samples of the band |
| VolumeTracker.UniqueBuyers | internal/volume/tracker.go:412-421 | the number of distinct named wallets with a positive buy |
| VolumeTracker.ScoreConcentration | internal/volume/tracker.go:267-296 | 0.2 exactly when fewer than three named buyers, no volume, or some wallet above 40% of the named volume, in whatever order the map is read |
| VolumeTracker.ScoreStructure | internal/volume/tracker.go:374-396 | the branches on the cap's share of the largest cap in the log |
| VolumeTracker.MintState.Prune | internal/volume/tracker.go:178-188 | the three branches together keep the suffix from the search index |
| VolumeTracker.MintState.Absorb | internal/volume/tracker.go:80-100 | the in-place update is the specified step of the mint's state |
| VolumeTracker.Tracker.constructor | internal/volume/tracker.go:62-74 | thresholds default to 2.0 and 5 when not positive |
| VolumeTracker.Tracker.AddEvent | internal/volume/tracker.go:76-101 | extends the run of the event's mint and leaves every other mint alone |
| VolumeTracker.Tracker.Evaluate | internal/volume/tracker.go:103-167 | no state gives no result; otherwise the verdict on the state, which is the verdict on the whole history when no call was later and no trade older than the hour arrived after one within it |
| VolumeTracker.Tracker.Accumulate | internal/volume/tracker.go:116-131 | one pass computes window volume, baseline volume and wallet count |
| SpikeGuards.DedupeIsExact | internal/volume/processor.go:237-264 | under a clock that does not step back, a signature is new exactly when every earlier acceptance of it is at least the window old |
| SpikeGuards.AcceptancesSpaced | internal/volume/processor.go:243-251 | two acceptances of one signature are at least the window apart |
| SpikeGuards.CacheStaysSmall | internal/volume/processor.go:253-261 | the cache has at most 10000 entries or nothing that was older than the window at the latest acceptance |
| SpikeGuards.NothingForgottenBelowLimit | internal/volume/processor.go:253-261 | below 10000 signatures an acceptance adds its signature and nothing is deleted |
| SpikeGuards.EmissionsSpaced | internal/volume/processor.go:225-232 | event times in any order: emissions of a mint are strictly increasing and at least delta apart |
| SpikeGuards.EmissionsPerInterval | internal/volume/processor.go:225-232 | at most floor(L/delta)+1 emissions of a mint in any interval of length L, whatever the order of event times |
| SpikeGuards.ThrottleIsExact | internal/volume/processor.go:225-232 | a spike is let through exactly when every earlier emission of its mint is at least delta before it |
| SpikeGuards.SpikeIDsDistinct | internal/volume/processor.go:266-268 | for times since 1970 equal ids mean equal mint and time, hyphens or not |
| SpikeGuards.SpikeIDForm | internal/volume/processor.go:266-268 | the mint, a hyphen, and the nanoseconds since 1970 |
| Text.TaggedCollision | internal/volume/processor.go:266-268 | exactly when two "prefix-number" names coincide |
| Text.DigitsDenote | internal/volume/processor.go:266-268 | the digits written for a number denote it, without a needless zero |
| Text.TrimSpaceExactly | cmd/api/main.go:461 | trimming removes exactly the space around a name |
| Text.NegativeNumbersCollide | internal/volume/processor.go:266-268 | a negative number collides with its opposite under a prefix that ends in a hyphen |
| SpikeProcessor.LedgerGrows | internal/volume/processor.go:189-214 | recording and announcing a spike keeps every announcement matched with its record and the records of a mint at least delta apart |
| SpikeProcessor.StoredIDsDistinct | internal/store/sqlite.go:144-145 | the ids that a process stores are pairwise distinct |
| SpikeProcessor.NewIDIsFree | internal/volume/processor.go:189-195 | a spike the throttle lets through has an id that the process has not stored |
| SpikeProcessor.OnlyStoreLosesRecords | internal/volume/processor.go:189-212 | since 1970 a spike that was let through loses its record only to a failure of the store or to a row of an earlier process |
| SpikeProcessor.BookedStaysSane | internal/volume/processor.go:182-214 | handling a trade, however it ends, keeps the throttle's memory, the records and the announcements in agreement |
| SpikeProcessor.BuyVerdictIsHistorical | internal/volume/processor.go:179-180 | the verdict taken after a buy is the verdict on the whole history including the buy, when no call was later than the buy and no trade older than the hour arrived after one within it |
| SpikeProcessor.TradeOfFields | internal/volume/processor.go:152-172 | the trade handed to the tracker, field by field |
| SpikeProcessor.KindsNormalized | internal/volume/processor.go:270-272 | space around the kind and the case of its letters do not matter |
| SpikeProcessor.RowShows | internal/volume/processor.go:189-210 | a stored row tells the announced verdict, field by field |
| SpikeProcessor.HistoryGains | internal/volume/processor.go:156-180 | the mint's history gains the trade unless it was repeated or of another kind |
| SpikeProcessor.EndingMeans | internal/volume/processor.go:169-214 | the decision table: kind, snapshot, detection, the mint's earlier emissions, the store and the id decide how a trade ends |
| SpikeProcessor.BookedMeans | internal/volume/processor.go:182-214 | what each ending does to snapshots, rows, announcements and throttle |
| SpikeProcessor.LatestTrade | internal/volume/processor.go:186-214 | only a detection that ends announced adds a row and is announced, and both tell its verdict |
| SpikeProcessor.EveryRowWasDetected | internal/volume/processor.go:146-223 | over every run of trades each stored row and its announcement is the verdict on a buy of the run at its moment, and that verdict was a detection |
| SpikeProcessor.RowsBeatTheBaseline | internal/volume/processor.go:186-188 | so each row has enough wallets and a window that beats the baseline |
| SpikeProcessor.Processor.constructor | internal/volume/processor.go:38-58 | the interval and the window default to 20 seconds and 5 minutes; the table may hold rows of earlier processes |
| SpikeProcessor.Processor.CheckAndMarkSigSeen | internal/volume/processor.go:237-264 | the in-place cache is the specified one, and the answer is its answer |
| SpikeProcessor.Processor.Sweep | internal/volume/processor.go:256-260 | the deletion loop keeps exactly the entries not before the cutoff |
| SpikeProcessor.Processor.ShouldEmitSpike | internal/volume/processor.go:225-232 | lets a spike through exactly when every earlier emission of its mint is at least delta before it, and remembers it |
| SpikeProcessor.Processor.Record | internal/volume/processor.go:182-214 | snapshot, throttle, record and announcement in this order, and which of them fails |
| SpikeProcessor.Processor.ProcessEvent | internal/volume/processor.go:146-223 | a repetition changes nothing else; every other trade determines both tables, the throttle and the announcements, and extends only its mint's run; only a detection is announced, and without one rows, announcements and throttle stay as they were |
| DualSource.RunDual | internal/volume/processor.go:86-144 | the loop over select outcomes computes the specified consumer; fed by unbuffered channels, it returns without cancellation only after processing all events of both feeds in order |
| DualSource.ConsumerIsLoop | internal/volume/processor.go:86-144 | in every run the consumer is what the loop computes from the run's deliveries |
| DualSource.RoundMeans | internal/volume/processor.go:92-142 | what each select outcome does to the events processed, the open flags, the error channels and the return |
| DualSource.CancellingReturns | internal/volume/processor.go:91-92 | a cancelled loop returns, and counts as cancelled only then |
| DualSource.ExhaustedReturns | internal/volume/processor.go:112-142 | the loop returns once each feed it counts as open has closed its event channel, if some event channel closes while it waits |
| DualSource.AlwaysAccounted | internal/volume/processor.go:86-144 | processed, buffered and unsent events make up what a feed had, in order, in every run and for every buffer size |
| DualSource.UnbufferedLosesNothing | internal/pumpdev/client.go:47-52 | with unbuffered channels a return without cancellation means that every event was processed |
| DualSource.LossFreeIffUnbuffered | internal/rpc/ws_client.go:43-48 | no run loses an event exactly when the event channels are unbuffered |
| PriorityQueues.PriorityQueue.constructor | internal/ws/priority_queue.go:45-60 | empty and open; a negative retry cap becomes 0 |
| PriorityQueues.PriorityQueue.Enqueue | internal/ws/priority_queue.go:69-97 | fails on a closed queue, otherwise appends the stamped message to the list that its personal flag and priority name |
| PriorityQueues.PriorityQueue.RetryP1 | internal/ws/priority_queue.go:99-114 | counts the retry, drops it when used up, evicts the oldest when full |
| PriorityQueues.PriorityQueue.PopNext | internal/ws/priority_queue.go:150-161 | takes the head of the first non-empty lane by rank |
| PriorityQueues.PriorityQueue.Dequeue | internal/ws/priority_queue.go:116-129 | the head of the first list that is not empty, in the source's order; a closed queue hands out nothing |
| PriorityQueues.PriorityQueue.Len | internal/ws/priority_queue.go:144-148 | the number of messages held |
| PriorityQueues.QueueLedger | internal/ws/priority_queue.go:69-114 | in every run, what left a lane followed by what it holds is exactly what was appended to it |
| PriorityQueues.OnlyRetryEvicts | internal/ws/priority_queue.go:109-111 | what left any other lane was delivered |
| PriorityQueues.RetryBounded | internal/ws/priority_queue.go:109-112 | a positive cap bounds the retry lane |
| PriorityQueues.RetryBoundedIff | internal/ws/priority_queue.go:45-48 | the cap bounds the retry lane in every run exactly when it is positive; with a cap of 0 every length is reached |
| PriorityQueues.ServesEarliestOfLeastRank | internal/ws/priority_queue.go:150-161 | the queue serves the earliest arrival of least rank |
| PriorityQueues.QueueRefinesList | internal/ws/priority_queue.go:29-43 | in every run the six lists hold what one arrival-ordered list holds |
| PriorityQueues.DrainedInOrder | internal/ws/priority_queue.go:116-161 | repeated dequeuing of an open queue yields all messages ordered by rank and, within a lane, by arrival; a queue that was ever closed yields none |
| PriorityQueues.RunIsSorted | internal/ws/priority_queue.go:81-97 | in every run each message waits where its own fields say |
| PriorityQueues.DrainedByFields | internal/ws/priority_queue.go:150-161 | an open queue hands out personal messages first, then retries, then priorities 1, 2, 3 and the rest, each in order of arrival |
| PriorityQueues.ClosedForGood | internal/ws/priority_queue.go:62-67 | after closing, no call changes the lists or the ledger |
| RateLimits.RunPays | internal/ws/hub.go:162-180 | tokens stay between 0 and the rate, and what is granted is paid for by tokens and whole seconds |
| RateLimits.RequestMeans | internal/ws/hub.go:162-180 | one request: a full bucket and a fresh start after a whole second, else nothing added; one token taken if there is one |
| RateLimits.GrantsSinceCreation | internal/ws/hub.go:44-54 | at most rate * (1 + floor of the seconds) grants since creation |
| RateLimits.GrantsInWindow | internal/ws/hub.go:162-180 | at most rate * (1 + the seconds rounded up) grants in any interval |
| RateLimits.BurstReachesBound | internal/ws/hub.go:165-174 | for every interval, requests of a client with a full bucket that reach the bound |
| RateLimits.CreationBoundReached | internal/ws/hub.go:44-54 | requests that reach the bound since creation, for every length |
| RateLimits.SilenceIsRewarded | internal/ws/hub.go:166-179 | after a silent second a request is granted |
| Hubs.Client.AllowSend | internal/ws/hub.go:162-180 | the in-place limiter is the specified bucket step |
| Hubs.Client.Offer | internal/ws/hub.go:115-124 | limiter, then queue, or the retry lane for urgent messages |
| Hubs.OfferMeans | internal/ws/hub.go:115-124 | an offer by the message's own fields: the list it joins with a token, the retries or nothing without |
| Hubs.NewSeatFields | internal/ws/hub.go:45-54 | a new client's rate, cap, full bucket and open empty queue |
| Hubs.JoinKeepsMutualIff | internal/ws/hub.go:55-63 | the maps stay inverse exactly when the id is not held by another user |
| Hubs.JoinThenLeave | internal/ws/hub.go:55-82 | leaving undoes joining under a new id |
| Hubs.ConnectionIDsDistinct | internal/ws/server.go:59-64 | connection ids never repeat |
| Hubs.ConnectionIDForm | internal/ws/server.go:59-64 | the user or "public", a hyphen and the number |
| Hubs.NextIDIsNew | internal/ws/server.go:64 | the next connection's id is never in use |
| Hubs.VisitsStayMutual | internal/ws/hub.go:55-82 | over all connections and disconnections the client and user maps stay inverse |
| Hubs.DirectoryShows | internal/ws/hub.go:55-82 | over all connections and departures the hub knows exactly the connections not over, whose each is, and the inverse |
| Hubs.Hub.AddClientForUser | internal/ws/hub.go:44-66 | a full bucket and an open empty queue under the id, listed under its user in both maps; the hub stays consistent exactly when no other user holds the id |
| Hubs.Hub.RemoveClient | internal/ws/hub.go:68-84 | closes the client's queue and forgets it in all three maps; nobody else changes |
| Hubs.Hub.EnqueueForClient | internal/ws/hub.go:108-125 | offers to one client only and says whether its queue took the message |
| Hubs.Hub.EnqueueForUser | internal/ws/hub.go:86-106 | offers once to each of the user's clients and counts those that took it; for a personal message, the copies in their personal lanes |
| Hubs.ReachedHoldCopies | internal/ws/hub.go:108-125 | the clients a personal message was queued for at once are exactly those whose personal lane has gained it |
| Hubs.Hub.Broadcast | internal/ws/hub.go:127-143 | offers once to every client and counts those that took it |
| Hubs.PersonalMessageLands | internal/ws/hub.go:115-124 | a personal message ends up last in exactly one of the personal and the retry lane |
| Registries.KeysMeetIffClash | internal/listener/registry.go:24 | two users' keys can coincide, for non-empty mints, exactly when one's name and a colon begin the other's |
| Registries.NumericUsersNeverClash | internal/auth/telegram.go:97-100 | the authenticated ids, decimal numbers, never clash |
| Registries.AddRepresents | internal/listener/registry.go:23-36 | adding keeps the maps equal to the set with the pair added |
| Registries.RemoveRepresents | internal/listener/registry.go:38-56 | removing keeps the maps equal to the set without the pair |
| Registries.RegistryRepresents | internal/listener/registry.go:8-13 | in every run over a population without clashes the maps stand for the set of watched pairs |
| Registries.FaithfulIffNoClash | internal/listener/registry.go:23-56 | every run of a population over non-empty mints is faithful exactly when the population has no clash |
| Registries.Registry.AddWatch | internal/listener/registry.go:23-36 | the three maps after the call |
| Registries.Registry.RemoveWatch | internal/listener/registry.go:38-56 | the three maps after the call |
| Registries.Registry.HasWatchers | internal/listener/registry.go:58-62 | true exactly when the represented set has a watcher of the mint |
| Registries.Registry.ActiveMints | internal/listener/registry.go:64-72 | each watched mint once |
| Registries.Registry.UsersForMint | internal/listener/registry.go:74-86 | each watcher of the mint once |
| Subscriptions.FlipConvergesIff | internal/pumpportal/trade_tracker.go:75-87 | a change of membership keeps the tracker converging exactly when the queue can record it |
| Subscriptions.OtherStepsConverge | internal/pumpportal/trade_tracker.go:216-231 | snapshot writes, drains, failed writes, disconnects and reconnects keep it converging |
| Subscriptions.CountsMove | internal/pumpportal/trade_tracker.go:69-120 | a watch counts one more and an unwatch one less, down to none; only a first or last watcher is queued |
| Subscriptions.AlwaysConverging | internal/pumpportal/trade_tracker.go:212-239 | in every run whose changes the queue could record, replaying the queue onto the upstream set and the unwritten snapshot gives the tracked set |
| Subscriptions.ConnectHealsIff | internal/pumpportal/trade_tracker.go:212-221 | whatever was lost before, connecting anew makes the tracker converge exactly when the queue, replayed on nothing, is right about every mint it mentions |
| Subscriptions.DrainedMeansExact | internal/pumpportal/trade_tracker.go:212-239 | when the queue could record every change: connected and drained, the upstream set is the tracked set, stale changes or not |
| Subscriptions.DrainedMeansExactSince | internal/pumpportal/trade_tracker.go:212-239 | it is enough that every change was recorded since a point at which the tracker converged |
| Subscriptions.ExactAfterHealing | internal/pumpportal/trade_tracker.go:212-239 | such as a new connection under the healing condition |
| Subscriptions.OverflowLosesSubscription | internal/pumpportal/trade_tracker.go:83-87 | a run from the start: 129 mints watched before the writer takes a change leave the last tracked but not subscribed when all is drained |
| Subscriptions.LateTakeWhileUpConvergesIff | internal/pumpportal/trade_tracker.go:223-231 | when losing a queued change to an old writer during a new connection would be harmless |
| Subscriptions.TradeTracker.AddWatch | internal/pumpportal/trade_tracker.go:69-88 | counts the watcher and queues a subscription for the first |
| Subscriptions.TradeTracker.RemoveWatch | internal/pumpportal/trade_tracker.go:90-120 | uncounts the watcher, and with the last one queues an unsubscription and forgets the figures |
| Subscriptions.TradeTracker.ListTrackedMints | internal/pumpportal/trade_tracker.go:334-342 | each tracked mint once |
| Subscriptions.TradeTracker.WriteAll | internal/pumpportal/trade_tracker.go:216-221 | all of the snapshot is written, or the connection is gone |
| Subscriptions.TradeTracker.DrainOne | internal/pumpportal/trade_tracker.go:227-231 | one change is written, or lost with the connection |
| Subscriptions.TradeTracker.ConsumeTrade | internal/pumpportal/trade_tracker.go:281-291 | adds volume and count, keeps the latest trade time |
| Api.PostKeepsCoherent | cmd/api/main.go:461-478 | a POST keeps registry and table equal; with the tracker enabled every mint stays tracked at least as often as watched, otherwise the tracker stays untouched |
| Api.DeleteKeepsCoherent | cmd/api/main.go:505-516 | so does a DELETE, tracker enabled or not |
| Api.PreloadIsExact | cmd/api/main.go:90-97 | right after the preload registry and table are equal, and an enabled tracker tracks every mint exactly as often as it is watched |
| Api.WatchedIsTracked | cmd/api/main.go:461-516 | in every run registry and table agree, and an enabled tracker tracks every watched mint |
| Api.HandlersTrack | cmd/api/main.go:473-516 | a POST counts one more, a DELETE one less when it leaves nobody watching, and no other mint moves |
| Api.TrackerRunAgrees | cmd/api/main.go:90-97 | within every session the tracker goes through a legal run of its own steps; one that is not enabled takes none |
| Api.PreloadIsRecordable | cmd/api/main.go:90-97 | a preload of any size keeps the tracker converging, although the queue takes only 128 changes |
| Api.WatchedIsSubscribed | internal/pumpportal/trade_tracker.go:212-239 | over requests interleaved with writes, failures and reconnects, when the queue could record every change: connected and drained, the feed is subscribed to exactly the tracked mints and to every watched one |
| Api.WatchedIsSubscribedSince | internal/pumpportal/trade_tracker.go:212-239 | the same when every change was recorded since a point at which the tracker converged |
| Api.RestartReproducesRegistry | cmd/api/main.go:88-97 | a restart from the same table, in any order of rows, has the same registry |
| Api.LastLeaveUntracksIff | cmd/api/main.go:513-516 | with the tracker enabled, the last watcher's leaving stops the tracking exactly when the count was at most one |
| Api.TwoLeaversLeak | cmd/api/main.go:513-516 | with the tracker enabled, two watchers who both leave leave the mint tracked |
| Api.Server.constructor | cmd/api/main.go:87-97 | the process starts with the preloaded watches and no clients, with or without a tracker key |
| Api.Server.Preload | cmd/api/main.go:93-96 | the preload loop builds the specified state, tracker enabled or not |
| Api.Server.Connect | internal/ws/server.go:59-71 | a connection gets an id not in use, a full bucket of 60, an empty open queue, and its entry under its user; the hub stays consistent |
| Api.Server.Disconnect | internal/ws/server.go:71 | a departure removes that seat only, and the hub stays consistent |
| Api.Server.Serve | internal/ws/server.go:123-126 | a connection takes the next message of its own queue, which is open, and nobody else's seat changes |
| Api.Server.PostWatch | cmd/api/main.go:448-492 | the three answers and when each is given; anything but success changes nothing, and success adds the pair |
| Api.Server.DeleteWatch | cmd/api/main.go:494-518 | the three answers and when each is given; anything but success changes nothing, and success removes the pair |
| Api.Server.NotifyWatchers | cmd/api/main.go:163-167 | the copy is offered once to each client of each watcher and to nobody else; each watcher's count is the number of copies in the personal lanes of that watcher's clients |
| Api.Server.OnSpike | cmd/api/main.go:101-168 | after the broadcast each connection not over of each watcher holds exactly one personal copy and nobody else holds one |
| Api.AudienceIsPresent | cmd/api/main.go:163-167 | the audience is the connections not over that users who watch the mint made |
| Api.NewsLands | cmd/api/main.go:141 | the news lands last among the third-priority messages of a client with a token, else nowhere |
| Pipeline.Pipeline.OnTrade | internal/volume/processor.go:186-214 | the state follows the run of all trades; a trade announced was a detection, is stored first, and then each client of each watcher has one personal copy of the verdict stored; any other trade reaches nobody |
| Pipeline.Pipeline.Process | internal/volume/processor.go:146-223 | the processor's state after a trade is that of the run of its trades, and the trade ends as that run says |

## Left out

- IEEE rounding, NaN and infinities, and the order of float summation: properties are stated over exact reals.
- Saturation of `time.Time.Sub`, the int64 range of `UnixNano` (years 1678 to 2262) and overflow of `refills * RateLimitPerS`: times, durations and token counts are unbounded integers.
- Mutexes, condition variables, blocking in `Dequeue` and data races: every locked call is one step. Interleavings inside a handler or between a count change and its enqueueing are not modelled.
- `lastSpikeAt` is not guarded by a lock in the source although two goroutines call `ProcessEvent`; calls are taken as serialized here.
- A preload whose query fails: the program then starts with an empty registry while the table has rows, and the agreement of the two is not claimed.
- SpikeStore: the store is an append-only table with a unique id and a table of snapshots, both of which may fail; SQL and migrations are not modelled.
- Subscriptions.Step: an old writer takes changes only while no connection is up (`LateTake`). In the source a cancelled writer may still choose the change queue in its select; that it is gone before the next connection's writer starts rests on the retry delay, and `LateTakeWhileUpConvergesIff` says what it could spoil otherwise.
- Wrap-around of the 64-bit connection counter: it is unbounded here.
- Request parsing and failed authentication: the handlers start from a mint and an account number, and answer neither 401 nor a malformed body.
- Websocket dialing, writing, deadlines, pings, heartbeats, retry delays and JSON encoding and parsing: the feeds are abstract sources of events, and the upstream subscription is a set.
- Pipeline.Encoding: a spike's messages are encoded by total functions; in the source an encoding that fails tells nobody.
- Telegram messages, RPC tier choice, payload formatting, enrichment, configuration, sniping and the web client: plumbing or presentation.
- Tier round-robin, the recent-event buffer, backoff and the listener service: correct but easy.
- NormalizeTxType: lowers ASCII letters only; no other letter is lowered to one of those in "buy" or "create".
- TradeTracker.ConsumeTrade: figures of a mint may reappear after its last watcher left, because a trade may still be under way; nothing is claimed about which mints have figures.
- Hub.Stats, Processor.Run and the metrics snapshot calls: they would only add easy members.
