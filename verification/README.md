# Verified model of the order consumer

The order pipeline reads purchase orders from a partitioned Kafka topic, delivers each one to a
downstream sink with bounded retries, keeps running price statistics, publishes snapshots of them,
and copies every message that cannot succeed to a dead letter topic. This project models the
consumer side and proves its promises: exactly which messages cannot be lost, replays are bounded,
order is kept, the log drains, the books agree, failures are routed faithfully, and the arithmetic
is right.

`dafny verify dfyconfig.toml` checks everything. Module by module:

| module | what it is |
|---|---|
| `Reals`, `Selection` | sums and products of reals; picking elements out of a sequence |
| `Control` | one consumer's control flow between two polls |
| `Delivery` | the consumer group as a state machine: leases (assignments), workers, commits, history, dead letters queued, acknowledged or rejected, with crashes, revocations, refused stores and auto-commits at any point; its invariant |
| `Replay` | safety over whole runs: what is durable and what is lost for good, monotone commits, order, exact replay counts |
| `Steps` | what each step of the group does and leaves alone, lease by lease and worker by worker, and what revocation means over runs |
| `Drain` | progress: bounded work, no blocked partition, everything committed after a drain |
| `Orders` | orders, decoding, business rules, error classes |
| `Retry` | backoff arithmetic over exact reals |
| `Statistics`, `Aggregation` | batch meaning of the statistics; the in-place classes and snapshots |
| `Processing` | the sink and the retry loop |
| `DeadLetters` | routing, header rewriting, replays, the publisher |
| `Cadence` | when snapshots are emitted |
| `Consumer`, `App` | a whole run as a fold over environment inputs and its laws; the imperative loop that computes it |
| `Refinement` | any number of apps at once, each over any number of lives, are consumers of the group protocol |

The environment (Kafka, librdkafka, the Avro deserialiser, the sink, clocks, random draws) enters as
arbitrary inputs. What is assumed of it: `poll` hands out the next offset of an owned partition,
starting at the committed one; at most one consumer owns a partition; a store succeeds only while
the partition is owned; a commit publishes the stored offset of a current owner; assignments are
delivered inside `poll`, so never while a message is in hand; a dead letter counts as written when
its delivery report says so, and an unreported one is lost with the process that queued it. Refusing
a store is allowed at any time, except in the drain theorems, which need that only stores for lost
partitions are refused.

Where the code and its documentation differ, the model follows the code:

- `publish` ignores two signals: the number `flush` returns, and the delivery report, which
  `_on_delivery` only logs. So "acknowledged before the offset advances" fails, and
  `Replay.CommitIsSafeExactly` says for which committed messages, over any run. The number returned
  decides nothing, zero included (`Replay.FlushResultDecidesNothing`); the report decides everything
  (`Replay.ReportDecides`), and what is lost stays lost (`Replay.LossIsPermanent`). Without any
  premise only the hand-over to the producer is guaranteed (`Replay.CommittedIsTerminal`).
- An exception outside `ProcessingError` is not dead-lettered: it leaves the loop with the offset
  unstored (`Consumer.UnexpectedExactly`, `Consumer.EscapedFailure`), and the close on the way out does
  not commit it (`Refinement.EscapeCommitsNothing`), though docs/ARCHITECTURE.md:57-59 says otherwise.
- The attempts header of a permanent failure after transient ones is 1 (`Consumer.UndercountedAttempts`);
  `Consumer.AttemptsHeaderExactly` says exactly when the header counts the sink calls.
- The worst case at the defaults is three pauses and 1.68 s (`Retry.DefaultWorstCase`), not the
  "~9 s" of docs/ARCHITECTURE.md:80.
- Pauses need not lengthen (`Retry.CappedPausesCanShrink`): `Retry.CallLengthensExactly` says for which policies those of one call
  always do, and `Retry.LengthensExactly` for any two attempts, the pair that crosses the cap included.
- docs/ARCHITECTURE.md:134-135 says the running mean keeps the error bounded. With a fixed error
  per update the mean can be off by exactly as much as `Statistics.RoundingBoundExactly` says, which
  grows with the stream: one bound for all streams exists only without any error
  (`Statistics.BoundedForeverExactly`).
- A product called "ALL" shares the scope name of the global record (`Aggregation.ScopeNamesDistinctExactly`,
  `Aggregation.ScopeNamesCanClash`).

## Model

| member | source | states |
|---|---|---|
| Control.StoreFollowsTerminalState | src/order_pipeline/apps/consumer.py:261-265 | in any trace of the loop each store comes right after one message's poll, its retries and its terminal state, without a gap, and stores that message's offset |
| Control.AttemptsWithinBudget | src/order_pipeline/processing.py:111-136 | any stretch of the trace without a new poll holds fewer than `max_attempts` retries, so at most `max_attempts` attempts with the one after the poll |
| Delivery.StepKeepsInv | src/order_pipeline/apps/consumer.py:251-267 | every step of every consumer and of the environment keeps the group invariant: one owner per partition, committed within stored within handled, each lease's history is one contiguous slice, everything below a commit handled |
| Delivery.RunKeepsInv | src/order_pipeline/apps/consumer.py:251-267 | so does every run |
| Delivery.SettledCommit | src/order_pipeline/apps/consumer.py:369-371 | closing commits exactly the stored offsets of the partitions still owned and leaves the others, never going back and never past what was handled |
| Steps.PollsExactly | src/order_pipeline/apps/consumer.py:252-253 | a message is handed out exactly to an idle consumer that owns the partition, while there is one left |
| Steps.ActsExactly | src/order_pipeline/apps/consumer.py:261-264 | with a message in hand an app may retry while the budget lasts or settle it; once settled it may store, successfully only while the partition is its own |
| Steps.AssignsExactly | src/order_pipeline/apps/consumer.py:358-359 | a partition goes to an idle consumer exactly when nobody owns it |
| Steps.DisruptsExactly | src/order_pipeline/apps/consumer.py:104-109 | only a current owner's stored offset can be committed, any process end and any assignment be revoked at any time, and only queued letters be reported on |
| Steps.PollHandsOut | src/order_pipeline/apps/consumer.py:252-262 | a poll puts the next offset of the partition in hand for its first attempt and changes nothing else |
| Steps.SettlingRecords | src/order_pipeline/apps/consumer.py:262-263 | a terminal state goes on record once, moves the assignment to the next offset, and leaves a letter acknowledged, queued or neither as its report says |
| Steps.StoreAdvances | src/order_pipeline/apps/consumer.py:326-343 | a store makes the settled offset the stored one; a refused store leaves everything stored as it was |
| Steps.CommitPublishes | src/order_pipeline/apps/consumer.py:104-106 | an auto-commit publishes the stored offset of that one partition |
| Steps.AssignStarts | src/order_pipeline/apps/consumer.py:358-359 | a new owner starts at the committed offset with nothing handled or stored |
| Steps.RevokeReleases | src/order_pipeline/apps/consumer.py:326-343 | after a revocation nobody owns the partition, a store for it is refused, neither a commit nor any close moves it, and any idle consumer can be its next owner |
| Steps.OverForGood | src/order_pipeline/apps/consumer.py:326-343 | over any run a revoked or abandoned assignment is never live again and nothing more is stored in it |
| Steps.RevokedIsReplayed | src/order_pipeline/apps/consumer.py:329-332 | whatever follows a revocation, an offset not committed then is committed only after a later assignment has handled it |
| Steps.CrashForgets | src/order_pipeline/apps/consumer.py:15-18 | a killed process loses its assignments and its queued letters and commits nothing |
| Steps.CloseCommitsStored | src/order_pipeline/apps/consumer.py:369-371 | a graceful close commits exactly what is stored of each partition still owned |
| Steps.ReportsArrive | src/order_pipeline/dlq.py:152-157 | a queued letter reaches the dead letter topic or is given up, and nothing else changes |
| Replay.CommittedIsTerminal | src/order_pipeline/apps/consumer.py:262-264 | with no premise at all, every offset below a committed one was accepted by the sink or handed to the DLQ producer |
| Replay.DurableExactly | src/order_pipeline/dlq.py:152-157 | over any run an offset becomes durable if and only if some step secured it: accepted by the sink, or its letter reported delivered, then or later |
| Replay.CommitIsSafeExactly | src/order_pipeline/dlq.py:97-112 | in any run a committed message is durable exactly if some step of the run secured it; otherwise it was dead-lettered with a letter not reported delivered |
| Replay.NothingIsLost | src/order_pipeline/dlq.py:109-112 | when each letter of that one offset is reported delivered, the offset below a committed one is in the sink or in the DLQ, over all runs with crashes, revocations, refused stores and other failed letters |
| Replay.LossIsPermanent | src/order_pipeline/dlq.py:109-112 | a committed message that is not durable and that no process holds never becomes durable again, whatever follows |
| Replay.RecoverableExactly | src/order_pipeline/dlq.py:109-112 | a committed message that is not durable can still become so if and only if it is being tried or its letter is queued in a live process |
| Replay.ReportDecides | src/order_pipeline/dlq.py:152-157 | for every flush outcome, a message buried, stored and committed is lost for good if and only if its letter was not reported delivered |
| Replay.FlushResultDecidesNothing | src/order_pipeline/dlq.py:111 | for every number `flush` returns, zero included, one run with it keeps the message and another loses it for good |
| Replay.CommitsNeverMoveBack | src/order_pipeline/apps/consumer.py:326-343 | no run ever lowers a committed offset |
| Replay.OneAssignmentKeepsOrder | src/order_pipeline/apps/consumer.py:252-303 | within one assignment accepted and dead-lettered offsets each strictly increase and together are exactly the contiguous slice of the log that was handled |
| Replay.HandledOncePerAssignment | src/order_pipeline/apps/consumer.py:252-265 | under one assignment no offset is handled twice |
| Replay.ReplayIsBounded | src/order_pipeline/apps/consumer.py:326-343 | an offset is handled exactly once per assignment that reached it, so at most once per assignment of its partition in the run |
| Replay.RestartReplaysExactly | src/order_pipeline/apps/consumer.py:15-18 | a new assignment starts at the committed offset and repeats exactly the part of an earlier slice from there to the lost position |
| Replay.UncommittedIsReplayed | src/order_pipeline/apps/consumer.py:326-343 | once a partition has no owner, an offset not yet committed is committed in no continuation before a later assignment has handled it |
| Drain.StepBalance | src/order_pipeline/apps/consumer.py:252-265 | each working step (poll, retry, terminal state, store) lowers the work left; no disruption adds more than it hands out |
| Drain.WorkIsBounded | src/order_pipeline/apps/consumer.py:252-265 | in any run the working steps plus the work left are bounded by what assignments and appends supplied |
| Drain.FiniteLogFiniteWork | src/order_pipeline/processing.py:111-139 | on a finite log a run takes at most (longest partition) x (max_attempts + 2) working steps per assignment |
| Drain.NoMessageBlocks | src/order_pipeline/apps/consumer.py:252-265 | a working step is possible exactly while work is left |
| Drain.UninterruptedWorkFinishes | src/order_pipeline/apps/consumer.py:252-265 | from every group state a run of working steps alone finishes all work within the measure and keeps every owner |
| Drain.DrainedGroupCommitsEverything | src/order_pipeline/apps/consumer.py:364-371 | once the log is drained and owned, the owners' graceful close commits the end of every partition |
| Orders.DecodesExactly | src/order_pipeline/apps/consumer.py:305-324 | an order comes out exactly of a record with orderId, product and a convertible price, and carries those fields |
| Orders.DecodeFailures | src/order_pipeline/apps/consumer.py:312-324 | decoding raises only the deserialization error, except exactly where float() itself escapes |
| Orders.SpacesExactly | src/order_pipeline/models.py:63-66 | the characters stripped are Python's 29 whitespace characters, listed one by one |
| Orders.StripsTheEnds | src/order_pipeline/models.py:63-66 | stripping takes off the blank ends and nothing else |
| Orders.StripsToNothing | src/order_pipeline/models.py:63-66 | stripping leaves nothing exactly of all-whitespace text |
| Orders.ValidExactly | src/order_pipeline/models.py:53-70 | validation passes exactly non-blank id and product with a finite positive price, and fails only with the validation error |
| Retry.RefusedExactly | src/order_pipeline/retry.py:31-41 | which policies construction refuses, check by check |
| Retry.BaseIsMonotone | src/order_pipeline/retry.py:57 | the unjittered pause never shrinks for any legal policy and stays at the cap once there |
| Retry.PauseWithinBand | src/order_pipeline/retry.py:50-63 | every pause lies in base*(1-j)..base*(1+j) and the clamp at zero never changes it |
| Retry.LengthensExactly | src/order_pipeline/retry.py:57-63 | for any two attempts, below, at or across the cap, the later pause is the longer under every draw if and only if the jitter bands around the two bases do not overlap |
| Retry.CallLengthensExactly | src/order_pipeline/retry.py:47-63 | the k pauses of one call never shrink, whatever is drawn, if and only if the bands around the first k bases ascend |
| Retry.CallLengthensBelowCap | src/order_pipeline/retry.py:57-63 | in particular whenever multiplier*(1-j) >= 1+j and the last exponential is within the cap |
| Retry.LengthensBelowCap | src/order_pipeline/retry.py:57-63 | below the cap consecutive pauses lengthen under every draw if and only if multiplier*(1-j) >= 1+j or the initial pause is zero |
| Retry.LengthensAtCap | src/order_pipeline/retry.py:57-63 | at the cap they do so if and only if there is no jitter or no pause |
| Retry.DefaultsLengthen | src/order_pipeline/retry.py:25-29 | the default policy lengthens under every draw across all its pauses |
| Retry.TotalWithinBand | src/order_pipeline/retry.py:47-63 | the total sleep of one call is within (1-j) and (1+j) times the sum of its capped bases, itself at most k caps |
| Retry.BasesClosedForm | src/order_pipeline/retry.py:57 | that sum is a geometric prefix up to the cap crossover plus a linear tail at the cap |
| Retry.CappedPausesCanShrink | src/order_pipeline/retry.py:57-63 | the default ratios with eight attempts reach the cap, and a pause can then be shorter than the one before |
| Retry.CallStaysBelowExactly | src/order_pipeline/retry.py:47-63 | for every legal policy, all calls with k pauses stay below a limit if and only if (1+j) times the sum of the first k bases does |
| Retry.DefaultWorstCase | src/order_pipeline/apps/consumer.py:108 | at the defaults one call sleeps at most 1.68 s, far below the poll limit |
| Retry.DefaultWorstCaseReached | src/order_pipeline/retry.py:25-29 | the 1.68 s can occur, within the default number of attempts |
| Statistics.FoldIsBatch | src/order_pipeline/aggregation.py:26-37 | incremental count, mean*count, minimum and maximum equal length, sum, least and greatest of everything observed |
| Statistics.PricesExactly | src/order_pipeline/aggregation.py:63-66 | the prices of a scope are those of its own orders, all of them and in their order |
| Statistics.FoldOfPermutation | src/order_pipeline/aggregation.py:26-32 | the statistics depend only on the multiset of observations |
| Statistics.AggregateIgnoresOrder | src/order_pipeline/aggregation.py:63-66 | any reordering of the processed orders leaves every scope the same |
| Statistics.ProductsAddUp | src/order_pipeline/aggregation.py:63-66 | product counts and totals add up to the global ones |
| Statistics.ExtremesCombine | src/order_pipeline/aggregation.py:63-66 | the global extremes are the extremes of the product extremes |
| Statistics.MeanWithinExtremes | src/order_pipeline/aggregation.py:26-32 | the mean lies between minimum and maximum |
| Statistics.MeanBetweenProductMeans | src/order_pipeline/aggregation.py:63-66 | the global mean lies between the smallest and the largest product mean |
| Statistics.RoundingBound | src/order_pipeline/aggregation.py:26-32 | if each stored update is within eps of the exact one, the mean is within eps*(n+1)/2 of the true average after n updates |
| Statistics.RoundingBoundAttained | src/order_pipeline/aggregation.py:26-32 | for every price sequence some legal updates leave the mean off by exactly eps*(n+1)/2 |
| Statistics.RoundingBoundExactly | src/order_pipeline/aggregation.py:26-32 | a number b bounds the error of the mean over all legal updates if and only if eps*(n+1)/2 <= b |
| Statistics.BoundedForeverExactly | src/order_pipeline/aggregation.py:26-32 | one bound for streams of every length exists if and only if updates are exact |
| Aggregation.RunningStats.Update | src/order_pipeline/aggregation.py:26-32 | the four fields move by one Welford step |
| Aggregation.OrderAggregator.Add | src/order_pipeline/aggregation.py:63-66 | in place: the global scope and exactly the order's product gain that one order, every scope staying the fold of its own orders with no shared objects |
| Aggregation.OrderAggregator.Snapshots | src/order_pipeline/aggregation.py:78-84 | the list is the global record, then one per product, ascending by first difference, recomputed from the orders |
| Aggregation.LessExactly | src/order_pipeline/aggregation.py:82 | the recursive comparison is the order of strings by their first difference, or by length when one continues the other |
| Aggregation.Sorted | src/order_pipeline/aggregation.py:82 | the product names, each once, every earlier one before every later one by their first difference |
| Aggregation.SnapshotSummarises | src/order_pipeline/aggregation.py:39-54 | each record of a snapshot shows the number, sum, average, least and greatest of the prices of the scope it names |
| Aggregation.EmptyRecord | src/order_pipeline/aggregation.py:39-54 | before the first order a record shows zeros throughout |
| Aggregation.SnapshotIsConsistent | src/order_pipeline/aggregation.py:78-84 | every snapshot: one record per product, strictly ascending by first difference; counts and sums add up to the first record; its extremes are met by products; means surround the global mean |
| Aggregation.ScopeNamesDistinctExactly | src/order_pipeline/aggregation.py:80-83 | the scope names are distinct if and only if no product is called ALL |
| Aggregation.ScopeNamesCanClash | src/order_pipeline/aggregation.py:80-83 | an order for a product ALL: a snapshot with the scope twice |
| Processing.HandleIsDecided | src/order_pipeline/processing.py:97-142 | an invalid order costs no call; otherwise the first non-transient answer within the budget decides and its index is the number of calls; without one the budget is exhausted after exactly max_attempts calls |
| Processing.OutcomeIsVerdict | src/order_pipeline/processing.py:97-142 | what the caller gets, answer by answer: the order with the calls made, the deciding error, or an exhausted budget with the calls made |
| Processing.FlakyFailures | src/order_pipeline/processing.py:62-76 | the simulated downstream fails only transiently, exactly on the draws below its rate; never at rate 0, always at rate 1 |
| Processing.Sink.Call | src/order_pipeline/processing.py:70-76 | one call moves exactly one of the counters, by its answer |
| Processing.OrderProcessor.Handle | src/order_pipeline/processing.py:97-142 | the loop returns that verdict: on success the order itself with as many attempts as sink calls were made, on exhaustion max_attempts; the sink is charged for exactly those calls, one pause lies between any two, each in its jitter band; exactly that order is aggregated on success and nothing otherwise |
| DeadLetters.NormalizeHeaders | src/order_pipeline/dlq.py:47-64 | whichever way headers come: every one once, in order, under its key, text encoded, bytes as they are, nothing as no bytes |
| DeadLetters.ManagedExactly | src/order_pipeline/dlq.py:42-44 | exactly the keys beginning x-dlq- or x-origin- are managed |
| DeadLetters.UnmanagedExactly | src/order_pipeline/dlq.py:133-137 | the headers kept are those without such a prefix, all of them and in their order |
| DeadLetters.LetterIsDeadLetter | src/order_pipeline/dlq.py:97-150 | field by field: the letter goes to the dead letter topic with the original key and value, the kept headers, then ten headers with literal keys and each its own value, reason and class spelled out |
| DeadLetters.DecimalReadsBack | src/order_pipeline/dlq.py:143-149 | numbers written into headers read back as themselves and have no leading zero |
| DeadLetters.ReplaysPreserve | src/order_pipeline/dlq.py:97-108 | after any number of fail-and-replay rounds key, value and unmanaged headers are the original's |
| DeadLetters.LetterIsStable | src/order_pipeline/dlq.py:124-150 | a letter after any number of rounds is the original's unmanaged headers followed by this failure's context, each of the ten managed headers occurring once |
| DeadLetters.ViewHasKeys | src/order_pipeline/apps/dlq_inspector.py:43-47 | the inspector's view has exactly the keys some header has |
| DeadLetters.InspectorShowsLastFailure | src/order_pipeline/apps/dlq_inspector.py:43-47 | the inspector's dictionary view shows the context of the last failure only |
| DeadLetters.DeadLetterPublisher.Publish | src/order_pipeline/dlq.py:97-157 | hands over one letter, the dead letter of its message field by field in the publisher's own topic, and counts it unless producing or flushing raised, whatever remains queued; a delivery report, good or bad, only reaches the log |
| Cadence.EmitKeepsBooks | src/order_pipeline/apps/consumer.py:167-176 | emissions cover the processed orders without gap or overlap, each showing exactly what was covered up to it |
| Cadence.EmitsExactly | src/order_pipeline/apps/consumer.py:162-175 | an emission happens exactly if something was ever processed and it is forced, a batch is full, or something is pending and the interval has passed at the next reading; it covers everything pending and is timed by a reading of its own |
| Cadence.Heartbeat | src/order_pipeline/apps/consumer.py:162-175 | when an unforced emit returns, nothing is pending, or fewer than every_n are and the interval had not passed at the reading used |
| Cadence.EmitKeepsSpacing | src/order_pipeline/apps/consumer.py:130-136 | with a clock that never goes back, emission times never go back, and each unforced emission covers a full batch or comes a full interval after the one before it |
| Cadence.TotalsIncrease | src/order_pipeline/apps/consumer.py:167-176 | the ALL count strictly increases up to every later unforced emission |
| Cadence.EmissionsAreBounded | src/order_pipeline/apps/consumer.py:159-176 | unforced emissions never outnumber processed orders |
| Cadence.FinalSnapshotIsComplete | src/order_pipeline/apps/consumer.py:364-367 | the forced snapshot of a non-empty run shows every processed order |
| Cadence.AggregatePublisher.Emit | src/order_pipeline/apps/consumer.py:167-195 | moves the publisher as the emission rule says and produces a prefix of one consistent snapshot, cut only by a full queue |
| Consumer.LoopBalances | src/order_pipeline/apps/consumer.py:252-303 | at every loop head and exit: consumed = processed + dead-lettered, processed = orders aggregated = delivered, dead-lettered = published, retried = acceptances after a retry, sink calls add up; off by at most the one in-flight message on exceptional exits |
| Consumer.LoopNeverRefused | src/order_pipeline/processing.py:70-76 | with a sink that only fails transiently, delivered plus failures is the number of attempts made |
| Consumer.LoopFollowsProtocol | src/order_pipeline/apps/consumer.py:251-303 | whatever the environment does, the app's acts follow the control flow of the group protocol; at a normal end no message is in hand, and an exception from decoding, the sink, publishing or storing leaves its message not stored |
| Consumer.TurnExactly | src/order_pipeline/apps/consumer.py:251-265 | one more input for any running loop: an empty poll and a handled message each bring the publisher up to date by a reading taken in that turn (a due round is added and shows every processed order); poll errors pass unless fatal and not the end of a partition; a message is counted, handled, and its store put on record truthfully |
| Consumer.LoopKeepsPace | src/order_pipeline/apps/consumer.py:252-265 | at every loop head emissions plus pending are exactly the processed orders, and either nothing is pending, or fewer than every_n are and the interval had not passed at the last clock reading |
| Consumer.RunIsRateLimited | src/order_pipeline/apps/consumer.py:162-175 | over a whole run, any two consecutive emissions are an interval apart unless the later one is forced or covers a full batch |
| Consumer.RunEndsComplete | src/order_pipeline/apps/consumer.py:364-371 | however the loop ended, the last snapshot of a run that processed anything shows every processed order |
| Consumer.LetterCarriesFate | src/order_pipeline/apps/consumer.py:271-303 | handling a message hands over at most one letter, its own dead letter field by field in the configured topic, with the decided error and attempts, and aggregates exactly the order the sink accepted |
| Consumer.HandleMovesCounters | src/order_pipeline/apps/consumer.py:271-303 | each counter moves by its own case only, retried exactly for an acceptance after more than one call, and an accepted order's attempts are the sink calls made |
| Consumer.HandleLeavesTrace | src/order_pipeline/apps/consumer.py:271-303 | the acts of one message are one retry between any two sink calls, then the acceptance or the dead letter with what its flush brought |
| Consumer.HandleStopsExactly | src/order_pipeline/apps/consumer.py:271-303 | handling leaves the loop exactly if publishing raised or nothing is recorded of the message, and the exit says which |
| Consumer.RoutingIsFaithful | src/order_pipeline/dlq.py:76-84 | for ordinary sinks each reason stands for exactly one cause, exhausted budgets record the calls made, and UNEXPECTED_ERROR never occurs |
| Consumer.UnexpectedExactly | src/order_pipeline/apps/consumer.py:280-290 | for any sink: recorded as unexpected exactly on an unclassified processing error, and not recorded at all exactly on an exception outside the taxonomy |
| Consumer.EscapedFailure | src/order_pipeline/apps/consumer.py:280-290 | a sink that raises outside the taxonomy: no letter, no further act, and the app leaves the loop |
| Consumer.AttemptsHeaderExactly | src/order_pipeline/apps/consumer.py:275-290 | for any sink and any dead-lettered message, the attempts header equals the sink calls if and only if the order was valid and the budget was exhausted, or the refusing answer claims exactly the calls made (for a plain refusal: it came first) |
| Consumer.UndercountedAttempts | src/order_pipeline/apps/consumer.py:285-287 | transient, then permanent: two calls, and a header that says one |
| App.ConsumerApp.HandleMessage | src/order_pipeline/apps/consumer.py:271-303 | the imperative method moves all components' books as specified |
| App.ConsumerApp.Run | src/order_pipeline/apps/consumer.py:239-269 | the imperative loop computes the specified run for all inputs; each list it published shows exactly the orders processed up to its emission, cut only by a full queue; on every exit it closes, and commits unless closing itself raised |
| App.ConsumerApp.Close | src/order_pipeline/apps/consumer.py:364-371 | the forced snapshot, then a flush whose delivery reports only reach the log, and the commit only if that flush did not raise |
| Refinement.AppsAreLegal | src/order_pipeline/apps/consumer.py:239-269 | any number of apps at once, each over any number of lives stopping anywhere by a kill or a close, interleaved with any steps of others, make a legal run of the group that keeps its invariant, and each app stands where its own acts lead |
| Refinement.AppsLoseNothing | src/order_pipeline/apps/consumer.py:15-18 | at-least-once for the apps themselves at any moment of any of their lives, on all inputs and interleavings: committed messages are terminal, durable exactly if secured, and durable if their letters were reported delivered |
| Refinement.InterruptedMessageIsReplayed | src/order_pipeline/apps/consumer.py:15-18 | when a life ends, killed or closed, with a message in hand or not yet stored, no continuation commits that message before a later assignment has handled it anew |
| Refinement.EscapeCommitsNothing | src/order_pipeline/apps/consumer.py:266-267 | after an exception from decoding, the sink, publishing or storing, the close does not commit the message it interrupted |
| Refinement.GrantsExactly | src/order_pipeline/apps/consumer.py:251-267 | an act of a ready app is granted exactly if the protocol allows the step, so the premise on the environment is no stronger than the protocol |
| Refinement.EndOfLife | src/order_pipeline/apps/consumer.py:364-371 | a life that is killed commits nothing on the way out, one that closes commits what is stored |
| Refinement.AppCommitsWhatItDrained | src/order_pipeline/apps/consumer.py:364-371 | however the apps lived before and with stores refused only for lost partitions, a loop that ends on request closes with the end committed of every partition it was given all of |
| Refinement.CloseCommitsAllButInHand | src/order_pipeline/apps/consumer.py:266-267 | whichever way the loop ends, the close commits everything polled of an owned partition except the message in hand |

## Left out

- Aggregation.OrderAggregator.Add: takes finite prices only, because only validated orders reach it; NaN and infinities are modelled up to validation.
- Retry.RetryPolicy: an infinite cap, which the settings accept, is not a value of its own; any cap above every exponential the attempts reach stands for it.
- Retry.Backoff: an attempt below 1 (a ValueError in the source) and float overflow of the power are not modelled; prices, pauses and means are exact reals, with rounding treated only by the eps-perturbed mean.
- App.BuildApp: a retry policy that fails its own checks, or publication settings outside their configured ranges, are rejected before construction and appear as a precondition.
- Cadence.AggregatePublisher.Emit: exceptions other than a full queue (serialisation, a fatal producer error) are not modelled; in the group protocol they are a crash.
- App.ConsumerApp.Run: an interrupt by a second signal is modelled where the loop calls out (poll, sink, publish, store), not inside a sleep; the group protocol allows a crash at every step.
- DeadLetters.InspectorShowsLastFailure: the UTF-8 codec is a parameter of which only the round trip is assumed, and only here; replacement of lone surrogates is not modelled.
- Dead letters: a rejected letter is taken not to be in the topic; a broker that wrote it but failed to say so is not modelled.
- Delivery: logs have no gaps (compaction, transaction markers); a group starts from given offsets, so the effect of `auto_offset_reset = latest` before a first commit is not modelled.
- Delivery: a graceful revocation is a commit step followed by a revocation step.
- Kafka, librdkafka, the Schema Registry and Avro encoding are environment; decoding is an arbitrary input.
- The producer app, the inspector's printing and polling, logging, argument parsing, settings, schema files and deployment scripts would add only easy members.
- The probability of failures and the quality of the jitter: draws are arbitrary within their range.
