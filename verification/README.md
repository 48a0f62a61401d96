# The relayer's transaction processor and block indexer, in Dafny

Two parts of the relayer are modelled, and their behaviour over whole runs is proved:

* **The transaction processor** (`account/`). Ethereum transactions are submitted, sorted by their nonces, sent to Near
  under one of several access keys, and retried until they succeed, expire or are given up. Every key has a shard: an
  `unordered` queue with a `sort` worker, an `ordered` queue with a `send` worker, a lock and a circuit breaker. All
  workers and one goroutine per request share two nonce caches.
* **The block indexer** (`indexer/indexer.go`). A loop of state functions reads block files, inserts the blocks into a
  store, publishes them, removes files and folders and goes on to the next height, with retries, a bound, forced
  re-indexing, crashes and restarts.

## How it is built

| file | content |
|---|---|
| `Wrappers.dfy`, `TxnError.dfy`, `TxnFailure.dfy`, `TxnReqResp.dfy`, `TxnMapper.dfy` | the status tables, the failure classifier, what `eval` makes of an answer, the key mapper |
| `TxnQ.dfy` | the bounded queue, as a class and as a ledger of what was accepted, handled and buffered |
| `Protocol.dfy` | the processor as a transition system: one step is one atomic action of one goroutine |
| `History.dfy` | what happened so far, recorded beside the state and never read by a step |
| `Conservation.dfy`, `Caches.dfy`, `Ordering.dfy`, `Evidence.dfy`, `Shutdown.dfy`, `Breaker.dfy` | one invariant each, with the proof that every step keeps it |
| `Runs.dfy` | the invariants together, for every reachable state |
| `Theorems.dfy`, `Progress.dfy` | what follows: safety over all runs, deadlock freedom and termination |
| `Close.dfy`, `BreakerLost.dfy`, with `Reaching.dfy` | what `Close` guarantees and what not, and a run that loses the breaker; runs are put together step by step |
| `Outcomes.dfy` | what single steps come to, told from outside: retries, timers, answers, successes, the breaker, the queues |
| `ProcessorCode.dfy` | `sort`, `send`, `eval` and the cache functions as methods that update the fields of an object, each proved equal to its steps in a row, and so to keep the invariants |
| `Indexer.dfy`, `IndexerRuns.dfy`, `IndexerSite.dfy` | the indexer as a state machine, its runs, and a machine with crashes and restarts |
| `IndexerOutcomes.dfy` | what the state functions come to, told from outside |
| `IndexerProcess.dfy` | the state functions and the loop as methods of an object, each proved equal to its step |

A reachable state of the processor is the end of a run from the initial state, over any number of keys, senders and
requests and any interleaving. The steps are fine: `sort` waits for room in `ordered` while it holds the lock, a timer
goes off, a call is under way, `eval` takes the lock, switches the breaker on, looks at each cache, asks the node,
releases the lock and only then switches the breaker off, each as a step of its own. The node may answer anything, and the
clock may advance by any amount at any time. A request is numbered in the order of submission; queues, timers and calls
hold these numbers, timers and calls in bags so that a duplicate would show.

## Assumptions

* There is at least one key, keys are distinct, and the key of a sender is a function of the sender (`ValidConfig`). This
  is the CRC32 mapper for an arbitrary checksum.
* A request nonce is below 2^64-1, so that `nonce + 1` fits its word (the guard of `Submit`). Near nonces and fetched
  nonces are reduced modulo 2^64 as in the code.
* Near calls return, with an error or with a result on which no type assertion of the classifier panics.
* Map and field accesses are atomic, and steps interleave one at a time.
* The `wg.Add` of a worker (`account/txnQ.go:56`) has run before `Close`.
* The file of height h holds a block of height h, `BlockNumber` answers with the highest stored height, and an
  `InsertBlock` that fails leaves the store unchanged.
* Addresses and keys are numbers; so are folders, which are named by the first height of their batch.

## Where the code differs from what it says

* The bound of the indexer is inclusive: block `ToBlock` is inserted (`IndexerSite.BoundIsInclusive`), although the
  comment at `indexer/config.go:43` says exclusive.
* `TxnProcessor.Close` is documented to wait for all received transactions to be completed
  (`account/txnProcessor.go:171`). It does not: for every configuration there is a run in which it returns while a Near
  call is under way (`Close.CloseDoesNotWaitForCalls`). The exact guarantee, as a condition at the call, is
  `Close.CloseGuaranteesOnlyTheFinished`: a request is sure to be finished when `Close` returns if and only if it was
  finished when `Close` was called. `Close` does return: it never hangs (`Close.CloseNeverHangs`).
* The breaker is switched off after the lock is released, so a second `eval` can lose the breaker that it has just
  switched on. `BreakerLost.BreakerIsLost` exhibits such a run, and `Breaker.ConverseIsLostByClearing` says exactly which
  step does it.
* A failed lookup of the latest block makes `New` start at the configured block although later ones are stored
  (`IndexerSite.FailedLookupStartsOver`); `IndexerSite.StartsAboveStore` says exactly when it starts above the store.
* The answer that `eval` pushes with a made-up success would make the next `eval` panic
  (`TxnReqResp.ExtraAnswerMustNotBeReceived`); it is never received (`Theorems.SettledForever`).
* `stop` dereferences the latest block for its log message and so panics when there is none; the model has a phase for
  that.

## Model

| member | source | states |
|---|---|---|
| `Theorems.EveryRequestIsInOnePlace` | account/txnProcessor.go:138-344 | in every reachable state each submitted request is in exactly one place (submitter, queue, worker, timer, call, answer, `eval` or finished), and never in another shard |
| `Theorems.AnswersNeverBlock` | account/txnReqResp.go:41-57 | whoever is about to answer a request finds its channel of capacity one empty, also `eval` under the lock |
| `Theorems.SettledForever` | account/txnProcessor.go:149-165 | on every continuation of a run a finished request stays finished, and nothing is received any more once a success was made up |
| `Conservation.StepKeepsSound` | account/txnProcessor.go:138-344 | every step keeps conservation, lock ownership and shard membership for all requests |
| `Conservation.ActKeepsRequest` | account/txnProcessor.go:183-344 | a step of a request neither loses nor copies it, never overfills its channel, and takes and releases the lock consistently |
| `Conservation.ActSpares` | account/txnProcessor.go:183-344 | a step of one request leaves every other request where it is in the shard |
| `Outcomes.RetryIsPutBack` | account/txnProcessor.go:155-160 | a retry goes to the end of the unordered queue if and only if fewer than 100 requests are there, and the goroutine listens on; otherwise the request is finished, as refused if there was to be a retry |
| `Outcomes.FinishingMeansConcluding` | account/txnProcessor.go:149-165 | a request becomes finished in no other way: `eval` said no retry, or the queue was full |
| `Outcomes.SuccessIsNeverRetried` | account/txnProcessor.go:261-276 | over every run, a request whose call succeeded is finished or about to finish, without lock or retry |
| `Outcomes.SuccessIsRecognised` | account/txnProcessor.go:269-276 | an answer judged as a success leads straight to the end |
| `Outcomes.TimerPushesOrAnswers` | account/txnProcessor.go:218-223 | a timer that goes off pushes its request if there is room and answers it as exhausted otherwise |
| `Outcomes.AnswersArrive` | account/txnProcessor.go:251-255 | a call under way can return with anything that does not make `eval` panic, and just that is received |
| `Outcomes.SubmittedIsQueued` | account/txnProcessor.go:167 | the first push waits for room and then goes to the end of the queue |
| `Outcomes.BreakerHoldsBack` | account/txnProcessor.go:231-235 | a request that `send` has taken passes only with the breaker off; with it on it is answered and no call is made |
| `Outcomes.ExpiryTakesSixtySeconds` | account/txnReqResp.go:35-39 | a request is expired if and only if it was submitted more than sixty seconds ago |
| `Outcomes.QueuesAreFifo` | account/txnQ.go:26-72 | in every step both queues of every shard lose at most their first item or gain one at the end |
| `Theorems.ShardsKeepToThemselves` | account/txnProcessor.go:72-90 | whatever is in a shard's queues, workers or lock belongs to the shard of its sender, whose index is below the number of keys |
| `Theorems.EthEntryNeedsLock` | account/txnProcessor.go:183-228 | a step that reads or writes the Eth entry of a sender is only possible while the shard lock is held for that request |
| `Theorems.OthersIgnoreEth` | account/txnProcessor.go:231-256 | all other steps are possible or not, and do the same, whatever the Eth entry is, and leave it alone |
| `Theorems.OtherSendersUntouched` | account/txnProcessor.go:397-429 | no step changes the Eth entry of another sender |
| `Progress.NoDeadlock` | account/txnProcessor.go:138-344 | in every reachable state, also during `Close`, an unfinished request means that some step of its shard is possible, without time passing or a new request, unless it is about to push onto a closed queue |
| `Progress.BlockedSortIsReleased` | account/txnProcessor.go:183-256 | in every reachable state, when `sort` waits for room with the lock held, `send` can move, and each of its steps makes room or brings it nearer to that |
| `Progress.LockHolderCanMove` | account/txnProcessor.go:303-311 | in every state with the invariant, also during `Close`, whoever holds a shard lock can move, or `send`, on which it waits, can |
| `Progress.ActLowersRank` | account/txnProcessor.go:183-344 | every step of an expired request lowers its rank, whatever the node answers |
| `Progress.RankZeroIsFinished` | account/txnProcessor.go:138-165 | a request whose rank is zero is finished |
| `Progress.ExpiredRequestEnds` | account/txnProcessor.go:303-344 | once expired, a request takes at most 25 more steps of its own over any run, in spite of forced retries, and fewer as long as it is not finished; so after 25 it is finished |
| `Progress.ExpiredSystemDrains` | account/txnProcessor.go:183-344 | when all requests have expired and none is submitted, a run has at most 25 steps per request, in any order, and where it cannot go on every request is finished or about to push onto a closed queue |
| `Progress.StuckMeansFinished` | account/txnProcessor.go:138-344 | in every reachable state in which no step of a request is possible, every request is finished or about to push onto a closed queue; before `Close`, finished |
| `Theorems.MatchedNoncesAreConsecutive` | account/txnProcessor.go:193-208 | between two refreshes of a sender's Eth entry, the requests let through on a match carry consecutive Eth nonces |
| `Theorems.NearNoncesAreCountedUp` | account/txnProcessor.go:351-369 | between two refreshes of a key's Near entry, the calls under the key get Near nonces counted up one by one |
| `Theorems.CallsBelongToTickets` | account/txnProcessor.go:200-256 | a call is made for a request that `sort` let through, with that request's sender and nonce, under the key of its sender |
| `Theorems.EveryCallIsRecorded` | account/txnProcessor.go:242-255 | every step that starts a Near call, and no other, appends to the recorded calls of the key, with the nonce that the cache then holds; so the results about calls cover all of them |
| `Theorems.LowerEthNonceHasLowerNearNonce` | account/txnProcessor.go:193-256 | of two calls for matched requests of one sender between refreshes, the lower Eth nonce has the lower Near nonce, and conversely, short of a wrap-around of the 64-bit word |
| `Ordering.ActKeepsOrder` | account/txnProcessor.go:183-256 | every step keeps the line of a shard, the streaks of a sender and the calls of a key in order |
| `Ordering.NewTicketContinuesStreak` | account/txnProcessor.go:193-208 | a request that matches the entry continues the streak of its sender by one |
| `Theorems.GivingUpNeedsEvidence` | account/txnProcessor.go:313-343 | a request that ends with a nonce status, unless refused its retry, ends just after a successful refresh whose nonce exceeds its own |
| `Theorems.MadeUpSuccessNeedsRetransmit` | account/txnProcessor.go:323-336 | a success is made up if and only if a request marked for retransmission gives up on an Eth nonce error; the mark comes from an earlier timed-out call or failed lookup |
| `Theorems.RetransmitMeansMarked` | account/txnProcessor.go:278-292 | a request has the retransmit flag if and only if one of its answers marked it |
| `Evidence.ActKeepsEvidence` | account/txnProcessor.go:259-344 | every step keeps the verdict of `eval` justified by the answers and refreshes that led to it |
| `Theorems.EthRefreshRate` | account/txnProcessor.go:397-429 | refreshes a to b of a sender's Eth entry span at least 2(b - a) seconds, over any interleaving of `sort` and `eval` |
| `Theorems.NearRefreshRate` | account/txnProcessor.go:371-391 | likewise for the Near entry of a key |
| `Theorems.EthRefreshesInWindow` | account/txnProcessor.go:397-429 | a window of T seconds holds at most T / 2 + 1 refreshes of a sender's entry |
| `Theorems.NearRefreshesInWindow` | account/txnProcessor.go:371-391 | likewise for the Near entry of a key |
| `Theorems.ColdBranchesAreUnreachable` | account/txnProcessor.go:371-405 | the branches that create a missing entry in the two update functions are never taken |
| `Theorems.SortedSendersStayCached` | account/txnProcessor.go:193-198 | the first unexpired `sort` of a request puts its sender into the cache, and no step takes a sender out |
| `Caches.ActKeepsCaches` | account/txnProcessor.go:351-429 | every step keeps entries present where they are needed and refreshes two seconds apart |
| `Theorems.BreakerNeverSticks` | account/txnProcessor.go:304-311 | a breaker is on only while some `eval` of its shard is between switching it on and off |
| `Breaker.ConverseIsLostByClearing` | account/txnProcessor.go:304-311 | where the breaker is on whenever an `eval` of the shard is in between, a step keeps that if and only if it does not clear the breaker while another `eval` is in between |
| `Breaker.OverlappingEvalsLoseBreaker` | account/txnProcessor.go:304-311 | whenever one `eval` has released the lock and another is about to take it, three possible steps leave the second without its breaker |
| `BreakerLost.BreakerIsLost` | account/txnProcessor.go:304-311 | for every configuration, a run from the initial state after which an `eval` is between switching its breaker on and off, and the breaker is off |
| `Theorems.SortPushesOntoOpenQueue` | account/txnProcessor.go:172-181 | while a `sort` worker is there, the ordered queue that it pushes onto is open |
| `Theorems.CloseDrainsEverything` | account/txnProcessor.go:172-181 | when `Close` is through, every worker has left, every queue is empty, and every request let through was taken by its `send` worker |
| `Theorems.QueuesAreBounded` | account/txnProcessor.go:72-86 | no queue ever holds more than its capacity |
| `Close.CloseNeverHangs` | account/txnProcessor.go:171-181 | in every reachable state in which `Close` has not returned, it can go on, or the worker of the one shard that it waits for can leave or move, or whoever that worker waits for in that shard can move; for an ordered queue that is the `send` worker alone |
| `Close.CloseCanReturn` | account/txnProcessor.go:171-181 | from every reachable state some continuation leads to the return of `Close` without finishing an unfinished request or ending its calls |
| `Close.CloseGuaranteesOnlyTheFinished` | account/txnProcessor.go:171-181 | a request is sure to be finished when `Close` returns if and only if it is finished when `Close` is called |
| `Close.CloseDoesNotWaitForCalls` | account/txnProcessor.go:171-181 | for every configuration, a run with one request after which `Close` has returned and a call for it is under way |
| `Close.CloseLeavesOutOfQueues` | account/txnProcessor.go:171-181 | when `Close` has returned, the uncompleted requests are exactly those with their submitter, a timer, the node or their goroutine |
| `Runs.StepKeepsInvariant` | account/txnProcessor.go:138-344 | every step keeps all invariants together |
| `Runs.ReachableHasInvariant` | account/txnProcessor.go:138-344 | they hold in every reachable state |
| `Protocol.RealConfigSpreads` | account/txnProcessor.go:48-63 | every key gets the senders with the right checksum |
| `Protocol.RealConfigIsValid` | account/txnProcessor.go:48-63 | the CRC32 mapper, for any checksum, and the judgement of `eval` meet what the proofs rely on |
| `TxnMapper.Crc32Map` | account/txnMapper.go:16-19 | the index of a sender's key is the remainder of its 32-bit checksum on division by the number of keys |
| `TxnMapper.EveryKeyIsUsed` | account/txnMapper.go:16-19 | no index is left out |
| `TxnError.WhatStatusesAskFor` | account/txnError.go:28-42 | which statuses are retried, which look at the Eth nonce and which at the Near nonce, each if and only if; the lock is taken just for a look at the Eth nonce |
| `TxnError.ErrorTextsDiffer` | account/txnError.go:28-42 | the error texts tell the statuses apart |
| `ProcessorCode.SortCallDisposes` | account/txnProcessor.go:183-229 | one `sort` disposes of its request in exactly one way, each if and only if a condition on age, entry and nonce holds: answered with which status, queued or given to a timer; and it changes nothing else but the Eth entry |
| `ProcessorCode.SortCallLeavesEntry` | account/txnProcessor.go:193-227 | what the Eth entry is afterwards: made by the first request, moved on by a match, refreshed by a request that waits if it is two seconds old and the node answers, otherwise unchanged |
| `ProcessorCode.SendCallDisposes` | account/txnProcessor.go:231-256 | one `send` answers its request with the breaker on, with its time over, or without a Near nonce, and otherwise starts a call with the next Near nonce; nothing else changes |
| `ProcessorCode.SortCallKeepsSound` | account/txnProcessor.go:183-229 | the steps of one `sort` in a row keep conservation, locking, caches, order and evidence |
| `ProcessorCode.SendCallKeepsSound` | account/txnProcessor.go:231-256 | likewise the steps of one `send` |
| `ProcessorCode.EvalCallKeepsSound` | account/txnProcessor.go:259-344 | likewise the steps of one `eval` |
| `ProcessorCode.EvalCallComesTo` | account/txnProcessor.go:259-344 | one `eval` ends with the lock free, the breaker off if it took the lock, the status and success of the judgement, the entries refreshed as the table asks for, and a retry as table and refresh decide; nothing else changes |
| `ProcessorCode.RoundComesTo` | account/txnProcessor.go:149-165 | one round of the goroutine of `Submit`: the request goes back if and only if its answer is a reason to try again, spelled out by status, age of the entry and chain nonce, and there is room; otherwise it is finished |
| `ProcessorCode.ReorderedAndTimedOutGoBack` | account/txnProcessor.go:149-165 | a request sent out of order or timed out goes back whenever there is room, without lock or look at the chain |
| `ProcessorCode.RoundCallKeepsSound` | account/txnProcessor.go:149-165 | such a round keeps conservation, locking, caches, order and evidence |
| `ProcessorCode.EthCallDecides` | account/txnProcessor.go:317-337 | a wanted refresh that does not go through forces a retry, one that passes the request by ends it, otherwise the table decides |
| `ProcessorCode.NearCallRefreshes` | account/txnProcessor.go:314-316 | the Near entry is refreshed if and only if that is wanted, it is two seconds old and the node answers |
| `ProcessorCode.Reach.Decide` | account/txnProcessor.go:188-228 | the branches of `sort` do what its decision step does, on state and history |
| `ProcessorCode.Reach.TriggerUpdate` | account/txnProcessor.go:225-226 | the refresh that `sort` triggers does what its steps do |
| `ProcessorCode.Reach.Sort` | account/txnProcessor.go:183-229 | the method does what the steps of `sort` do in a row, answers, queues or delays under the conditions above, and keeps conservation, locking, caches, order and evidence |
| `ProcessorCode.Reach.CallNear` | account/txnProcessor.go:242-255 | the next Near nonce and the call, or an answer, as the step of `send` for a hit or a miss |
| `ProcessorCode.Reach.Send` | account/txnProcessor.go:231-256 | the method does what the steps of `send` do in a row, answers or calls under the conditions above, and keeps the same invariants |
| `ProcessorCode.Reach.Receive` | account/txnProcessor.go:259-303 | receiving and judging an answer is one step, and tells whether the lock is to be taken |
| `ProcessorCode.Reach.RefreshNear` | account/txnProcessor.go:314-316 | the refresh of the Near entry does what its steps do |
| `ProcessorCode.Reach.RefreshEth` | account/txnProcessor.go:317-322 | the refresh of the Eth entry does what its steps do, and forces a retry if it does not go through |
| `ProcessorCode.Reach.RefreshAndDecide` | account/txnProcessor.go:317-337 | giving up and made-up success after the refresh, as the steps do it |
| `ProcessorCode.Reach.EvalLocked` | account/txnProcessor.go:303-344 | the part of `eval` under the lock does what its steps do in a row |
| `ProcessorCode.Reach.Eval` | account/txnProcessor.go:259-344 | the method does what the steps of `eval` do in a row, returns whether to retry, and keeps the same invariants |
| `ProcessorCode.Reach.Finish` | account/txnProcessor.go:155-160 | whether the goroutine listens on: if and only if there is to be a retry and the queue has room |
| `ProcessorCode.Reach.TryEnqueue` | account/txnQ.go:26-34 | the push that does not wait, at the end of the queue |
| `ProcessorCode.Reach.Round` | account/txnProcessor.go:149-165 | one round of the goroutine: it goes on if and only if the answer is a reason to try again and there is room, and keeps the same invariants |
| `ProcessorCode.Reach.NextNearNonce` | account/txnProcessor.go:351-369 | the next Near nonce, which is also what the cache then holds; nothing if and only if it is not cached and the node fails |
| `ProcessorCode.Reach.UpdateNearNonceCache` | account/txnProcessor.go:371-391 | the Near entry is set to the fetched nonce plus the queue capacity if and only if it is due and the node answers |
| `ProcessorCode.Reach.UpdateEthNonceCache` | account/txnProcessor.go:397-429 | the Eth entry is set to the fetched nonce if and only if it is due and the node answers |
| `TxnReqResp.JudgeIsSound` | account/txnProcessor.go:259-301 | own statuses are kept, errors are always judged, and exactly a failed lookup of the Near nonce or a timed-out call marks for retransmission |
| `TxnReqResp.SuccessIsASuccessValue` | account/txnProcessor.go:431-448 | an answer is a success if and only if it has no error and its status object has a success value and no failure |
| `TxnReqResp.ResultsAreJudged` | account/txnProcessor.go:261-268 | every other result: unhandled, a status by its failure path, or a panic, each if and only if a condition on the result |
| `TxnReqResp.ErrorsAreJudged` | account/txnProcessor.go:278-300 | every error: which text decides, in the order of precedence, each if and only if |
| `TxnReqResp.EthNonceErrorComesFromFailureTree` | account/txnProcessor.go:259-301 | a node's answer is an Eth nonce error if and only if the text at the failure path of its result mentions it |
| `TxnReqResp.ExtraAnswerMustNotBeReceived` | account/txnProcessor.go:329-333 | the extra answer would crash `eval`, were it received |
| `TxnFailure.WalkEnds` | account/txnProcessor.go:469-474 | one more name on a path: stuck at what is not an object, lost without the member, otherwise on to it |
| `TxnFailure.ContainsMeansInside` | account/txnProcessor.go:463 | a text contains another if and only if it is that one with something before and after |
| `TxnFailure.MatchEntry` | account/txnProcessor.go:458-475 | the inner loop: the entry's status if its path exists and its leaf matches, otherwise no match; a panic if and only if the path runs through something that is not an object |
| `TxnFailure.GetTxnStatusForFailureType` | account/txnProcessor.go:454-482 | the nested loops return the first match, for any table and any tree |
| `TxnFailure.FirstMatchIsFirst` | account/txnProcessor.go:450-482 | the first match is that of the first entry that does not pass the tree over, and `Any` exactly when all do |
| `TxnFailure.EmptyEntriesChangeNothing` | account/txnError.go:59-62 | entries without fields can be put anywhere in any table without changing a result |
| `TxnFailure.ShippedTable` | account/txnError.go:57-62 | the shipped table: nonce error, contract panic, no match and crash, each if and only if a condition on the text at the failure path |
| `TxnFailure.SwappedTableHidesNonceErrors` | account/txnError.go:57-62 | with its two entries swapped the table takes every nonce error for a contract panic and is otherwise the same |
| `TxnQueue.FifoOverAnyHistory` | account/txnQ.go:26-72 | over any history the items accepted are the items handled followed by the buffer, and the buffer is bounded |
| `TxnQueue.ClosedQueueDrains` | account/txnQ.go:41-45 | a closed queue is drained in order by as many rounds as it holds items, then the worker leaves |
| `TxnQueue.CancelledQueueStops` | account/txnQ.go:47-72 | after a cancellation the worker handles at most one more item |
| `TxnQueue.EventsComeTo` | account/txnQ.go:26-50 | closing and cancelling only set their flags; a push is accepted if and only if there is room |
| `TxnQueue.WorkersTakeTheOldest` | account/txnQ.go:54-72 | a worker takes the oldest item; without items it leaves a closed queue and waits on an open one |
| `TxnQueue.TxnQ.TryEnqueue` | account/txnQ.go:26-34 | the push that does not wait goes through if and only if there is room |
| `TxnQueue.TxnQ.Enqueue` | account/txnQ.go:36-39 | the waiting push, when it goes through, appends behind all that was accepted before |
| `TxnQueue.TxnQ.constructor` | account/txnQ.go:15-24 | a new queue is empty, open and not cancelled |
| `TxnQueue.TxnQ.CloseChannel` | account/txnQ.go:41-45 | closing loses nothing that is buffered |
| `TxnQueue.TxnQ.CancelWorker` | account/txnQ.go:47-50 | cancelling neither closes the channel nor touches the buffer |
| `TxnQueue.TxnQ.WorkerRound` | account/txnQ.go:58-70 | one round hands the oldest item to the worker, waits, or leaves, depending on close and cancellation |
| `TxnQueue.TxnQ.RunWorker` | account/txnQ.go:54-72 | the worker loop: on a closed queue it ends with everything handled in order, on an open one it waits on an empty buffer |
| `IndexerSite.NoBlockIsLost` | indexer/indexer.go:194-250 | over any run, with crashes at any step and restarts, every file that was ever on disk is still there or its block is stored |
| `IndexerSite.IndexingIsGapFree` | indexer/indexer.go:255-282 | without re-indexing a run inserts its first block, the next one, and so on, and at `read` the total is the current block less the first |
| `IndexerSite.EveryBlockExactlyOnce` | indexer/indexer.go:55-119 | without re-indexing, over any crashes and restarts, the insertions of all processes together are consecutive heights, each above everything stored before |
| `IndexerSite.HeadsFollowInsertions` | indexer/indexer.go:296-322 | published heads are inserted heights in ascending order |
| `IndexerSite.BoundIsInclusive` | indexer/indexer.go:257-261 | a run stopped by its bound has inserted exactly the blocks from FromBlock to ToBlock, both included |
| `IndexerSite.ReindexingJumpsOnce` | indexer/indexer.go:257-273 | a re-indexing run jumps after the block of its bound, ascends strictly across the jump, and never stops on the bound again |
| `IndexerSite.JumpGoesToLatest` | indexer/indexer.go:263-273 | the jump goes to the height after the highest stored one, and there is no second one |
| `IndexerSite.RemovedFolderIsNeverReadAgain` | indexer/indexer.go:233-250 | once a folder is about to be removed, no block read later in the run maps to it, not even after a jump |
| `IndexerSite.PathsAgree` | indexer/indexer.go:273-278 | in every state the folder and the file path are those of the current block |
| `IndexerSite.KeptFilesStay` | indexer/indexer.go:317-321 | over any run of processes that are told to keep their files, no file ever disappears and no removal is begun |
| `IndexerSite.CountedBlocksHadTheirFilesRemoved` | indexer/indexer.go:317-321 | without that, every block that is counted had its file removed, or the retries for that were used up |
| `IndexerSite.RemovalsAreReal` | indexer/indexer.go:227-238 | a removal deletes the file of the current block and no other; it is given up only without retries left |
| `IndexerOutcomes.ErrorsAreRetried` | indexer/indexer.go:176-188 | an error is met by the same state function again while retries last; then a block that cannot be read or inserted stops the run, and a removal does not |
| `IndexerOutcomes.MissingFilesAreWaitedFor` | indexer/indexer.go:194-210 | a missing file is waited for without using up a retry, and only a missing one |
| `IndexerOutcomes.InsertedBlocksAreStored` | indexer/indexer.go:215-222 | a block that is inserted is in the store and goes on to be published |
| `IndexerOutcomes.HeadsAreRecorded` | indexer/indexer.go:296-321 | heads go out only with a broker; files are kept if and only if so configured |
| `IndexerOutcomes.FoldersGoWithTheirBatch` | indexer/indexer.go:233-237 | a folder is removed if and only if the next height has another one and this one is empty |
| `IndexerOutcomes.FoldersTakeNoFiles` | indexer/indexer.go:243-250 | a folder that is removed takes no file with it, and the block is counted |
| `IndexerOutcomes.IncrementGoesOn` | indexer/indexer.go:255-282 | when the run stops, and otherwise the next height, the bound and the retries it goes on with |
| `IndexerOutcomes.StopEnds` | indexer/indexer.go:285-293 | a panic if and only if there is no latest block |
| `IndexerOutcomes.NewAccepts` | indexer/indexer.go:63-118 | the configurations that `New` accepts, calls indexed already, rejects or panics on, and where it starts |
| `IndexerSite.StartsAboveStore` | indexer/indexer.go:63-82 | a process starts above all that is stored if and only if it knows the latest block and does not re-index, or nothing is stored from its configured start on |
| `IndexerSite.FailedLookupStartsOver` | indexer/indexer.go:66-77 | a failed lookup of the latest block makes `New` start over |
| `IndexerRuns.WorkUsesBudget` | indexer/indexer.go:176-250 | every step on a block but the wait for its file lowers the retries left plus the phases ahead |
| `IndexerRuns.RetriesAreBounded` | indexer/indexer.go:176-250 | at most RetryCountOnFailure + 5 such steps lead from `read` to `increment` or `stop`, and the 8-bit counter stays in range |
| `IndexerRuns.WorkKeepsLife` | indexer/indexer.go:190-322 | every state function keeps the plan of insertions, the heads, the store and the paths in agreement |
| `IndexerRuns.NewIsSound` | indexer/indexer.go:55-119 | a new process is in agreement with the plan of its configuration |
| `IndexerProcess.BlockIndexer.constructor` | indexer/indexer.go:55-119 | where `New` succeeds, the object it creates |
| `IndexerProcess.BlockIndexer.EvalErr` | indexer/indexer.go:176-188 | nothing without an error, another try while retries last, otherwise the failure state; the 8-bit counter does not overflow |
| `IndexerProcess.BlockIndexer.Read` | indexer/indexer.go:194-210 | waits without using up a retry while the file is missing, uses one up on an error, and otherwise holds the block of the current file; store and disk stay |
| `IndexerProcess.BlockIndexer.Insert` | indexer/indexer.go:215-222 | the block is stored and recorded before anything is published or removed; an error uses up a retry, the last one stops |
| `IndexerProcess.BlockIndexer.Publish` | indexer/indexer.go:296-322 | never stops or retries; the head goes out at most once, and files are kept if so configured |
| `IndexerProcess.BlockIndexer.RemoveFile` | indexer/indexer.go:227-238 | removes just the current file, and goes on to the folder only at the end of a batch with an empty directory; errors never stop the run |
| `IndexerProcess.BlockIndexer.RemoveFolder` | indexer/indexer.go:243-250 | errors never stop the run, and the folder holds no file when it goes |
| `IndexerProcess.BlockIndexer.Increment` | indexer/indexer.go:255-282 | counts the block, stops at the bound, or goes on, after re-indexing from the latest stored block and without a bound, with all derived fields and the retries reset |
| `IndexerProcess.BlockIndexer.Stop` | indexer/indexer.go:285-293 | ends the run, by a panic if there is no latest block |
| `IndexerProcess.BlockIndexer.Step` | indexer/indexer.go:160 | one round of the loop is one step of the state machine, whichever state function is next |
| `IndexerProcess.BlockIndexer.Index` | indexer/indexer.go:157-170 | the loop runs the state functions as the transition system does, for any answers of store and file system, and so keeps the invariant of a run |
| `IndexerProcess.AfterEventsSound` | indexer/indexer.go:157-170 | whatever these answers, the invariant of a run holds to its end |

## Left out

- `Progress.NoDeadlock`: excludes a request that is about to push onto a closed queue, because such a push of a submitter, a timer or a retry panics in Go; the model has no such step.
- `Indexer.New`: block heights are unbounded naturals, so the wrap-around of 64-bit heights is not modelled.
- `ProcessorCode.Reach.Sort`: runs without other steps in between, for the part of the processor that one request can reach; the interleavings are those of the transition system.
- `TxnQueue.TxnQ.Enqueue`: states the moment at which a waiting push goes through; the order among several waiting senders is not modelled.
- Data races: the caches are plain Go maps shared by goroutines, and `nextNearNonce` runs without the lock; the claims are about steps, not about the Go memory model.
- The time-out of `TxnResp.Get` and its race with `eval`: it concerns only the waiter's view.
- `NewTxnReq`: decoding, signature recovery, Keccak and the checks of gas price and gas limit are library calls and short conditionals.
- `RoundRobinMapper`: it increments a copy of its counter and so always maps to the same key; nothing is claimed about it.
- The CRC32 checksum itself, the Near RPC client and the decoding of fetched nonces.
- `backoffMs` other than as a condition (it is zero for every status), log messages, averages and waiting times.
- `Indexer.Close` from outside and `Start` after a stop: the stop channel is closed once and never made again.
- `TxnError.StatusError`: the error texts are copied from the table; that they differ is stated, that they are these texts is not.
- Published logs of a block (`GetLogs`, `PublishLogs`): only published heads are modelled.
- Configuration, commands, endpoints, middleware, the view calls of the account and the stand-alone proxy.
