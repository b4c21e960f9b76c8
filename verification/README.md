# FairQueue, verified

A Dafny model of FairQueue's allocation core: tickets, payments and the virtual queue, kept in
Postgres as the source of truth and in Redis as a fast mirror, with no transaction across the two.
Requests, webhooks and workers interleave on both stores, so the results below are about runs: any
number of processes, any order of their statements, and any Redis command lost on the way there or on
the way back.

## How the model is built

* `Domain`, `Protocol` are the shared state and its steps. One action is one SQL statement, one Redis
  command or script, or one gateway call; a process remembers between two actions what its Go function
  holds in local variables (a decrement not yet inserted, an increment still owed, a count already
  read). The two bodies of `WithTransaction` take a step per statement and hold row locks until
  COMMIT. An action that is not enabled changes nothing, so every sequence of actions is a run.
* `Stores.Platform` is the same state as a mutable object, one method per statement. `ClaimService`,
  `PaymentService`, `ExpiryWorker` and `Workers` are the Go functions as methods on it. Before each
  statement of a claim, payment or expiry method a list of actions of other processes runs
  (`Interfere`); the list is an argument, and the contract holds for every one. Such a contract says
  what happened exactly: the new state is `Run(old(w.View()), run)`, where `run` is a function of the old
  state, the schedule of the others and the answers of the stores (`Driven` under `ClaimSteps` or
  `PaySteps`, and `ClaimRun`, `InitRun`, `OutcomeRun`, `ReconcileRun`, `PassRun` around it). So it holds
  the scheduled actions of the others in order, the statements the policy prescribes at each program
  counter, and nothing else; every theorem about runs applies to it. Replies are tied to the same run
  (`Heard`, `TxReplyOf`), and most contracts also spell out the stores when nobody interferes. The runs
  are ghost; `Stop` marks a process that gives up.
* `Integrity`, `Ledger`, `Books`, `Oversell`, `Counterexample`, `Settlement`, `Outbox` prove the theorems
  about inventory and payments, `ClaimPolicy` and `PaymentPolicy` those about single calls;
  `SortedSet`, `Fairness`, `Score`, `QueueProtocol`, `QueueRuns`, `QueueWrites`, `QueueBatches`,
  `Position`, `VirtualQueue` those about the queue; `Lock` and `Retry` stand alone.

`Answered`, `Unsent` and `AnswerLost` are the three fates of a Redis command. Results of I/O, clocks
and identifiers are parameters; the answer of the payment gateway is any of success, transient error
and permanent error.

## Main results

1. Ledger law. For every event, counter + CLAIMED + CONFIRMED + held decrements + owed increments is
   kept by every statement, apart from losses, which lower it, and three kinds of raising statement,
   whose effect is given exactly (`Ledger.LedgerLaw`). Over runs without overwrites the balance moves by
   what was raised minus what was lost (`Oversell.BalanceOfRun`).
2. The ledger decides overselling. Without a raising statement an event can be oversold if and only
   if its balance exceeds its stock (`Oversell.OversellIffOverBudget`).
3. A reconciliation pass leaves an event that can be oversold if and only if a ticket was confirmed,
   a decrement held or an increment owed at that moment (`Oversell.SyncPassSafeIff`). What passes do
   keep is the budget without CONFIRMED rows (`Oversell.BudgetAcrossPasses`). Three complete runs from
   an untouched event, for any stock, show that each raising statement does oversell
   (`Counterexample`).
4. Every process keeps its own books, whoever else runs (`Books.OwnBookBalances`). A claim attempt takes
   one ticket if it wins and none if it loses, in every interleaving that loses none of its answers,
   apart from its own cache warm-up and an ignored second miss (`ClaimPolicy.AttemptCost`).
5. Payment and claim rows agree in every reachable state (`Settlement.AlwaysConsistent`), and the
   first deciding statement fixes both for good (`Settlement.FirstWriterWins`).
6. Outbox: every request sent to the gateway repeats a persisted row, one reference and amount per
   claim, at most one request by Initialize (`Outbox.OutboxHolds`).
7. Queue: no overtaking and a tight waiting bound, for the scripts (`Fairness`) and for the services that
   use them (`QueueRuns`); agreement of the stores over every run of whole operations
   (`QueueProtocol.AgreementRun`) and, exactly when, with the two statements of a call torn apart
   (`QueueWrites.TornCallsAgreeIff`, `QueueBatches.TornAdmissionIff`, `QueueBatches.TornEvictionIff`);
   positions (`Position.PositionsAfterRun`), and exactly when recovery keeps the order of two waiting
   customers (`Position.RecoveryKeepsOrderIff`).

## Where the code differs from its documentation

The model follows the code.

* `ARCHITECTURE.md:110-135` says that Postgres is always written first and that Redis can only show
  too many tickets. The claim path decrements Redis first and inserts afterwards
  (`internal/service/claims.go:60-68`), and the lock is released before the INSERT
  (`internal/service/claims.go:170`). From a balance equal to the stock, Redis shows too few tickets
  exactly if more are held, owed and lost than were raised (`Oversell.UndercountIff`); one decrement is
  enough (`Counterexample.DecrementUndercounts`).
* Reconciliation is described as healing the counter. `CountActive` counts CLAIMED rows only, so a
  pass adds the CONFIRMED tickets back to the counter (result 3 above).
* `failureFlow` gives a ticket back also when `MarkFailed` matched no row
  (`internal/service/payments.go:222-233`), for example when a failure webhook is delivered twice. The
  ledger law counts this as a raising statement (`Ledger.FailureWithoutRow`);
  `Counterexample.FailureDeliveredTwice` is the run.
* The second cache miss of a claim is taken for a successful decrement to zero
  (`internal/service/claims.go:198`); this is `Ledger.SecondMiss`, and
  `Counterexample.EverybodyMissesTwice` sells one ticket too many with it.
* `expireQueueEntries` writes Postgres only, and its comment leaves Redis to the eviction script, which
  never removes waiting members. `QueueProtocol.ExpireKeepsAgreementIff` says when the stores still agree.
* Recovery is said to preserve FIFO order exactly (`internal/worker/recovery.go:101-103`). Live scores
  come from nanoseconds, recovered ones from the microseconds of the row, and ties go to the smaller
  customer id. Two joins of the same microsecond with different scores tie after recovery, so the later
  one goes first if its id is smaller (`Position.RecoveryReverses`). Two live scores may tie although the
  microseconds differ, and recovery then sorts them by time (`Score.MicrosecondsMayTie`).
  `Position.RecoveryKeepsOrderIff` is the exact condition for any two waiting customers.
* `internal/worker/admission.go:23-24` promises that no more people are admitted than there are tickets.
  A tick is capped by the counter and the batch size, not by those admitted before, so two ticks with
  one ticket admit two (`Fairness.TwoTicksOneTicket`). `Fairness.TickWithinTicketsIff` says which ticks
  keep the promise.
* `retry.Do` returns a zero value with a nil error when `MaxAttempts` is below one
  (`Retry.Do`).

## Model

| member | source | states |
|---|---|---|
| Protocol.DecrementScript | internal/store/redis/inventory.go:18-31 | the script takes exactly one ticket from a present positive counter, answers the new count, and otherwise leaves Redis and every other counter alone |
| Integrity.SoundStep | internal/infra/migrate/sql/000001_initial_schema.up.sql:89-102 | foreign key, one payment per claim, unique references, exclusive row locks, and processes whose local values match their rows: kept by every statement |
| Integrity.LocksProtect | internal/store/postgres/db.go:58-95 | what an open transaction has written is changed by no statement of another process |
| Integrity.EvolvesRun | internal/store/postgres/claim_store.go:136-162 | over every run rows and identifying columns stay, a claim leaves CLAIMED at most once, and the gateway log only grows |
| Ledger.LedgerLaw | internal/service/claims.go:160-226 | the balance of an event is kept by every statement of every process; losses lower it by one or by the whole counter, a second miss or a row-less failure raises it by one, an overwrite replaces the counter |
| Books.OwnBookBalances | internal/service/claims.go:160-226 | in every run, whoever else takes part, the statements of one process move counter and sold rows by what it held and owed before and not after, plus what they raised and overwrote, minus what they lost |
| Oversell.BalanceOfRun | internal/store/redis/inventory.go:18-31 | over every run without overwrites the balance is the old one plus raised minus lost tickets, so at most the raised ones are sold too many |
| Oversell.NoOversell | internal/service/claims.go:50-88 | in every run without a raising statement, any number of claimants and any loss: counter not negative, CLAIMED + CONFIRMED + held within the stock |
| Oversell.SellOut | internal/store/redis/inventory.go:18-31 | from every state there is a run without raising statements that turns the whole balance into sold tickets |
| Oversell.OversellIffOverBudget | internal/service/claims.go:60-68 | some run without a raising statement oversells the event if and only if its balance exceeds the stock |
| Oversell.UndercountIff | internal/service/claims.go:60-68 | over every run without overwrites from a balance equal to the stock, Redis shows fewer tickets than are left if and only if held, owed and lost tickets outnumber the raised ones |
| Oversell.SyncPassEffect | internal/worker/reconciliation.go:88-115 | an undisturbed pass sets the counter to T - CLAIMED and the balance to T plus confirmed, held and owed tickets |
| Oversell.SyncPassSafeIff | internal/worker/reconciliation.go:88-115 | after the pass the event can be oversold if and only if something was confirmed, held or owed |
| Counterexample.OneSaleOneSync | internal/store/postgres/claim_store.go:119-134 | for every stock: an untouched event can be oversold after one complete purchase and one undisturbed pass |
| Counterexample.FailureDeliveredTwice | internal/service/payments.go:222-233 | for every stock: one claim, one payment and one failure webhook delivered twice leave the balance one above the stock |
| Counterexample.EverybodyMissesTwice | internal/service/claims.go:192-201 | for every stock: after a wipe, lost warm-ups and ignored second misses let one claimant too many win, without any overwrite |
| Counterexample.DecrementUndercounts | internal/service/claims.go:60-68 | for every stock: a single decrement before its INSERT leaves Redis one ticket short |
| Oversell.BudgetAcrossWipes | internal/service/claims.go:181-202 | over any run whose overwrites fit, CLAIMED stays within the stock and no present counter equals the cache-miss sentinel |
| Oversell.PassFitsIff | internal/worker/recovery.go:70-81 | a pass of reconciliation or recovery fits exactly when nothing is held or owed, or when recovery finds the key |
| Oversell.RefillFitsIff | internal/service/claims.go:181-202 | an uninterrupted refill by a claim fits exactly when nothing is held or owed, or it writes nothing |
| Oversell.BudgetAcrossPasses | internal/worker/reconciliation.go:65-86 | claims, releases, payments, losses and wipes with any number of passes and refills in between keep counter + CLAIMED + held + owed within the stock |
| Settlement.PairMoves | internal/service/payments.go:207-235 | the only five ways in which a statement can move the statuses of a payment and its claim |
| Settlement.ConsistentRun | internal/service/payments.go:207-235 | payment CONFIRMED iff claim CONFIRMED, FAILED implies RELEASED, CONFIRMED claims have a payment: kept over every run |
| Settlement.AlwaysConsistent | internal/store/postgres/payment_store.go:100-125 | the same in every state reachable from an empty system |
| Settlement.SettledForGood | internal/store/postgres/claim_store.go:136-162 | once decided, both rows keep their status in every run |
| Settlement.FirstWriterWins | internal/service/payments.go:207-235 | from (PENDING, CLAIMED) every run ends in the pair fixed by its first deciding statement, or undecided if there is none |
| Outbox.SentStep | internal/service/payments.go:89-105 | a request leaves only for a row persisted before |
| Outbox.OutboxRun | internal/service/payments.go:346-369 | requests repeat rows and Initialize sends at most once per payment, kept over every run with concurrent retries |
| Outbox.OutboxHolds | internal/service/payments.go:62-115 | in every reachable state: all requests repeat rows, one reference and one amount per claim, at most one request by Initialize |
| Outbox.OneActiveClaimRun | internal/infra/migrate/sql/000001_initial_schema.up.sql:62-64 | with or without locks, no customer ever holds two CLAIMED rows of one event |
| Stores.Platform.DecrementIfAvailable | internal/store/redis/inventory.go:117-127 | the script's effect and answer under each delivery |
| Stores.Platform.AttemptDecrement | internal/service/inventory_coordinator.go:78-94 | which answer stands for a taken ticket, a cache miss, none left, an error, and what the counter is then |
| Stores.Platform.Increment | internal/store/redis/inventory.go:102-108 | INCRBY 1, which creates a missing key |
| Stores.Platform.ForceSet | internal/store/redis/inventory.go:83-88 | the counter is overwritten |
| Stores.Platform.SetIfMissing | internal/store/redis/inventory.go:63-77 | only a missing counter is set, and the answer says whether it was |
| Stores.Platform.CreateClaim | internal/store/postgres/claim_store.go:25-48 | the INSERT succeeds exactly if event, id and partial unique index allow it, and reports which refusals are unique violations |
| Stores.Platform.UpdateClaimStatus | internal/store/postgres/claim_store.go:136-162 | the conditional UPDATE moves the row exactly if it is in the expected status and not locked |
| Stores.GiveTicketBack | internal/service/inventory_coordinator.go:98-118 | the compensating increment, whose loss is not an error |
| ClaimService.TryDecrement | internal/service/inventory_coordinator.go:78-94 | the run is the scheduled actions and one Decrement, the attempt is what the counter says at that moment, and where the claim goes on |
| ClaimService.DecrementInventory | internal/service/claims.go:160-205 | lock, decrement, refill after a miss: under any interference exactly the policy's statements and the reply they heard, undisturbed the exact counter |
| ClaimService.RefillAndDecrement | internal/service/claims.go:181-202 | after a miss: T - CLAIMED is counted, not positive means sold out, otherwise it is written and decremented; exactly the policy's run under interference |
| ClaimService.WarmAndDecrement | internal/service/claims.go:192-201 | the retry always follows the overwrite; the exact result when the overwrite arrived and when it did not |
| ClaimService.DecrementAgain | internal/service/claims.go:198-201 | the second attempt: a miss passes for a decrement to zero and leaves the stores alone, an empty counter means sold out |
| ClaimService.CreateClaim | internal/service/claims.go:207-226 | under any interference the INSERT, and exactly after a refusal the compensating increment; a unique violation is told apart from other errors |
| ClaimService.DecrementAndCreate | internal/service/claims.go:60-68 | both halves together: exactly the policy's run and the reply it heard |
| ClaimService.Claim | internal/service/claims.go:50-88 | under any interference the exact run and reply, no process left behind, a win only with an own CLAIMED row; when none of its answers is lost, a win takes one ticket and a loss none, apart from its own overwrite and at most one ticket for an ignored second miss |
| ClaimPolicy.AttemptCost | internal/service/claims.go:160-226 | the cost of an attempt over every interleaving, from its own statements alone; without a warm-up it is exactly one ticket for a win and none for a loss |
| ClaimPolicy.StopsOnlyWhen | internal/service/claims.go:162-191 | an attempt gives up on its own account only for a lock held elsewhere or a failed count |
| ClaimPolicy.OthersInClaimRun | internal/service/claims.go:50-88 | of the others, the run of a call holds a prefix of their schedule and nothing else |
| ClaimService.Release | internal/service/claims.go:96-129 | succeeds exactly if the row is CLAIMED when read and can be freed when written, and then issues one increment; otherwise it issues nothing that changes the stores |
| PaymentService.LockedRowsStay | internal/store/postgres/db.go:58-95 | over any interference the rows of an open transaction stay as it wrote or read them |
| PaymentService.Transact | internal/store/postgres/db.go:58-95 | under any interference the process changes rows exactly if it answers committed, and then both rows; the answer is what its last statement says; undisturbed: the exact result |
| PaymentService.FinishTransaction | internal/service/payments.go:215-217 | commits exactly if the claim is CLAIMED and unlocked when its UPDATE runs and COMMIT succeeds; otherwise no row was written |
| PaymentService.PublishStaged | internal/store/postgres/db.go:58-95 | COMMIT publishes both staged rows, a failed one leaves both tables as the others left them |
| PaymentService.Settle | internal/service/payments.go:207-235 | confirmFlow and failureFlow; failureFlow issues the increment exactly if the transaction returned no error; a failure wrote no row |
| PaymentService.HandleOutcome | internal/service/payments.go:329-343 | a webhook for a known reference runs its flow, for an unknown one it changes nothing |
| PaymentService.SendRequest | internal/service/payments.go:105-108 | one request with the row's reference and amount is on the gateway's record whatever the answer, and the next step follows from it |
| PaymentService.CallAndFollow | internal/service/payments.go:270-279 | success, transient and permanent answers lead to PENDING, no change, and the failure flow |
| PaymentService.RecordPending | internal/store/postgres/payment_store.go:127-144 | only an INITIALIZING payment becomes PENDING |
| PaymentService.Initialize | internal/service/payments.go:62-115 | under any interference the exact run; started exactly if the first look finds no payment, the claim is payable and the INSERT finds id, reference and claim unused; existing exactly if a payment of the claim is found in the first look or after a refused INSERT; without a row of its own it calls nobody; exact stores when undisturbed |
| PaymentService.OthersInInitRun | internal/service/payments.go:62-115 | of the others, the run of a call holds a prefix of their schedule and nothing else |
| PaymentService.PersistAndCall | internal/service/payments.go:78-115 | the call is made exactly if the row was inserted; a refused INSERT is answered with the claim's payment if there is one, and with an error if only id or reference collide or the look fails |
| PaymentService.ReconcileSingle | internal/service/payments.go:172-181 | an INITIALIZING snapshot puts a request for this payment on record, a PENDING one follows the polled status, others do nothing; the exact run, and the exact stores when undisturbed |
| PaymentService.Reconcile | internal/service/payments.go:136-149 | the run is that of every stale row in turn, whatever happened to the others, and each INITIALIZING one whose data can be read has a request of its own on record |
| ExpiryWorker.ReleaseClaim | internal/worker/expiry.go:77-109 | the pass frees a claim exactly if it is CLAIMED and unlocked when its UPDATE runs, and exactly then issues one increment |
| ExpiryWorker.ExpireClaims | internal/worker/expiry.go:57-75 | under any interference the exact run; each claim freed at most once and only by its own move, deeds equal to moves, and after an error-free pass no claim of the snapshot is CLAIMED |
| ExpiryWorker.ReturnsMatchMoves | internal/worker/expiry.go:57-109 | per event, tickets given back equal claims the pass moved itself |
| SortedSet.BatchIsRankBelow | internal/store/redis/queue.go:49-80 | the popped batch is exactly the set of members of rank below n |
| SortedSet.BatchSize | internal/store/redis/queue.go:49-80 | a batch has min(n, size) distinct members |
| SortedSet.BatchInOrder | internal/store/redis/queue.go:49-80 | a batch comes out in key order |
| SortedSet.RankOrder | internal/store/redis/queue.go:177-186 | a smaller key has a smaller rank |
| Fairness.DisjointRun | internal/store/redis/queue.go:26-104 | nobody waits and is admitted at once, over every run of scripts, removals and wipes |
| Fairness.TickTakesSmallest | internal/worker/admission.go:119-132 | a tick admits exactly min(counter, batch size, waiting) customers, with smaller keys than all it leaves |
| Fairness.TickWithinTicketsIff | internal/worker/admission.go:119-132 | after a tick no more are admitted than there are tickets if and only if those already admitted and the min(counter, batch size, waiting) new ones fit together |
| Fairness.TwoTicksOneTicket | internal/worker/admission.go:119-132 | two ticks that both see one ticket admit two customers |
| Fairness.NoOvertaking | internal/store/redis/queue.go:49-80 | over every run, of two waiting customers the later one is never admitted while the earlier is left waiting |
| Fairness.BoundedWaiting | internal/worker/admission.go:81-132 | a customer at rank p who stays is admitted once the ticks have offered more than p places, whoever joins later or leaves |
| Fairness.BoundIsTight | internal/worker/admission.go:81-132 | with ticks alone, admission happens exactly if more than p places are offered |
| Fairness.EvictionWithinRounding | internal/store/redis/queue.go:89-104 | with scores and cutoff rounded to doubles, whoever was admitted by the cutoff is evicted, and nobody admitted more than 256 ns later |
| QueueRuns.ServicesAreSteps | internal/service/queue_coordinator.go:36-188 | every run of the services moves the two sets by a run of the scripts, recovery by a sequence of joins |
| QueueRuns.ServicesNeverOvertake | internal/store/redis/queue.go:49-80 | no overtaking in any run of the services, whatever is lost, wiped or recovered |
| QueueRuns.ServicesServe | internal/worker/admission.go:81-132 | the waiting bound over runs of the services: whoever may join later, tie or be refused, a customer nobody overtakes by id or removes is admitted once the ticks offer more places than its rank |
| Score.ScoreIsNearestEven | internal/service/queue_coordinator.go:37-47 | the score is the nearest double, ties to the even significand (IEEE 754-2019, section 4.3.1), and no other number |
| Score.ScoreIsCell | internal/store/redis/queue.go:30-40 | the score in closed form: 256 times the number of the rounding cell |
| Score.ScoresCompare | internal/store/redis/queue.go:30-40 | for any two join times the scores are ordered or tie exactly as their cells are |
| Score.ScoreMonotone | internal/store/redis/queue.go:30-40 | rounding never reverses two join times |
| Score.ScoreStrict | internal/store/redis/queue.go:30-40 | join times more than 256 ns apart keep strict order |
| Score.TieAt256 | internal/store/redis/queue.go:30-40 | at exactly 256 ns apart the scores tie if and only if both times lie half-way around an even score |
| Score.MicrosecondsStrict | internal/worker/recovery.go:101-103 | the times recovery uses keep strict order for distinct microseconds |
| Score.MicrosecondsMayTie | internal/worker/recovery.go:101-103 | two live joins in distinct microseconds whose scores tie |
| QueueProtocol.IndexKept | internal/infra/migrate/sql/000001_initial_schema.up.sql:82-84 | at most one WAITING or ADMITTED row per customer, kept by every operation |
| QueueProtocol.AgreeAdmit | internal/service/queue_coordinator.go:144-165 | an admission with nothing lost keeps the stores in agreement |
| QueueProtocol.AgreeEvict | internal/service/queue_coordinator.go:169-188 | so does an eviction, although its rows are chosen by the members Redis removed |
| QueueProtocol.AgreementRun | internal/service/queue_coordinator.go:36-188 | over every run with nothing lost, waiting members are the WAITING customers and admitted members the ADMITTED ones |
| QueueWrites.OrderedWritesAgree | internal/service/queue_coordinator.go:36-139 | join, abandon and complete with row and Redis write as separate statements of any number of calls: if each customer's writes land in row order, the stores agree whenever nothing is pending |
| QueueWrites.TornCallsAgreeIff | internal/service/queue_coordinator.go:36-139 | over every such run, in any landing order, from agreeing stores to nothing pending: the stores agree at the end if and only if for each customer the write that landed last is of the kind that was issued last |
| QueueWrites.GhostCustomer | internal/service/queue_coordinator.go:115-139 | a join overtaken by its abandon leaves a waiting member without a row |
| QueueBatches.TornAdmissionIff | internal/service/queue_coordinator.go:144-165 | with any lossless run of whole operations between the pop and the batch UPDATE, the stores agree afterwards if and only if every popped customer whom Redis still admits still has an active row, and the other way round |
| QueueBatches.AbandonInBetween | internal/service/queue_coordinator.go:144-165 | abandoning between the pop and the UPDATE leaves an admitted member without an active row |
| QueueBatches.TornEvictionIff | internal/service/queue_coordinator.go:169-188 | the same for an eviction: the stores agree if and only if no evicted customer was admitted again before the batch UPDATE |
| QueueProtocol.ExpireKeepsAgreementIff | internal/worker/expiry.go:115-143 | the expiry worker keeps agreement if and only if no row was stale |
| QueueProtocol.DisjointRun | internal/store/redis/queue.go:26-104 | the two sets stay disjoint under losses, wipes, expiry and recovery |
| QueueProtocol.RecoveryRebuilds | internal/worker/recovery.go:89-114 | recovery changes no member or score that is there and adds exactly the missing WAITING customers whose re-join arrives, with their join times |
| QueueProtocol.RecoveryResumes | internal/worker/recovery.go:96-114 | repeating a recovery changes nothing, and a complete one makes up for one that lost any of its re-joins |
| QueueProtocol.RecoveryAfterWipe | internal/worker/recovery.go:25-27 | after a wipe and a complete recovery, however the stores differed before, exactly the WAITING customers are back, one stands before another if and only if its row has the earlier microsecond, or the same one and the smaller id, and the stores agree if and only if nobody was admitted |
| Position.RankCountsRows | internal/store/redis/queue.go:177-186 | the rank is the number of WAITING rows that joined earlier |
| Position.FallbackPosition | internal/service/queue_coordinator.go:60-82 | the Postgres position is rank + 1 + ADMITTED rows that joined earlier, and equals the Redis answer exactly if there are none |
| Position.StampsOrder | internal/service/queue_coordinator.go:37-47 | joins at least two microseconds apart are ordered alike by rows and scores |
| Position.PositionsAfterRun | internal/store/postgres/queue_store.go:119-144 | the same equation for WAITING customers in every state reached with nothing lost, if they joined at least two microseconds apart |
| Position.RecoveryKeepsOrderIff | internal/worker/recovery.go:101-103 | for two waiting customers of agreeing stores: wipe and recovery keep their order if and only if the earlier has the smaller id or their cells differ exactly when their microseconds do |
| Position.RecoveryReverses | internal/worker/recovery.go:101-103 | two joins 900 ns apart in one microsecond, the later with the smaller id, stand in join order before the wipe and in reverse after the recovery |
| VirtualQueue.EventQueue.PopMin | internal/store/redis/queue.go:49-80 | popping minimum by minimum yields the batch and removes exactly it |
| VirtualQueue.EventQueue.ZAdd | internal/store/redis/queue.go:49-80 | the collected arguments are all added, everything else stays |
| VirtualQueue.EventQueue.AdmitScript | internal/store/redis/queue.go:49-80 | the whole script moves the batch from one set to the other, with the admission time rounded to a double |
| VirtualQueue.EventQueue.Join | internal/service/queue_coordinator.go:36-56 | refused exactly for a failed INSERT or an active row; otherwise row and member are added |
| VirtualQueue.EventQueue.Abandon | internal/service/queue_coordinator.go:115-139 | succeeds exactly for a customer with a WAITING row |
| VirtualQueue.EventQueue.Complete | internal/service/queue_coordinator.go:86-112 | succeeds exactly for a customer with an ADMITTED row |
| VirtualQueue.EventQueue.AdmitNextBatch | internal/service/queue_coordinator.go:144-165 | Redis decides, the rows follow; an error leaves the rows alone |
| VirtualQueue.EventQueue.EvictExpired | internal/service/queue_coordinator.go:169-188 | removes exactly the members whose score is at most the rounded cutoff |
| VirtualQueue.EventQueue.ProcessEvent | internal/worker/admission.go:81-115 | evicts first, then admits min(counter, batch size), nothing without a positive counter; an error exactly if the counter or the admission was not answered |
| VirtualQueue.EventQueue.GetPosition | internal/service/queue_coordinator.go:60-82 | 0 if admitted, the rank from one if waiting, otherwise the row number, and which errors surface |
| VirtualQueue.EventQueue.ExpireQueueEntries | internal/worker/expiry.go:115-143 | an entry that no other writer touches ends EXPIRED exactly if an UPDATE of the pass for its status succeeds, and is unchanged otherwise; without other writers and failures exactly the stale rows expire; Redis is not touched |
| VirtualQueue.UpdateOfPass | internal/worker/expiry.go:125-141 | whatever other writers did before it, the UPDATE for an entry makes it EXPIRED exactly if it is executed and finds the snapshot's status, and changes no other entry |
| VirtualQueue.EventQueue.RecoverWaiting | internal/worker/recovery.go:96-114 | re-joining the listed rows one by one, each with its own delivery, amounts to the recovery of the queue without the lost ones |
| Lock.MutualExclusion | internal/store/redis/lock.go:34-57 | in every timed run whose critical sections end within the time to live, at most one owner per key, despite the unconditional DEL |
| Lock.SecondGetsInIff | internal/store/redis/lock.go:34-48 | a second owner gets in exactly when the first has stayed for the time to live |
| Lock.BreakableIff | internal/store/redis/lock.go:34-48 | over all processes and keys: some Acquire can break exclusion exactly if somebody inside has overstayed |
| Lock.LateReleaseHurtsOthers | internal/store/redis/lock.go:52-57 | one late release lets two punctual owners in |
| Lock.LockStore.Acquire | internal/store/redis/lock.go:34-48 | SET NX with expiry under each delivery |
| Lock.LockStore.Release | internal/store/redis/lock.go:52-57 | deletes the key whoever set it |
| Retry.Do | internal/infra/retry/retry.go:14-49 | attempts, waits and reply: at most N calls, stops at the first success, permanent error or cancellation, value only from fn |
| Retry.DelayIsBackoff | internal/infra/retry/retry.go:14-49 | the loop variable is min(BaseDelay * 2^i, MaxDelay) |
| Retry.BackoffIffNoOverflow | internal/infra/retry/retry.go:14-49 | it is so for every attempt if and only if twice the cap fits into 64 bits |
| Retry.TotalWaitBounded | internal/infra/retry/retry.go:14-49 | all waits together are at most (calls - 1) * MaxDelay |
| Workers.ReconcileEvent | internal/worker/reconciliation.go:88-115 | writes exactly if the counter differs and the reads succeed; when it reports an error |
| Workers.ReconcileInventory | internal/worker/reconciliation.go:65-86 | the whole pass, whatever fails for single events or lists, writes one counter per diverged event; without errors GET answers T - CLAIMED for every ACTIVE and SOLD_OUT event, which is the true remainder exactly where nothing is CONFIRMED; a second pass writes nothing |
| Protocol.CountPass | internal/worker/reconciliation.go:88-115 | the count and the write of a pass as two statements of the protocol |
| Workers.WarmEvent | internal/worker/recovery.go:70-87 | only a missing counter is set, to T - CLAIMED |
| Workers.RecoverRedisState | internal/worker/recovery.go:28-59 | every ACTIVE event gets counter and queue back, a failing event does not stop the others, nothing else changes |
| Workers.RecoveryIdempotent | internal/worker/recovery.go:61-117 | present counters stay, missing ones become T - CLAIMED, and a second recovery changes nothing |

## Left out

- HTTP, tokens, OTP, WebSocket notifications, metrics, scheduling and configuration: request handling around the core; a verified token is a pair of customer and event.
- The gateway client: any reply is possible, its own retries are not modelled, and its status strings are reduced to success, failed and other.
- Event life cycle and `markEventSoldOut`: unconditional single-row writes; the status only selects events for the workers.
- The call to `queue.Complete` after a claim: the queue operation is modelled on its own.
- Claim expiry by the clock: the snapshot of expired claims and the expiry check of Initialize are inputs.
- The claim lock inside the claim path: there the lock may be granted, held or unavailable at will, which covers every lock; exclusion is proved in `Lock`.
- A COMMIT whose answer is lost: a failed COMMIT is taken to have had no effect.
- Waiting for a row lock: a blocked statement of the protocol does nothing until the lock is free; in the methods it makes the statement fail.
- Customer and e-mail look-ups: part of the inputs that say whether a look-up succeeded.
- Queue operations are atomic in `QueueProtocol`, one event per object; join, abandon and complete are torn apart in `QueueWrites`, any number at a time; admission and eviction in `QueueBatches`, one at a time with whole operations in between.
- The look for the winner's payment after a refused INSERT follows the INSERT at once: payments are never deleted, so only one that others insert in between, after a collision of ids, makes a difference.
- Reconciliation and recovery passes run undisturbed in `Workers`; runs in which their two statements are torn apart are runs of the protocol.
- Identifiers are numbers, in the byte order of their canonical text.
- Row ages of stale payments, and the order and limits of queries that feed snapshots.
