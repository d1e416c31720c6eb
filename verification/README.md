# Durable execution of generated sites: a Dafny model

An AI site generator runs each generation as a *detached run*: a row in a database with an event log, an
outbox, checkpoints, a fenced lease on the app and published source versions. Runs survive crashes, pauses
and restarts; users watch them over reconnecting streams and approve plans before code is generated. This
project models that machinery and the data structures it depends on, and proves what they promise.

## Layout

The detached-run database

- `TaskTypes`, `TaskTransactions` — rows, and what each transaction does to the tables, as functions.
- `TaskInvariants`, `TaskHistory`, `TaskTheorems` — what every reachable database satisfies, over sequences of
  transactions in any order from any callers, and the promises that follow. `Causes`, `EventLog` — why a run is
  in its status, and what its log says of it.
- `ExecutionStore`, `GormStore` — the transactions statement by statement, as methods that update the tables
  in place, proved to compute those functions and to keep the invariant.
- `Fencing`, `Leases`, `Publications` — ownership epochs, how long a lease lasts, and the chain of publications.

Protocols around it, each a state machine whose steps include every store transaction

- `Dispatch`, `Outbox`, `Starts` — outbox dispatchers and starts; when a message is due; which started runs have
  an executor.
- `Approval`, `Checkpoints` — executors, safe points and the plan gate; what is stored and where runs go on.
- `Executors`, `Overwriting`, `LateSuspension` — the life of an executor from launch to suspension, whether its
  copy of an approval can be out of date, and when exactly it can overwrite the stored one.
- `Delivery`, `EventHub` — subscriptions and wake-ups. `RunStream`, `StreamLaws` — the reconnecting browser
  client, what it yields and when it ends. `EndToEnd` — the two together: what a page is shown is the run's log.

Execution

- `Budget`, `BudgetLaws`, `BudgetRecovery` — the budget object and its accounts; one run's spending across
  crashes and stale attempts.
- `Workflow`, `WorkflowLaws` — the four-node graph with retries, safe points and attempts that crash; verdicts,
  reports and todos.
- `ContextManager`, `ContextAssembly`, `ContextLaws` — the bounded working context: specification and theorems,
  the manager's loops proved against it, and what a call does to a history, message by message.

Smaller cores

- `ChatMemory`, `RateLimit`, `Workspace`, `WorkspaceLaws`, `SourceHash`, `ToolJournal`.

Objects the program updates in place are classes, loops are loops; functions state what they compute, and
the theorems are about those functions. `dafny verify dfyconfig.toml` checks everything.

## Assumptions

- Transactions are atomic and isolated; a refused or failed one leaves the tables as they were. Unique
  indexes exist on request identifiers, active keys (nulls distinct), event numbers, outbox event
  identifiers, version run keys and tool calls. Generated identifiers are fresh and the database clock
  never goes back.
- Digests and JSON encodings are injective and otherwise opaque: plan hashes, content hashes and source
  hashes are modelled by what they are computed from. Sizes, digests and blankness tests that the context
  manager and the chat summariser use are arbitrary functions.
- Handlers emit the semantic progress events only.
- A provider call uses at most the tokens reserved for it where that is said; a snapshot and its save at
  a safe point are one step.
- Workflow nodes compute from what a checkpoint stores and from the workspace files, name the step they did,
  and leave the retry counters to the handlers. A run is followed from a checkpoint; before its first one a
  crash fails it.
- Only injected messages carry the two reserved prefixes of the working context, and only assistant
  messages call tools.
- An outdated process may linger: dispatchers, executors and subscriptions of several processes interleave
  unless a theorem says otherwise (`Executors.OneProcess`, `Delivery.OneHome`). The wake-up hub belongs to one
  process.
- The server writes frames that end at their blank line and read back as written, as `RunStream.Clean` and
  `EndToEnd.Faithful` say.
- The encoding of a chat record is at least a hundred bytes long: its nine field names alone take more.

## What the code does not promise

These are properties one would expect that fail, each with its exact condition and an input.

- The checkpoint's budget is read before the app is claimed (internal/logic/app_task_logic.go:126 and :151). A
  write of the previous owner in between is lost, and both the token limit and the model call limit can be
  passed: `BudgetRecovery.StaleBudgetOverspends` gives the condition for each, `LimitsCanBePassed` the runs.
- The checkpoint's approval is read there too, and a run can be suspended by an executor that has long given
  the app back (internal/core/task/manager.go:285-301). With two processes a user's approval can be
  overwritten by a save under a valid claim: `LateSuspension.ApprovalCanBeOverwritten` is such a history. An
  approval can be lost so if and only if it finds an executor of its run that has loaded the checkpoint and
  not claimed the app yet, or whose claim is valid: `Overwriting.OverwrittenExactlyWhenInUse`. With one process
  at a time it cannot happen.
- When marking a run as running commits but the following read or its reply fails
  (internal/dal/taskstore/gorm_store.go:281-284, internal/core/task/manager.go:229-233), the run is running
  without an executor until a restart: `Starts.StartedRunHasExecutor`, `Starts.StrandedRunIsReachable`.
- A retry is counted durably before its safe point is saved, so a crash in between counts it twice. With the
  default limit of three, one such crash fails a run that needs its three retries:
  `Workflow.SuspensionPreservesMeaning`, `Workflow.OneLateCrashTooMany`.
- A subscription is woken only by its own process; an announcement another process looked at leaves it to its
  heartbeat: `Delivery.NoLostWakeup`, `Delivery.WokenElsewhere`.
- A summary is inserted without checking the lease, so overlapping summarisers can move the watermark back (no
  turn is lost): `ChatMemory.SaveRaises`, `ChatMemory.WatermarkCanMoveBack`.
- Loading more than a thousand uncovered messages is refused to the summariser as well, and it leaves out the
  last turns, so a conversation can grow until nothing is ever summarised again: `ChatMemory.SummaryCanFollow`
  is the condition, `ChatMemory.TooLongIsReachable` has two such histories.
- The Retry-After header cuts milliseconds off (internal/middleware/rate_limit.go:83):
  `RateLimit.AdvertisedWaitSuffices`, `RateLimit.HeaderCutShort`.

Re-entering a workflow fills in missing retry limits and steps and blanks what checkpoints do not store
(`Workflow.ResumingIsIdentity`). That is no failure: contexts of the program always have a positive retry limit
and a step, so only directories, the error message, the image plan and lists and the callbacks are blanked.

## Model

| member | source | states |
|---|---|---|
| `TaskTypes.PlanHashIgnoresOnlyProgress` | internal/core/task/checkpoint.go:80-92 | two plan hashes are equal if and only if base version, goal, types, constraints, acceptance and the todos' identifiers and titles are; todo progress alone never changes the hash |
| `GormStore.Store.CreateRun` | internal/dal/taskstore/gorm_store.go:123-203 | a repeated request identifier returns its run or a conflict, a live run of the app is reported, otherwise the run row, its first event and its start message are inserted together; the tables are those the specification gives |
| `GormStore.Store.InsertRun` | internal/dal/taskstore/gorm_store.go:181-189 | the three inserts commit together exactly when no run holds the app's active key, and leave the tables alone otherwise |
| `GormStore.Store.AppendEventTx` | internal/dal/taskstore/gorm_store.go:534-562 | given the caller's copy of the counter, one event, one counter update and one outbox row extend the batch written so far by exactly one event |
| `GormStore.Store.MarkRunning` | internal/dal/taskstore/gorm_store.go:267-285 | only a pending run starts; the status change and the run_started event with its announcement are one transition |
| `GormStore.Store.AppendEvent` | internal/dal/taskstore/gorm_store.go:287-305 | events are accepted in running and pausing only and get the next number |
| `GormStore.Store.Complete` | internal/dal/taskstore/gorm_store.go:307-376 | refusals for every other status, a failed validation or a foreign publication; otherwise version row, pointer move, the three or four final events and the row commit together, and every failure rolls back |
| `GormStore.Store.CompletionTail` | internal/dal/taskstore/gorm_store.go:350-370 | appending with a hand-advanced counter and updating the row last amounts to one batch of code_completed, optional description, run_completed, done |
| `GormStore.Store.Fail` | internal/dal/taskstore/gorm_store.go:378-438 | finished and safely stopped runs are left alone, cancelling becomes canceled, an interrupted run with a checkpoint becomes recoverable, anything else fails with error, run_failed, done |
| `GormStore.Store.ClaimOutbox` | internal/dal/taskstore/gorm_store.go:440-461 | stale claims return to the queue; the claimed rows are distinct, were due, are now processing, come in order of creation with no older due row left behind, are at most `limit`, and all due rows when fewer; no other row changes |
| `GormStore.Store.MarkOutboxDelivered` | internal/dal/taskstore/gorm_store.go:463-466 | only the named row becomes delivered |
| `GormStore.Store.RetryOutbox` | internal/dal/taskstore/gorm_store.go:468-477 | the row is queued again after attempts squared seconds, at most a minute |
| `GormStore.Store.InterruptStale` | internal/dal/taskstore/gorm_store.go:479-532 | each stale run is handled once from the row read at the start, in the order the query returned, and open start messages are given up; the result is that of the specification for that order |
| `GormStore.Store.SaveCheckpoint` | internal/dal/taskstore/checkpoint_store.go:75-97 | status and fence are checked before the checkpoint is replaced and checkpoint_saved is logged |
| `GormStore.Store.UpdateBudget` | internal/dal/taskstore/checkpoint_store.go:18-49 | under the same checks only the accounting of a stored checkpoint changes; without one nothing is written |
| `GormStore.Store.CheckpointFence` | internal/dal/taskstore/checkpoint_store.go:51-61 | fails exactly when the claim is for another app or is not the current, unexpired ownership |
| `GormStore.Store.Suspend` | internal/dal/taskstore/checkpoint_store.go:100-120 | only running and pausing runs stop, only as paused or awaiting approval |
| `GormStore.Store.Control` | internal/dal/taskstore/checkpoint_store.go:122-222 | every action, status and refusal as the branches give them: pause, cancel and reject, approve and resume with the unique reservation reacquired |
| `GormStore.Store.Requeue` | internal/dal/taskstore/checkpoint_store.go:183-216 | approve and resume write checkpoint, start message, row and event together, or roll back when another run of the app is live |
| `ExecutionStore.Store.Claim` | internal/dal/taskstore/execution_store.go:29-58 | a free or expired app is taken over with the next epoch, the current version as base; a leased one is refused and nothing changes |
| `ExecutionStore.Store.Renew` | internal/dal/taskstore/execution_store.go:60-72 | extends exactly the current, unexpired ownership |
| `ExecutionStore.Store.Release` | internal/dal/taskstore/execution_store.go:74-76 | clears exactly the claim's own ownership, expired or not |
| `ExecutionStore.PublishTx` | internal/dal/taskstore/execution_store.go:89-113 | the pointer moves exactly when the claim is current and names the current version as its base |
| `ExecutionStore.Store.Publish` | internal/dal/taskstore/execution_store.go:115-136 | pointer move and version row commit or roll back together |
| `ExecutionStore.Store.PublishRestoration` | internal/dal/taskstore/execution_store.go:162-180 | refused while any run of the app is live |
| `ExecutionStore.Store.RegisterSnapshot` | internal/dal/taskstore/execution_store.go:151-159 | under the fence, only the current version without a content hash is given one |
| `TaskHistory.StepSound` | internal/dal/taskstore/gorm_store.go:123-562 | every transaction, from any caller and in any order, keeps the database invariant, rewrites nothing stored and moves runs along the edges of the status machine |
| `TaskHistory.HistorySound` | internal/dal/taskstore/gorm_store.go:123-562 | the invariant and append-only history hold after every sequence of transactions |
| `TaskHistory.RestartLeavesNothingStale` | internal/dal/taskstore/gorm_store.go:479-532 | after a restart no run is pending, running, pausing or cancelling |
| `TaskTheorems.LogTellsTheRun` | internal/dal/taskstore/gorm_store.go:534-562 | in every reachable state a run's events are numbered 1..last_sequence, form a path of the status machine and replay to the stored status; `done` is there exactly for finished runs, last; the active key is held exactly while the run lives |
| `TaskTheorems.OneLiveRunPerApp` | internal/dal/taskstore/gorm_store.go:190-199 | two live runs never share an app, two runs never share a request identifier |
| `TaskTheorems.CompletedRunHasOneVersion` | internal/dal/taskstore/gorm_store.go:322-370 | a run is completed if and only if a version belongs to it; then exactly one does and its single code_completed event names it |
| `TaskTheorems.FinishedIsFinal` | internal/dal/taskstore/gorm_store.go:378-438 | no history of transactions changes a finished run or its log |
| `TaskTheorems.LogIsAppendOnly` | internal/dal/taskstore/gorm_store.go:534-562 | every log is a prefix of itself later |
| `TaskTheorems.RetriedStartFindsItsRun` | internal/dal/taskstore/gorm_store.go:108-203 | however much happened since, a repeated start returns the run of its first use or a conflict, and creates nothing |
| `TaskTheorems.CancellingEndsCanceled` | internal/dal/taskstore/gorm_store.go:396-432 | a cancelling run stays cancelling or ends canceled whatever follows |
| `TaskTheorems.RepeatedControlChangesNothing` | internal/dal/taskstore/checkpoint_store.go:134-182 | a command that succeeded succeeds again at once and changes nothing |
| `TaskTheorems.AtMostOneStartPerRequest` | internal/dal/taskstore/gorm_store.go:267-285 | starts never outnumber passages through pending; a pending run has one passage unanswered |
| `Causes.StatusIsCaused` | internal/dal/taskstore/gorm_store.go:267-532 | for every transaction, run and status: the run turns into that status if and only if the transaction is one of its causes; commands are those of the run's user and fit its status, an approval names the stored plan's hash, a failure makes it failed, an interruption or restart recoverable or interrupted as there is a checkpoint or not, and it completes if its result is valid and may be published |
| `Causes.EveryStatusHasItsCause` | internal/dal/taskstore/gorm_store.go:267-532 | after any history every run is pending and never was anything else, or one transaction of the history caused the status it has had ever since |
| `EventLog.LogTellsWhatHappened` | internal/dal/taskstore/gorm_store.go:534-562 | each transaction adds to a run's log exactly what it did to the run: the events of its change of status, the kind of an accepted progress event, the mark of an accepted checkpoint, and otherwise nothing |
| `Fencing.StepAges` | internal/dal/taskstore/execution_store.go:29-76 | epochs never fall and an ownership that ended is never restored, whatever transaction is applied |
| `Fencing.LostClaimStaysLost` | internal/dal/taskstore/execution_store.go:29-76 | a claim that is expired, released or superseded is invalid after every further history |
| `Fencing.GrantSupersedes` | internal/dal/taskstore/execution_store.go:51-55 | a granted claim is valid at once, has a larger epoch and invalidates every earlier claim of the app |
| `Fencing.LeaseExcludes` | internal/dal/taskstore/execution_store.go:51-53 | while a claim is valid nobody else is granted the app |
| `Fencing.FencedWriteDoesNothing` | internal/dal/taskstore/checkpoint_store.go:51-61 | checkpoint, budget, snapshot, publication and completion writes under an invalid claim change nothing |
| `Fencing.LostExecutionIsSilent` | internal/dal/taskstore/execution_store.go:89-113 | and never will again, once the claim was lost |
| `Fencing.PointerMoves` | internal/dal/taskstore/execution_store.go:89-113 | the current version and path of an app change exactly when a publication commits, from its base to its new version and to the path it published |
| `Fencing.PublicationsFormOneChain` | internal/dal/taskstore/execution_store.go:89-113 | all publications of an app, over any history, form one chain: each new version's base is the version before, identifiers and epochs ascend, and the chain ends at the current pointer, whose path is the one the last of them published |
| `Fencing.ClaimPublishesOnce` | internal/dal/taskstore/execution_store.go:109-112 | a claim that published never publishes again |
| `Fencing.GrantStartsFromThePublished` | internal/dal/taskstore/execution_store.go:51-57 | after any history a granted claim's base version and base path are those of the last publication of the app's chain, 0 and the empty path if there was none |
| `Publications.PublishedVersionsStay` | internal/dal/taskstore/execution_store.go:115-159 | over any history the row of every version ever published names the app, path, content hash and origin of its publication; path and hash may differ only if the publication named no content, and are then those of a snapshot registered while the version was current |
| `Leases.GrantLasts` | internal/dal/taskstore/execution_store.go:29-76 | over any history a granted claim stays valid if and only if at every moment its time is not up, counted from the grant or the last renewal, and it was not released; while it is valid nobody else is granted the app |
| `Leases.RenewalLasts` | internal/dal/taskstore/execution_store.go:60-72 | a renewal at clock t for ttl keeps the claim valid exactly until t + ttl, in every history that neither renews nor releases it, and nobody else is granted the app until then |
| `Leases.OwnersRenew` | internal/dal/taskstore/execution_store.go:60-72 | a renewal succeeds if and only if its time is positive and the claim is valid; a refused one changes nothing |
| `Leases.FreeUnlessOwned` | internal/dal/taskstore/execution_store.go:40-53 | a well-formed claim is granted if and only if no claim of an owner to the app is valid |
| `Leases.ReleasedIsFree` | internal/dal/taskstore/execution_store.go:74-76 | after its owner's release an app is granted to the next claim at once |
| `Dispatch.PendingRunIsPromisedAStart` | internal/core/task/manager.go:185-240 | no lost start: under every interleaving of claims, dispatches, acknowledgements, retries, lost replies, vanished dispatchers, control and restarts, a pending run has a queued or claimed start message nobody has dealt with |
| `Dispatch.AtMostOneExecutionPerPassage` | internal/core/task/manager.go:229-235 | executors launched plus one for a run still pending never exceed its passages through pending |
| `Dispatch.LostReplyStrandsRun` | internal/core/task/manager.go:229-234 | after a start that commits without its reply the run is running, and no continuation launches an executor for it before it is pending again |
| `Dispatch.TransactionFaithful` | internal/dal/taskstore/gorm_store.go:181-189 | no other transaction silences a start message, and each run that becomes pending brings a fresh one |
| `Outbox.RetriedIsDueOnTime` | internal/dal/taskstore/gorm_store.go:440-477 | in every history that leaves a retried message alone it is due if and only if attempts squared seconds, at most sixty, have passed since, and its attempts are stored |
| `Outbox.LostClaimIsDueAgain` | internal/dal/taskstore/gorm_store.go:440-461 | a claimed message is due again if and only if the queue is reclaimed more than a minute after the claim, in every history that leaves it alone |
| `Outbox.SettledIsNeverDue` | internal/dal/taskstore/gorm_store.go:440-466 | a message that was delivered, or given up by a restart, is not due in any later state of any history that does not retry it |
| `Outbox.WhatSettles` | internal/dal/taskstore/gorm_store.go:479-532 | delivering a message and, for a start message, a restart settle it |
| `Outbox.NewMessagesAreDueAtOnce` | internal/dal/taskstore/gorm_store.go:181-189 | every message a transaction stores is of its run and kind, waiting, and due at once |
| `Starts.StartedRunHasExecutor` | internal/core/task/manager.go:229-235 | over every history, the executors launched for a run are as many as the starts its log records if and only if the reply of every committed start arrived; they are never more |
| `Starts.StrandedRunIsReachable` | internal/core/task/manager.go:229-234 | four steps from the empty system to a running run without an executor: create, claim the start message, find the run pending, lose the reply of the start |
| `Starts.TransactionStarts` | internal/dal/taskstore/gorm_store.go:267-285 | no transaction but marking a run as running logs a start |
| `Approval.CodeIsGeneratedFromApprovedPlans` | internal/logic/app_task_logic.go:195-226 | every entry to the code generator in a run that asks for approval follows a checkpoint whose plan hash a user approved on that run; every stored approval is genuine; stale executors and restarts included |
| `Approval.ApprovalsAreCommands` | internal/dal/taskstore/checkpoint_store.go:164-174 | the approvals counted are exactly the successful approve commands of the history |
| `Approval.ApprovalFollowsThePlan` | internal/logic/app_task_logic.go:195-210 | after an approval the gate opens again if and only if the base version and everything but todo progress are the same |
| `Approval.ControlApproves` | internal/dal/taskstore/checkpoint_store.go:155-194 | a control command changes a checkpoint only to approve, by its owner, awaiting approval, exactly the plan hash stored there |
| `Checkpoints.CheckpointIsTheLastSafePoint` | internal/logic/app_task_logic.go:172-202 | after any history the stored checkpoint of a run has the next node, state, path, plan and base version of the last safe point of the run that was saved, the accounting saved or written last, and the approval given last or put back by a save; there is none before the first save |
| `Checkpoints.BeginsWhereItStopped` | internal/logic/app_task_logic.go:126-226 | an executor that begins enters the node named by the last saved safe point it loaded or made, the router if there is none, unless the gate holds it, which is said exactly |
| `Checkpoints.GoesOnAsNamed` | internal/logic/app_task_logic.go:196-211 | after a safe point the executor goes on to the node it names if and only if the save committed and answered, nobody asked it to stop and the gate does not hold it |
| `Approval.GraphRun.SafePoint` | internal/logic/app_task_logic.go:175-215 | the hook's own statements, with unready budgets or files, lost replies and cancellation, reassign its checkpoint variable as the safe-point step of the protocol does and continue exactly when it does |
| `Executors.CopiesStayCurrent` | internal/logic/app_task_logic.go:126-215 | over every history, and from any state in which it holds, each executor that may still save (it has yet to claim the app, or its claim is valid) carries its run's stored approval in all later states if and only if every later approval that changes the stored one finds no such executor of the run |
| `Executors.SavesKeepApprovals` | internal/logic/app_task_logic.go:196-203 | while later approvals find no such executor, no save of a safe point changes any stored approval |
| `Overwriting.OverwrittenExactlyWhenInUse` | internal/logic/app_task_logic.go:126-215 | from every reachable state with current copies, an approval that changes the stored one has a legal continuation, whose approvals find no executor in use, that ends in a save which changes the approval of the run, if and only if the approval itself finds an executor of the run that has loaded its checkpoint and not claimed the app yet, or whose claim is valid |
| `Executors.OneProcessKeepsApprovals` | internal/core/task/manager.go:285-301 | when processes start only after the executors of the one before are gone, copies stay current and no save changes an approval: suspending happens after the release of the app, by the run's only executor, and one whose suspension committed while the reply was lost can only fail the run it left |
| `LateSuspension.ApprovalCanBeOverwritten` | internal/core/task/manager.go:285-301 | a history, from the empty system, in which an executor of a process that lost the runtime suspends its run late, the user approves, and the next process's executor, with a valid claim and an older copy, saves over the approval |
| `Budget.Normal` | internal/core/execution/budget.go:22-66 | each option that is set is kept, each other one is its default; every limit is positive |
| `Budget.Budget.Restore` | internal/core/execution/budget.go:78-87 | malformed checkpoints are refused unchanged, otherwise usage and deadline are set; success exactly when the budget is then open |
| `Budget.Budget.ConsumeOne` | internal/core/execution/budget.go:100-138 | counts only when open and below the limit; a failed durable write still refuses and closes the budget |
| `Budget.Budget.ReserveModel` | internal/core/execution/budget.go:143-179 | reserves input plus granted output, takes the reservation back when it cannot be made durable, and hands out the settlement of exactly that reservation |
| `Budget.Budget.Finish` | internal/core/execution/budget.go:165-177 | settles once; unknown usage charges the reservation; a second call does nothing |
| `Budget.Budget.RecordTokens` | internal/core/execution/budget.go:181-188 | adds positive token counts only |
| `Budget.GrantedReservation` | internal/core/execution/budget.go:146-163 | a reservation is granted exactly when the budget is open, the write succeeds and a token is left beyond the input; then the output limit is between 1 and the configured one and the total stays within the limit |
| `Budget.BudgetConserves` | internal/core/execution/budget.go:88-179 | over any interleaving, reserved tokens are the sum of open reservations, the total is within the limit plus what calls used beyond their reservations, counters are within limits |
| `Budget.HonestCallsStayWithinLimit` | internal/core/execution/budget.go:143-179 | if no call uses more than it reserved, the token limit is never passed |
| `Budget.FailureIsFinal` | internal/core/execution/budget.go:117-122 | after one failed durable write every later consumption and reservation is refused without effect |
| `BudgetLaws.AccountsAreExact` | internal/core/execution/budget.go:100-188 | over any history each counter has grown by the operations that took it, and the tokens by what settlements and records charged: the known usage, or all of a reservation where it is unknown, which is then the estimate |
| `BudgetLaws.GrantsStayWithinLimits` | internal/core/execution/budget.go:100-138 | granted model calls, tool calls and retries, counted along any history, never outnumber their limits |
| `BudgetLaws.GrantedConsumption` | internal/core/execution/budget.go:88-110 | a consumption is granted if and only if no write failed, the deadline and the tokens are not used up, the counter is below its limit and the write succeeds |
| `BudgetLaws.ReservesAllItMay` | internal/core/execution/budget.go:143-163 | a reservation is granted if and only if the budget accepts, the write succeeds and a token is left beyond the input; it is the configured output, or all that is left, and reserves input and output; a refused one reserves nothing |
| `BudgetLaws.ClosedExactlyByFailedWrites` | internal/core/execution/budget.go:112-122 | a budget is closed after a history if and only if it was before or some operation that changed it failed to be written |
| `BudgetRecovery.RunNeverOverspends` | internal/logic/app_task_logic.go:126-155 | across any number of crashes, resumes, stale attempts, lost and unanswered writes, provider tokens and model calls each stay within their limit if every claim was taken on the stored budget with its stranded reservation charged, or on a budget that still covered the admitted calls |
| `BudgetRecovery.StaleBudgetOverspends` | internal/logic/app_task_logic.go:126-155 | exactly when, for tokens and for model calls: a limit is kept in every continuation of a claim if and only if the budget read before it is used up or still covers what was admitted (for tokens also if it has no model call left) |
| `BudgetRecovery.StaleBudgetIsReachable` | internal/logic/app_task_logic.go:126-155 | an order of steps from the start to such a claim: read, then a reservation of the previous owner, then the end of its lease |
| `BudgetRecovery.LimitsCanBePassed` | internal/logic/app_task_logic.go:126-155 | a run from the start that passes the token limit, and one that passes the model call limit |
| `Workflow.ResumingIsIdentity` | internal/ai/graph/state/checkpoint.go:34-49 | snapshot, restore and re-entry keep the durable part if and only if it has positive max retries and a current step, and the whole context if and only if the fields no checkpoint stores are blank besides |
| `Workflow.WorkFlowContext.PostHandler` | internal/ai/graph/workflow/simple_workflow.go:115-155 | retry decision, next node, description and todo statuses after each node; nothing changes when the budget refuses the retry |
| `Workflow.WorkFlowContext.AppendQualityIssues` | internal/ai/graph/workflow/simple_workflow.go:91-112 | the two loops build the report of issues and suggestions |
| `Workflow.WorkFlowContext.MarkTodos` | internal/ai/graph/workflow/simple_workflow.go:137-147 | the loop sets every todo's status as the three rules say and changes nothing else |
| `Workflow.SuspensionPreservesMeaning` | internal/ai/graph/workflow/simple_workflow.go:54-81 | stopped anywhere and with any attempts crashing, half done or just before their safe point is saved, the run ends in the same durable context and files after the same completed nodes as when left alone, if and only if its retries and those counted again fit the retry limit; otherwise it is refused a retry |
| `Workflow.CrashesOnlyCount` | internal/ai/graph/workflow/simple_workflow.go:118-152 | whatever crashed attempts leave, the restart is from the checkpoint's context and files; all that remains of them is the retries they counted |
| `Workflow.OneLateCrashTooMany` | internal/ai/graph/workflow/simple_workflow.go:120-128 | with the default limit of three, a workflow that needs three retries and crashes once between the counting and the saving of a retry is refused, though left alone it finishes |
| `Workflow.GeneratorIsBounded` | internal/ai/graph/workflow/simple_workflow.go:120-133 | through any crashes the generator completes at most once more than the retries left |
| `Workflow.FinishedRunIsJudged` | internal/ai/graph/workflow/simple_workflow.go:118-133 | a finished run is valid, or has used its retries and reports the issues, through any crashes |
| `WorkflowLaws.VerdictDecides` | internal/ai/graph/workflow/simple_workflow.go:118-133 | after the check a valid result ends the run as it is; an invalid one costs a granted retry and goes back to the generator while retries are left, and ends the run with a report otherwise |
| `WorkflowLaws.FinishedRunWasJudged` | internal/ai/graph/workflow/simple_workflow.go:115-133 | a finished run was checked once more than it was sent back; every check but the last found the result invalid, and the last one did not unless the retries are used up |
| `WorkflowLaws.ReportSaysAll` | internal/ai/graph/workflow/simple_workflow.go:91-112 | the report begins with the description, and every error and every suggestion is a line of it |
| `WorkflowLaws.RefusedRunReports` | internal/ai/graph/workflow/simple_workflow.go:118-133 | the description of a run that ends without a valid result is such a report of its last check |
| `WorkflowLaws.TodosFollow` | internal/ai/graph/workflow/simple_workflow.go:137-147 | after the generator its todo is completed, pending again when the result is sent back, the check's todo is completed by a valid result, and nothing else of a plan changes |
| `ContextAssembly.Manager.Assemble` | internal/core/contextmgr/manager.go:123-264 | the statements compute the specified history and the manager's new snapshot, restored and failed-at fields, and end a blocked call as saving it ends; the workflow's summaries change exactly with an installed summary |
| `ContextAssembly.Manager.Compact` | internal/core/contextmgr/manager.go:226-253 | a summary is requested, validated, saved and installed as specified; failures leave the snapshot alone and remember the request |
| `ContextAssembly.DropOldState` | internal/core/contextmgr/manager.go:139-144 | the downward loop removes every earlier state block |
| `ContextAssembly.ReduceReads` | internal/core/contextmgr/manager.go:169-183 | old file reads before the latest tool group are cut down, matched to their calls through the map built on the way |
| `ContextAssembly.Split` | internal/core/contextmgr/manager.go:186-225 | the two passes separate kept messages from materials as specified |
| `ContextAssembly.Validate` | internal/core/contextmgr/manager.go:284-325 | accepts exactly the summaries with goal, next action and size in order, texts and known sources in every finding and no user constraint lost |
| `ContextManager.Binding.Commit` | internal/ai/graph/state/context_binding.go:38-53 | a failed save restores the previous summary of the agent, a deliberate suspension keeps the new one |
| `ContextManager.AssembledFits` | internal/core/contextmgr/manager.go:145-263 | every history handed on is smaller than 85% of the input limit, tools included |
| `ContextManager.AssembledWellFormed` | internal/core/contextmgr/manager.go:160-225 | well-formed histories stay well formed: no tool result is ever separated from the call it answers |
| `ContextManager.AssembledPreserves` | internal/core/contextmgr/manager.go:184-225 | all system messages but superseded summaries, the latest user message and the whole latest tool group survive, in order |
| `ContextManager.InjectedIs` | internal/core/contextmgr/manager.go:127-144 | with business state, the history is the resumed summary if there is one, the caller's messages without old state, then the state |
| `ContextManager.AssembledBlocks` | internal/core/contextmgr/manager.go:127-144 | one state block and at most one summary, however often the history is assembled |
| `ContextManager.AssembleDescends` | internal/core/contextmgr/manager.go:226-253 | a call keeps the snapshot or raises its version by one, keeps every constraint and cites only carried or given sources |
| `ContextManager.SessionDescends` | internal/core/contextmgr/manager.go:266-325 | over a whole session versions only grow, constraints never disappear, and every cited source was there at the start or was given to the summariser |
| `ContextManager.FailedCommitChangesNothing` | internal/core/contextmgr/manager.go:241-264 | a call that assembles nothing keeps the summary and ends in failure, a stop or as too large, exactly as saving went; one whose good summary could not be saved leaves the manager as it was |
| `ContextLaws.AssembledIs` | internal/core/contextmgr/manager.go:145-240 | message by message, at or above the soft limit: without a new summary all given messages, with one the summary and exactly those of no older turn (within one request, of no finished tool group); a tool result of more than 768 bytes with a later tool group, answering a call named readFile or readDir, the last announced under its identifier, is replaced by a note, and every other message is the given one byte for byte |
| `ContextLaws.SummariserIsGiven` | internal/core/contextmgr/manager.go:186-240 | the summariser is given the carried summary and exactly the messages that are left out, cut down alike, in order and each under its digest |
| `ContextLaws.InjectedHistory` | internal/core/contextmgr/manager.go:123-144 | position by position: the summary of an earlier attempt once, the caller's messages that are no state blocks in their order, and the current state last |
| `ContextLaws.InstalledExactlyWhen` | internal/core/contextmgr/manager.go:226-253 | a new summary is installed if and only if there is something to summarise at or above the soft limit, the request did not just fail and fits the summariser, the answer is accepted and fits, and saving it does not fail |
| `ContextLaws.SummariesAreComplete` | internal/core/contextmgr/manager.go:284-325 | over a whole session the summary in force is the first one or has a goal and a next step, at most 6000 bytes, and findings with text and sources |
| `ContextLaws.FailedRequestIsNotRepeated` | internal/core/contextmgr/manager.go:228-253 | a request that came to nothing is not sent again with the same materials |
| `ContextLaws.LimitsAre` | internal/core/contextmgr/manager.go:25-46 | the input limit is what the window leaves beside output and margin, with their defaults; the soft and hard limits are 70 and 85 percent of it, rounded down |
| `Delivery.DeliveryIsGapless` | internal/core/task/manager.go:388-410 | what a subscription returned is at all times the stretch of its run's log from its opening cursor, in order, without gap or duplicate |
| `Delivery.EndMeansAllDelivered` | internal/core/task/manager.go:411-422 | the end of the stream means the run has halted and the whole log from the cursor was returned; for a finished run the last event is `done` |
| `Delivery.ListingCatchesUp` | internal/core/task/manager.go:363-390 | a subscription that keeps listing gets one event after the other to the end of the log, and only then looks whether the run has halted |
| `Delivery.NoLostWakeup` | internal/core/task/manager.go:203-207 | exactly when: in all states every subscription that sleeps with undelivered events and no token has an announcement of its run still to be delivered, if and only if no announcement is looked at in another process while such a subscription has no other |
| `Delivery.OneProcessWakes` | internal/core/task/manager.go:203-207 | so no wake-up is lost where one process dispatches and serves |
| `Delivery.WokenElsewhere` | internal/core/task/manager.go:203-207 | nine steps from the empty system to a subscription asleep with an event it has not seen, its only announcement having been looked at in another process |
| `Delivery.FollowingIsFirst` | internal/dal/taskstore/gorm_store.go:243-253 | the event taken is the first stored one after the cursor |
| `Delivery.TransactionHeard` | internal/dal/taskstore/gorm_store.go:534-562 | every transaction announces what it logs and silences no announcement |
| `EventHub.Hub.Subscribe` | internal/core/task/hub.go:15-24 | a fresh channel with an empty slot, all others stay: the hub shows the subscriptions with the new one added |
| `EventHub.Hub.Unsubscribe` | internal/core/task/hub.go:26-35 | only that channel goes, and the run's entry with its last one: the hub shows the remaining subscriptions |
| `EventHub.Hub.Notify` | internal/core/task/hub.go:38-47 | every channel of the run holds a token, all others are as before: the hub shows what the wake-up of the delivery protocol makes of the subscriptions of its process |
| `EventHub.Hub.Receive` | internal/core/task/manager.go:428-429 | a sleeper takes the one token, as the wake step of the delivery protocol does |
| `RunStream.SplitAppends` | frontend/src/api/run-stream.ts:62-64 | incremental splitting: splitting the buffered rest with new text is splitting the whole text, for every chunking |
| `RunStream.FirstMatchExtends` | frontend/src/api/run-stream.ts:63 | more text never moves the leftmost blank line |
| `RunStream.SplitBuffer` | frontend/src/api/run-stream.ts:63-64 | scanning for blank lines computes the split |
| `RunStream.CutStreamIsPrefix` | frontend/src/api/run-stream.ts:59-64 | wherever a stream is cut off, the complete frames received are a prefix of those written |
| `RunStream.ReadConnection` | frontend/src/api/run-stream.ts:59-72 | the nested loops over chunks and frames do what accepting the frames of the whole text does |
| `RunStream.Follow` | frontend/src/api/run-stream.ts:47-91 | the reconnect loop yields what the session specification says and ends as it says, aborts by the page included |
| `RunStream.NothingIsYieldedTwice` | frontend/src/api/run-stream.ts:65-70 | whatever servers send, sequence numbers are yielded in ascending order only |
| `RunStream.EachEventExactlyOnce` | frontend/src/api/run-stream.ts:43-98 | with servers that continue after the cursor, any disconnects and any chunking, the numbers yielded are exactly 1, 2, ... up to the cursor |
| `RunStream.QuietEndIsComplete` | frontend/src/api/run-stream.ts:70-84 | a stream ends quietly only after `done` or when a halted run was fully delivered; it gives up only after more than ten failures; an abort ends it unless `done` came first |
| `StreamLaws.ConnectionEnds` | frontend/src/api/run-stream.ts:48-90 | from how a connection ended and the frames that came through: it is rejected, finished, aborted or failed, if and only if; it yields its new frames, those not blank and not numbered at or below an earlier number, up to the first that says `done`, and a status frame if the page goes on |
| `StreamLaws.GivesUpExactlyWhen` | frontend/src/api/run-stream.ts:69-87 | over all connections that merely fail, the page gives up if and only if ten of them in a row, not the first, brought nothing beyond the cursor: the failure of the one before is the first of eleven |
| `EndToEnd.PageShowsTheLog` | internal/handler/app_handler.go:163-219 | over every history of servers, dispatchers and transactions, and any connections cut off anywhere: the event frames a page was shown are those of the first events of the run's log, each once and in order |
| `EndToEnd.QuietEndTellsTheRun` | frontend/src/api/run-stream.ts:43-98 | when the page's stream ends quietly, the run has halted and the event frames shown are those of its log from the first event to last_sequence, each once and in order |
| `ChatMemory.SummaryCutoff` | internal/logic/chat_memory_logic.go:52-65 | the largest turn strictly before the retained ones, or none exactly when there is none |
| `ChatMemory.CutoffSplitsNoTurn` | internal/logic/chat_memory_logic.go:50-65 | the cutoff covers something, never one of the last `keep` records, and exactly the records before the first retained turn |
| `ChatMemory.SummarizeBatches` | internal/logic/chat_memory_logic.go:69-105 | the batches, in order, are the messages; each fits the limit with the running summary; failure leaves a proper prefix |
| `ChatMemory.FillBatch` | internal/logic/chat_memory_logic.go:78-82 | a batch takes messages while they fit, and stops only at one that does not |
| `ChatMemory.EachBatchContinues` | internal/logic/chat_memory_logic.go:69-105 | each batch is read after the summary of all the batches before it, and nothing else is |
| `ChatMemory.NoTurnIsLost` | internal/logic/chat_memory_logic.go:26-41 | after any appends, loads, saves and deletion, even of overlapping and failing summarisers and of ones that outlive the conversation, each message is reloaded or went into the summaries behind the watermark |
| `ChatMemory.WatermarkRises` | internal/logic/chat_history_logic.go:356-398 | over every history in which no other summary is saved between a summariser's load and its save, watermarks strictly rise from each summary to the next |
| `ChatMemory.SaveRaises` | internal/logic/chat_history_logic.go:356-398 | in any history a save raises the watermark if and only if its cutoff lies above the current one, and it does if no other summary was saved since its load |
| `ChatMemory.WatermarkCanMoveBack` | internal/logic/chat_history_logic.go:356-398 | a history of nine steps with two overlapping summarisers that moves the watermark from the third turn back to the second |
| `ChatMemory.SummaryCanFollow` | internal/logic/chat_memory_logic.go:26-65 | in every reachable state, whatever summarisers are at work, failing ones included, some legal continuation begins a summary if and only if the conversation is open and, above the current watermark or one a summary under way would set, there are at most 998 messages, or at most a thousand of which the 999th is of a later turn than the first |
| `ChatMemory.TooLongIsReachable` | internal/logic/chat_memory_logic.go:36-40 | a thousand and one messages without a summary reach a state from which none can be begun, and so do 999 messages of a single turn |
| `RateLimit.SlidingWindow.Eval` | internal/middleware/rate_limit.go:35-55 | expiry, trimming, counting, admission and the retry hint as specified |
| `RateLimit.StepDecides` | internal/middleware/rate_limit.go:38-54 | the trimmed and expiring set decides exactly like a count over the whole history |
| `RateLimit.AtMostRatePerWindow` | internal/middleware/rate_limit.go:39-48 | every interval (t-W, t] holds at most `rate` admissions |
| `RateLimit.RetryIsExact` | internal/middleware/rate_limit.go:41-47 | refused at every time before the hinted one, admitted at it, if nothing else is admitted |
| `RateLimit.ExpiryIsHarmless` | internal/middleware/rate_limit.go:52-53 | key expiry drops nothing the window still counts |
| `RateLimit.AdvertisedWaitSuffices` | internal/middleware/rate_limit.go:83-86 | after a refusal, a request made when the Retry-After header says, with nothing admitted in between, is admitted if and only if the hint is at most a second or a whole number of seconds |
| `RateLimit.HeaderCutShort` | internal/middleware/rate_limit.go:83-86 | one request in two seconds: half a second after an admission the hint is 1500 ms, the header says one second, and a request then is refused |
| `Workspace.CheckWrite` | internal/core/execution/workspace.go:28-64 | the walk with running count and total admits exactly the writes the budget admits |
| `Workspace.BudgetIsInductive` | internal/core/execution/workspace.go:28-64 | a checked write and a delete keep a workspace within file count, total and per-file limits |
| `Workspace.ReplacedSize` | internal/ai/aitools/file_modify_tool.go:73-77 | the size computed before replacing is the size after it |
| `Workspace.ModifyFile` | internal/ai/aitools/file_modify_tool.go:59-85 | the tool fails without effect on an empty or absent text, an unreadable file or a full project, and otherwise writes the replaced text, within the budget |
| `Workspace.ToolsStayWithinBudget` | internal/core/execution/workspace.go:28-64 | no sequence of writes, modifications and deletes leaves the budget |
| `WorkspaceLaws.ModifiedIs` | internal/ai/aitools/file_modify_tool.go:59-85 | a modification that goes through leaves the file with the new text in place of every occurrence of the old one, from the left and without overlap, and nothing else of it changed |
| `WorkspaceLaws.ModifiesExactlyWhen` | internal/ai/aitools/file_modify_tool.go:59-85 | it goes through if and only if there is a text to look for, the file is ordinary, at most a megabyte and holds it, and the budget admits the result |
| `WorkspaceLaws.WrittenAndDeleted` | internal/core/execution/workspace.go:28-64 | an admitted write leaves exactly its data, a refused one the workspace as it was, and a deleted file is gone |
| `WorkspaceLaws.OtherFilesStay` | internal/ai/aitools/file_modify_tool.go:59-85 | no tool call changes a file other than the one it names |
| `SourceHash.PrepareWorkspace` | internal/core/execution/workspace.go:127-187 | copying is refused exactly outside the limits or at links and special files, and otherwise yields exactly the visible files |
| `SourceHash.SourceEntries` | internal/core/execution/source.go:20-68 | hashing accepts the same trees as copying and lists the visible files sorted by path |
| `SourceHash.HashesAgreeIffFilesDo` | internal/core/execution/source.go:54-67 | hashes are equal if and only if the visible paths and bytes are, whatever order the walk took |
| `SourceHash.CopyAgrees` | internal/core/execution/workspace.go:127-187 | a copy is within the budget, hashes like its source, and copying it again changes nothing |
| `SourceHash.FreezingNeverFails` | internal/core/execution/workspace.go:191-199 | after any tool calls, freezing and hashing never fail on the budget |
| `ToolJournal.Journal.BeginTool` | internal/dal/taskstore/execution_store.go:182-207 | claims an unseen call, answers a known one from its record, rejects other arguments |
| `ToolJournal.Journal.FinishTool` | internal/dal/taskstore/execution_store.go:209-221 | settles only the running record of the same call |
| `ToolJournal.Journal.Mutate` | internal/ai/aitools/file_scope.go:58-109 | the mutation runs exactly when the call was claimed, its outcome is recorded as persisting goes, replays answer from a success only; the statements do what the steps of one caller do in the protocol |
| `ToolJournal.MutationsRunAtMostOnce` | internal/ai/aitools/file_scope.go:58-109 | over any replays and crashes a mutation runs at most once per execution and call, and a success is reported only with that run's result, to the same call |
| `ToolJournal.RecordsSettleOnce` | internal/dal/taskstore/execution_store.go:209-221 | a record leaves running at most once; reuse with other arguments changes nothing |
| `ToolJournal.FreshCallRuns` | internal/dal/taskstore/execution_store.go:182-221 | a complete call that was never made takes effect once, is recorded with its outcome, and its success is answered |
| `ToolJournal.RepeatedCallIsAnswered` | internal/dal/taskstore/execution_store.go:182-207 | a call made before takes no effect; it is answered exactly if the same call's success is recorded, with the recorded result |
| `ToolJournal.SettledForGood` | internal/dal/taskstore/execution_store.go:182-221 | over any history a settled record never changes |

## Left out

- HTTP handlers, authentication, user and app administration, pages, configuration and metrics: plumbing
  around the modelled parts.
- Columns no rule reads: timestamps of runs, error messages, payloads, elapsed time of checkpoints and the
  compatibility string; a checkpoint of an incompatible build is refused before anything modelled happens.
- Publication under an explicitly given version identifier; versions are published under generated ones only.
- Identifiers drawn by failed transactions: the generator advances with commits only.
- GormStore.Store.CreateRun: the lookups and the insert are one step; the program repeats the lookups after a failed insert, which gives the same outcome as the first lookups here.
- ExecutionStore.Store.PublishRestoration: the app row's generation type is not modelled.
- Budget.Budget.ConsumeOne: one method stands for the three consume methods, with the counter as a parameter.
- Executors.CopiesStayCurrent: when an able executor stops and why is left to the gate of Approval; an executor may stop at any time here.
- Workflow.SuspensionPreservesMeaning: checkpoints taken inside a node when its working context is compacted, and retries of provider errors inside a node, which draw on the same counter, are not modelled; nor is a retry refused for tokens or time (Budget).
- ContextAssembly.Manager.Assemble: the business state, the summariser's answer and the outcome of saving are inputs; notifications are left out.
- Delivery.EndMeansAllDelivered: the source files that replace a code_completed payload are not modelled.
- EndToEnd.PageShowsTheLog: a frame is a function of the event's number and type; payloads are not modelled.
- EventHub.Hub.Receive: timeouts and cancellation of a sleeping subscription are steps of Delivery, not of the hub.
- RunStream.Follow: the delay between attempts and the decoding of bytes into text are left out; an abort takes effect between chunks.
- RateLimit.SlidingWindow.Eval: members are kept in admission order; the sorted set's order among equal scores does not matter to the script.
- Workspace.CheckWrite: paths are lists of components, already cleaned; a tree is the list of its files in the order a walk visits them, and links count where the walk sees them.
- SourceHash.SourceEntries: sorts by insertion, because the library's sort promises no more than a sorted result.
- ToolJournal.Journal.Mutate: the workspace lock, the error text of an uncertain outcome and a call cancelled before it begins are left out.
- ChatMemory.NoTurnIsLost: clearing a history without deleting its app (internal/logic/chat_history_logic.go:188) has no caller and is not modelled.
- ChatMemory.SummaryCanFollow: a summary has begun when its messages are loaded; that its lease, model or answer fails is a step of its own.
- Turn numbering and summary metadata in Redis are steps of ChatMemory's state machine, not an object of their own; token statistics are left out.
- The older, non-detached workflow and its stream pipes: an easier duplicate of the modelled one.
- Image collection, uploads, npm builds and the parsers of model output: external effects or heuristics without a crisp specification.
