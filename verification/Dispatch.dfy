/** The outbox dispatchers: how pending runs reach an executor. Any number of dispatchers, including
    stale ones of a process that lost the runtime lock, interleave with every other transaction. */
module Dispatch {
  import opened TaskTypes
  import opened TaskTransactions
  import opened TaskInvariants
  import opened TaskHistory
  import opened TaskTheorems

  /** A claimed message on its way: just claimed, found pending, dealt with, or to be retried. */
  datatype Phase = Taken | Starting | Handled | Failing
  datatype Flight = Flight(key: OutboxKey, run: int, phase: Phase)

  /** `executions` counts the executors launched for each run. */
  datatype System = System(db: Db, flights: map<int, Flight>, executions: map<int, nat>)

  datatype Step =
    | Transaction(op: Op)
    | Take(slot: int, key: OutboxKey)
    | Inspect(slot: int)
    | Refuse(slot: int)
    | Start(slot: int, reply: bool)
    | Acknowledge(slot: int)
    | Retry(slot: int, attempts: int)
    | Vanish(slot: int)

  function Executions(s: System, r: int): nat {
    if r in s.executions then s.executions[r] else 0
  }

  /** Claims, starts and acknowledgements belong to dispatchers; a restart sees every stale run. */
  ghost predicate Allowed(s: System, step: Step) {
    match step
    case Transaction(op) =>
      !op.OpClaimOutbox? && !op.OpDelivered? && !op.OpMarkRunning? && (op.OpRestart? ==> StaleOrder(s.db, op.order))
    case Take(slot, key) => slot !in s.flights && Due(s.db, key)
    case Inspect(slot) => slot in s.flights && s.flights[slot].phase.Taken?
    case Refuse(slot) => slot in s.flights && s.flights[slot].phase.Starting?
    case Start(slot, _) => slot in s.flights && s.flights[slot].phase.Starting?
    case Acknowledge(slot) => slot in s.flights && s.flights[slot].phase.Handled?
    case Retry(slot, _) => slot in s.flights && s.flights[slot].phase.Failing?
    case Vanish(slot) => slot in s.flights
  }

  function SetPhase(s: System, slot: int, phase: Phase): System
    requires slot in s.flights
  {
    s.(flights := s.flights[slot := s.flights[slot].(phase := phase)])
  }

  /** One step. A start commits in the store first; only when its reply arrives is an executor
      launched, otherwise the message is retried. */
  function Next(s: System, step: Step): System {
    match step
    case Transaction(op) => s.(db := Apply(s.db, op))
    case Take(slot, key) =>
      if !Due(s.db, key) then s
      else s.(db := ClaimOutboxRow(s.db, key), flights := s.flights[slot := Flight(key, s.db.outbox[key].run, Taken)])
    case Inspect(slot) =>
      if slot !in s.flights then s
      else if s.flights[slot].key.RunEvent? then SetPhase(s, slot, Handled)
      else if s.flights[slot].run !in s.db.runs then SetPhase(s, slot, Failing)
      else if s.db.runs[s.flights[slot].run].status.Pending? then SetPhase(s, slot, Starting)
      else SetPhase(s, slot, Handled)
    case Refuse(slot) => if slot in s.flights then SetPhase(s, slot, Failing) else s
    case Start(slot, reply) =>
      if slot !in s.flights then s else
        var run, started := s.flights[slot].run, MarkRunning(s.db, s.flights[slot].run);
        if started.outcome.Ok? && reply then
          SetPhase(s.(db := started.db, executions := s.executions[run := Executions(s, run) + 1]), slot, Handled)
        else SetPhase(s.(db := started.db), slot, Failing)
    case Acknowledge(slot) =>
      if slot !in s.flights then s
      else s.(db := MarkOutboxDelivered(s.db, s.flights[slot].key), flights := s.flights - {slot})
    case Retry(slot, attempts) =>
      if slot !in s.flights then s
      else s.(db := RetryOutbox(s.db, s.flights[slot].key, attempts), flights := s.flights - {slot})
    case Vanish(slot) => s.(flights := s.flights - {slot})
  }

  predicate Live(row: OutboxRow) { row.status.Waiting? || row.status.Processing? }

  type Outbox = map<OutboxKey, OutboxRow>
  type Flights = map<int, Flight>

  predicate Waits(runs: Runs, r: int) { r in runs && runs[r].status.Pending? }

  /** A start message that will still be looked at: queued or claimed, and not already dealt with. */
  ghost predicate Promised(outbox: Outbox, flights: Flights, r: int, key: OutboxKey) {
    && key in outbox && !key.RunEvent? && outbox[key].run == r && Live(outbox[key])
    && forall slot :: slot in flights && flights[slot].key == key ==> !flights[slot].phase.Handled?
  }

  /** Every pending run has such a message, and flights carry stored messages. */
  ghost predicate Delivery(runs: Runs, outbox: Outbox, flights: Flights) {
    && (forall r :: Waits(runs, r) ==> exists key :: Promised(outbox, flights, r, key))
    && (forall slot :: slot in flights ==>
          flights[slot].key in outbox
              && (!flights[slot].key.RunEvent? ==> outbox[flights[slot].key].run == flights[slot].run))
  }

  ghost predicate ExecutionsStarted(db: Db, executions: map<int, nat>)
    requires LogsNumbered(db.runs, db.events)
  {
    forall r :: r in executions ==> r in db.runs && executions[r] <= Count(Log(db.runs, db.events, r), Running)
  }

  ghost predicate SystemInv(s: System) {
    Inv(s.db) && Delivery(s.db.runs, s.db.outbox, s.flights) && ExecutionsStarted(s.db, s.executions)
  }

  // ---- what transactions leave of start messages --------------------------------------------

  /** Start messages keep their run, and stay live unless a dispatcher or a restart ends them. */
  ghost predicate KeepsMessages(db: Db, after: Db) {
    forall key :: key in db.outbox ==>
      && key in after.outbox && (key.RunEvent? || after.outbox[key].run == db.outbox[key].run)
      && (!key.RunEvent? && Live(db.outbox[key]) ==> Live(after.outbox[key]))
  }

  /** A run that becomes pending brings a start message of its own. */
  ghost predicate BringsMessage(db: Db, after: Db) {
    forall r :: r in after.runs && after.runs[r].status.Pending? && !(r in db.runs && db.runs[r].status.Pending?) ==>
      exists key :: key !in db.outbox && !key.RunEvent? && key in after.outbox
          && after.outbox[key] == StartMessage(r, db.now)
  }

  ghost predicate Faithful(db: Db, after: Db) {
    KeepsMessages(db, after) && BringsMessage(db, after)
  }

  lemma AdvanceMessages(db: Db, base: Db, id: int, row: Run, evts: seq<EventType>)
    requires id in db.runs && row.lastSequence == db.runs[id].lastSequence
    requires base.runs == db.runs && base.outbox == db.outbox
    requires row.status == db.runs[id].status || !row.status.Pending?
    ensures Faithful(db, Advance(base, id, row, evts))
  {
    AdvanceFields(base, id, row, evts);
    hide Advance, AddEvents;
  }

  lemma CompleteFaithful(db: Db, id: int, c: Completion)
    ensures Faithful(db, Complete(db, id, c).db)
  {
    if Complete(db, id, c).db != db {
      hide Complete, Advance, CompletionEvents, KeepsMessages, BringsMessage, Faithful;
      var apps := CompleteShape(db, id, c);
      AdvanceMessages(db, Published(db, apps, VersionRow(db, id, c)), id, CompletedRow(db, id),
          CompletionEvents(db.nextId, c.description));
    }
  }

  lemma StayFaithful(db: Db)
    ensures Faithful(db, db)
  {
  }

  lemma FailFaithful(db: Db, id: int, interrupted: bool)
    ensures Faithful(db, Fail(db, id, interrupted).db)
  {
    StayFaithful(db);
    if id in db.runs {
      var row := db.runs[id];
      AdvanceMessages(db, db, id, row.(status := Canceled, activeKey := None), [RunCanceled, Done]);
      AdvanceMessages(db, db, id, row.(status := Recoverable), [RunSuspended(Recoverable)]);
      var status := if interrupted then Interrupted else Failed;
      AdvanceMessages(db, db, id, row.(status := status, activeKey := None), [ErrorRaised, RunFailed(status), Done]);
      hide Advance, Faithful;
    }
  }

  lemma StopFaithful(db: Db, id: int)
    requires id in db.runs
    ensures Faithful(db, Stop(db, id).db)
  {
    StayFaithful(db);
    var row := db.runs[id];
    AdvanceMessages(db, db, id, row.(status := Cancelling), [RunControl(Cancelling)]);
    AdvanceMessages(db, db, id, row.(status := Canceled, activeKey := None), [RunControl(Canceled), Done]);
    hide Advance, Faithful;
  }

  lemma RequeueMoveFaithful(db: Db, id: int, cp: Checkpoint, row: Run)
    requires TaskResume(db.nextId) !in db.outbox && id in db.runs && row.lastSequence == db.runs[id].lastSequence
    ensures Faithful(db, Advance(RequeueBase(db, id, cp), id, row, [RunControl(Pending)]))
  {
    var base := RequeueBase(db, id, cp);
    AdvanceFields(base, id, row, [RunControl(Pending)]);
    var after := Advance(base, id, row, [RunControl(Pending)]);
    hide Advance, AddEvents;
    assert after.outbox[TaskResume(db.nextId)] == StartMessage(id, db.now);
    assert KeepsMessages(db, after);
    assert after.runs.Keys == db.runs.Keys && forall r :: r in db.runs && r != id ==> after.runs[r] == db.runs[r];
    hide AddMessages, Moved, RequeueBase, KeepsMessages;
  }

  /** Approving and resuming bring a start message under a fresh key. */
  lemma RequeueFaithful(db: Db, id: int, cp: Checkpoint)
    requires Inv(db) && id in db.runs
    ensures Faithful(db, Requeue(db, id, cp).db)
  {
    StayFaithful(db);
    assert TaskResume(db.nextId) !in db.outbox;
    RequeueMoveFaithful(db, id, cp, db.runs[id].(status := Pending, activeKey := Some(db.runs[id].request.app)));
    hide Inv, KeyHeldByOther, Faithful, Advance, RequeueBase;
  }

  lemma ControlFaithful(db: Db, id: int, user: int, action: Action)
    requires Inv(db)
    ensures Faithful(db, Control(db, id, user, action).db)
  {
    hide Inv, Stop, Requeue, Advance, Faithful;
    StayFaithful(db);
    if id in db.runs {
      match action {
        case Pause => AdvanceMessages(db, db, id, db.runs[id].(status := Pausing), [RunControl(Pausing)]);
        case Cancel => StopFaithful(db, id);
        case Reject => StopFaithful(db, id);
        case Approve(hash) =>
          if id in db.checkpoints { RequeueFaithful(db, id, db.checkpoints[id].(approvedHash := hash)); }
        case Resume => if id in db.checkpoints { RequeueFaithful(db, id, db.checkpoints[id]); }
        case Unknown =>
      }
    }
  }

  lemma PublishFaithful(db: Db, p: Publication)
    ensures Faithful(db, Publish(db, p).db)
  {
    hide ValidClaim, RunHasVersion;
  }

  lemma CreateFaithful(db: Db, req: StartRequest)
    requires Inv(db)
    ensures Faithful(db, Apply(db, OpCreate(req)))
  {
    assert TaskReady(db.nextId) !in db.outbox;
    hide Inv;
  }

  lemma SuspendFaithful(db: Db, id: int, status: Status)
    ensures Faithful(db, Suspend(db, id, status).db)
  {
    StayFaithful(db);
    if id in db.runs && (status.Paused? || status.AwaitingApproval?) {
      AdvanceMessages(db, db, id, db.runs[id].(status := status), [RunSuspended(status)]);
    }
    hide Advance, Faithful;
  }

  lemma SaveFaithful(db: Db, id: int, c: Claim, cp: Checkpoint)
    ensures Faithful(db, SaveCheckpoint(db, id, c, cp).db)
  {
    StayFaithful(db);
    hide ValidClaim;
    if id in db.runs {
      AdvanceMessages(db, db.(checkpoints := db.checkpoints[id := cp]), id, db.runs[id], [CheckpointSaved]);
    }
    hide Advance, Faithful;
  }

  lemma AppendFaithful(db: Db, id: int, kind: string)
    ensures Faithful(db, AppendEvent(db, id, kind).db)
  {
    StayFaithful(db);
    if id in db.runs {
      AdvanceMessages(db, db, id, db.runs[id], [Semantic(kind)]);
    }
    hide Advance, Faithful;
  }

  lemma SameTablesFaithful(db: Db, after: Db)
    requires after.runs == db.runs && after.outbox == db.outbox
    ensures Faithful(db, after)
  {
  }

  lemma QueueFaithful(db: Db, key: OutboxKey, attempts: int)
    ensures Faithful(db, ReclaimOutbox(db)) && Faithful(db, RetryOutbox(db, key, attempts))
  {
    hide RetryDelay, LostAckMs;
  }

  lemma OwnershipFaithful(db: Db, op: Op)
    requires op.OpClaim? || op.OpRenew? || op.OpRelease?
    ensures Faithful(db, Apply(db, op))
  {
    hide ValidClaim, Faithful;
    assert Apply(db, op).runs == db.runs && Apply(db, op).outbox == db.outbox;
    hide Apply;
    SameTablesFaithful(db, Apply(db, op));
  }

  lemma SideFaithful(db: Db, op: Op)
    requires op.OpBudget? || op.OpReclaimOutbox? || op.OpRetry? || op.OpClaim? || op.OpRenew? || op.OpRelease?
        || op.OpRegister? || op.OpTick?
    ensures Faithful(db, Apply(db, op))
  {
    hide ValidClaim, Faithful, ReclaimOutbox, RetryOutbox, ClaimApp, Renew, Release;
    match op
    case OpReclaimOutbox => QueueFaithful(db, TaskReady(0), 0);
    case OpRetry(key, attempts) => QueueFaithful(db, key, attempts);
    case OpBudget(_, _, _) => SameTablesFaithful(db, Apply(db, op));
    case OpClaim(_, _, _) => OwnershipFaithful(db, op);
    case OpRenew(_, _) => OwnershipFaithful(db, op);
    case OpRelease(_) => OwnershipFaithful(db, op);
    case OpRegister(_, _, _) => SameTablesFaithful(db, Apply(db, op));
    case OpTick(_) => SameTablesFaithful(db, Apply(db, op));
  }

  /** Every transaction outside the dispatcher keeps start messages live and gives each run that
      becomes pending a message of its own. */
  lemma TransactionFaithful(db: Db, op: Op)
    requires Inv(db) && !op.OpClaimOutbox? && !op.OpDelivered? && !op.OpMarkRunning? && !op.OpRestart?
    ensures Faithful(db, Apply(db, op))
  {
    hide Inv, Faithful, AppendEvent, Complete, Fail, Suspend, Control, SaveCheckpoint, Publish;
    match op
    case OpCreate(req) => CreateFaithful(db, req);
    case OpAppend(id, kind) => AppendFaithful(db, id, kind);
    case OpComplete(id, c) => CompleteFaithful(db, id, c);
    case OpFail(id, interrupted) => FailFaithful(db, id, interrupted);
    case OpSuspend(id, status) => SuspendFaithful(db, id, status);
    case OpControl(id, user, action) => ControlFaithful(db, id, user, action);
    case OpSave(id, c, cp) => SaveFaithful(db, id, c, cp);
    case OpPublish(p) => PublishFaithful(db, p);
    case OpRestore(p) => StayFaithful(db); PublishFaithful(db, p);
    case OpBudget(_, _, _) => SideFaithful(db, op);
    case OpReclaimOutbox => SideFaithful(db, op);
    case OpRetry(_, _) => SideFaithful(db, op);
    case OpClaim(_, _, _) => SideFaithful(db, op);
    case OpRenew(_, _) => SideFaithful(db, op);
    case OpRelease(_) => SideFaithful(db, op);
    case OpRegister(_, _, _) => SideFaithful(db, op);
    case OpTick(_) => SideFaithful(db, op);
  }

  // ---- every step keeps the promise ---------------------------------------------------------

  lemma {:induction false} CountGrows(log: seq<EventType>, longer: seq<EventType>, status: Status)
    requires log <= longer
    ensures Count(log, status) <= Count(longer, status)
    decreases |longer|
  {
    if |log| == |longer| {
      assert log == longer;
    } else {
      CountGrows(log, longer[..|longer| - 1], status);
    }
  }

  lemma LogGrows(db: Db, after: Db, r: int)
    requires Inv(db) && Inv(after) && Extends(db, after) && r in db.runs
    ensures r in after.runs && Log(db.runs, db.events, r) <= Log(after.runs, after.events, r)
  {
    hide LogsFit, VersionsOwned, IdsIssued, UniqueKeys;
    assert forall i :: 1 <= i <= db.runs[r].lastSequence ==> (r, i) in db.events;
  }

  lemma ExecutionsStayStarted(db: Db, after: Db, executions: map<int, nat>)
    requires Inv(db) && Inv(after) && Extends(db, after) && ExecutionsStarted(db, executions)
    ensures ExecutionsStarted(after, executions)
  {
    forall r | r in executions
      ensures r in after.runs && executions[r] <= Count(Log(after.runs, after.events, r), Running)
    {
      LogGrows(db, after, r);
      CountGrows(Log(db.runs, db.events, r), Log(after.runs, after.events, r), Running);
    }
  }

  lemma FaithfulDelivers(db: Db, after: Db, flights: Flights)
    requires Delivery(db.runs, db.outbox, flights) && Faithful(db, after)
    ensures Delivery(after.runs, after.outbox, flights)
  {
    forall r | Waits(after.runs, r)
      ensures exists key :: Promised(after.outbox, flights, r, key)
    {
      if Waits(db.runs, r) {
        var key :| Promised(db.outbox, flights, r, key);
        assert Promised(after.outbox, flights, r, key);
      } else {
        var key :| key !in db.outbox && !key.RunEvent? && key in after.outbox
            && after.outbox[key] == StartMessage(r, db.now);
        assert Promised(after.outbox, flights, r, key);
      }
    }
  }

  lemma TransactionKeeps(s: System, op: Op)
    requires SystemInv(s) && !op.OpClaimOutbox? && !op.OpDelivered? && !op.OpMarkRunning? && !op.OpRestart?
    ensures SystemInv(Next(s, Transaction(op)))
  {
    hide Inv, Apply, Delivery, ExecutionsStarted, Extends, Moves, Faithful;
    StepSound(s.db, op);
    TransactionFaithful(s.db, op);
    ExecutionsStayStarted(s.db, Apply(s.db, op), s.executions);
    FaithfulDelivers(s.db, Apply(s.db, op), s.flights);
  }

  ghost predicate KeepsRows(outbox: Outbox, after: Outbox) {
    forall key :: key in outbox ==> key in after && (key.RunEvent? || after[key].run == outbox[key].run)
  }

  lemma InterruptKeepsRows(db: Db, id: int)
    requires id in db.runs && Stale(db.runs[id].status)
    ensures KeepsRows(db.outbox, InterruptRun(db, id).outbox)
  {
    hide AddEvents;
  }

  lemma {:induction false} InterruptRunsKeepRows(db: Db, order: seq<int>)
    ensures KeepsRows(db.outbox, InterruptRuns(db, order).outbox)
    decreases |order|
  {
    if order != [] {
      hide InterruptRun;
      var rest, id := InterruptRuns(db, order[..|order| - 1]), order[|order| - 1];
      InterruptRunsKeepRows(db, order[..|order| - 1]);
      if id in rest.runs && Stale(rest.runs[id].status) { InterruptKeepsRows(rest, id); }
    }
  }

  lemma RestartKeeps(s: System, order: seq<int>)
    requires SystemInv(s) && StaleOrder(s.db, order)
    ensures SystemInv(Next(s, Transaction(OpRestart(order))))
  {
    var after := InterruptStale(s.db, order);
    InterruptRunsKeepRows(s.db, order);
    assert KeepsRows(s.db.outbox, after.outbox) by { hide InterruptRuns, Inv; }
    hide Inv, InterruptStale, ExecutionsStarted, Extends, Moves;
    RestartSound(s.db, order);
    RestartLeavesNothingStale(s.db, order);
    ExecutionsStayStarted(s.db, after, s.executions);
  }

  lemma TakeDelivers(runs: Runs, outbox: Outbox, flights: Flights, slot: int, key: OutboxKey, now: int)
    requires Delivery(runs, outbox, flights) && slot !in flights && key in outbox
    ensures Delivery(runs, outbox[key := outbox[key].(status := Processing, claimedAt := Some(now))],
                     flights[slot := Flight(key, outbox[key].run, Taken)])
  {
    var outbox', flights' := outbox[key := outbox[key].(status := Processing, claimedAt := Some(now))],
        flights[slot := Flight(key, outbox[key].run, Taken)];
    forall r | Waits(runs, r)
      ensures exists k :: Promised(outbox', flights', r, k)
    {
      var k :| Promised(outbox, flights, r, k);
      assert Promised(outbox', flights', r, k);
    }
  }

  lemma StoreKeeps(db: Db, op: Op, executions: map<int, nat>)
    requires Inv(db) && ExecutionsStarted(db, executions)
    ensures Inv(Apply(db, op)) && ExecutionsStarted(Apply(db, op), executions)
  {
    StepSound(db, op);
    hide Inv, Apply, Extends, Moves, ExecutionsStarted;
    ExecutionsStayStarted(db, Apply(db, op), executions);
  }

  lemma TakeKeeps(s: System, slot: int, key: OutboxKey)
    requires SystemInv(s) && Allowed(s, Take(slot, key))
    ensures SystemInv(Next(s, Take(slot, key)))
  {
    hide Inv, ExecutionsStarted, Delivery;
    StoreKeeps(s.db, OpClaimOutbox(key), s.executions);
    TakeDelivers(s.db.runs, s.db.outbox, s.flights, slot, key, s.db.now);
  }

  /** A message is dealt with only when its run does not wait (any more). */
  lemma PhaseDelivers(runs: Runs, outbox: Outbox, flights: Flights, slot: int, phase: Phase)
    requires Delivery(runs, outbox, flights) && slot in flights
    requires phase.Handled? ==> flights[slot].key.RunEvent? || !Waits(runs, flights[slot].run)
    ensures Delivery(runs, outbox, flights[slot := flights[slot].(phase := phase)])
  {
    var flights' := flights[slot := flights[slot].(phase := phase)];
    forall r | Waits(runs, r)
      ensures exists k :: Promised(outbox, flights', r, k)
    {
      var k :| Promised(outbox, flights, r, k);
      assert Promised(outbox, flights', r, k);
    }
  }

  lemma InspectKeeps(s: System, slot: int)
    requires SystemInv(s) && slot in s.flights
    ensures SystemInv(Next(s, Inspect(slot))) && SystemInv(Next(s, Refuse(slot)))
  {
    hide Inv, ExecutionsStarted, Delivery;
    PhaseDelivers(s.db.runs, s.db.outbox, s.flights, slot, Failing);
    PhaseDelivers(s.db.runs, s.db.outbox, s.flights, slot, Starting);
    if s.flights[slot].key.RunEvent? || !Waits(s.db.runs, s.flights[slot].run) {
      PhaseDelivers(s.db.runs, s.db.outbox, s.flights, slot, Handled);
    }
  }

  lemma StartLog(db: Db, run: int)
    requires Inv(db) && Waits(db.runs, run)
    ensures var after := MarkRunning(db, run).db;
      && LogsNumbered(after.runs, after.events) && run in after.runs
      && Log(after.runs, after.events, run) == Log(db.runs, db.events, run) + [RunStarted]
  {
    var row := db.runs[run].(status := Running);
    AdvanceFields(db, run, row, [RunStarted]);
    hide LogsFit;
    AddEventsLogs(db.runs, db.events, run, row, [RunStarted], run);
    hide Log, LogsNumbered, AddEvents, Advance;
  }

  lemma OneMoreExecution(db: Db, executions: map<int, nat>, run: int, n: nat)
    requires LogsNumbered(db.runs, db.events) && ExecutionsStarted(db, executions)
    requires run in db.runs && n <= Count(Log(db.runs, db.events, run), Running)
    ensures ExecutionsStarted(db, executions[run := n])
  {
    hide LogsNumbered, Log, Count;
  }

  lemma StartIsCounted(db: Db, executions: map<int, nat>, run: int)
    requires Inv(db) && ExecutionsStarted(db, executions) && Waits(db.runs, run)
    ensures var after := MarkRunning(db, run).db;
      && LogsNumbered(after.runs, after.events) && run in after.runs
      && (if run in executions then executions[run] else 0) + 1 <= Count(Log(after.runs, after.events, run), Running)
  {
    StartLog(db, run);
    var before := Log(db.runs, db.events, run);
    assert (before + [RunStarted])[..|before|] == before;
    assert Count(before + [RunStarted], Running) == Count(before, Running) + 1;
    hide LogsNumbered, Log, LogsFit, MarkRunning, Count;
  }

  lemma StartCounts(db: Db, executions: map<int, nat>, run: int)
    requires Inv(db) && ExecutionsStarted(db, executions) && Waits(db.runs, run)
    ensures var after := MarkRunning(db, run).db;
      && Inv(after) && ExecutionsStarted(after, executions)
      && ExecutionsStarted(after, executions[run := (if run in executions then executions[run] else 0) + 1])
  {
    StoreKeeps(db, OpMarkRunning(run), executions);
    StartIsCounted(db, executions, run);
    hide *;
    OneMoreExecution(MarkRunning(db, run).db, executions, run, (if run in executions then executions[run] else 0) + 1);
  }

  lemma StartedTables(db: Db, run: int)
    requires Waits(db.runs, run)
    ensures Faithful(db, MarkRunning(db, run).db) && !Waits(MarkRunning(db, run).db.runs, run)
  {
    var row := db.runs[run].(status := Running);
    AdvanceMessages(db, db, run, row, [RunStarted]);
    hide Faithful, AddEvents, AddMessages;
  }

  lemma StartCommits(s: System, slot: int)
    requires SystemInv(s) && slot in s.flights && Waits(s.db.runs, s.flights[slot].run)
    ensures var run := s.flights[slot].run;
      var started := s.(db := MarkRunning(s.db, run).db);
      && SystemInv(SetPhase(started.(executions := s.executions[run := Executions(s, run) + 1]), slot, Handled))
      && SystemInv(SetPhase(started, slot, Failing))
  {
    hide Inv, ExecutionsStarted, Delivery, Faithful, MarkRunning, Waits;
    var run := s.flights[slot].run;
    var after := MarkRunning(s.db, run).db;
    StartCounts(s.db, s.executions, run);
    StartedTables(s.db, run);
    FaithfulDelivers(s.db, after, s.flights);
    PhaseDelivers(after.runs, after.outbox, s.flights, slot, Handled);
    PhaseDelivers(after.runs, after.outbox, s.flights, slot, Failing);
  }

  lemma StartKeeps(s: System, slot: int, reply: bool)
    requires SystemInv(s) && slot in s.flights
    ensures SystemInv(Next(s, Start(slot, reply)))
  {
    hide SystemInv, Advance;
    if Waits(s.db.runs, s.flights[slot].run) { StartCommits(s, slot); } else { InspectKeeps(s, slot); }
  }

  /** Ending a message that was dealt with, or returning one to the queue. */
  lemma SettleDelivers(runs: Runs, outbox: Outbox, flights: Flights, slot: int, row: OutboxRow)
    requires Delivery(runs, outbox, flights) && slot in flights && row.run == outbox[flights[slot].key].run
    requires flights[slot].phase.Handled? || Live(row)
    ensures Delivery(runs, outbox[flights[slot].key := row], flights - {slot})
  {
    var outbox', flights' := outbox[flights[slot].key := row], flights - {slot};
    forall r | Waits(runs, r)
      ensures exists k :: Promised(outbox', flights', r, k)
    {
      var k :| Promised(outbox, flights, r, k);
      assert Promised(outbox', flights', r, k);
    }
  }

  lemma FlightRow(s: System, slot: int)
    requires SystemInv(s) && slot in s.flights
    ensures s.flights[slot].key in s.db.outbox
  {
    hide Inv, ExecutionsStarted;
  }

  lemma AcknowledgeKeeps(s: System, slot: int)
    requires SystemInv(s) && Allowed(s, Acknowledge(slot))
    ensures SystemInv(Next(s, Acknowledge(slot)))
  {
    hide Inv, ExecutionsStarted, Delivery;
    FlightRow(s, slot);
    var key := s.flights[slot].key;
    StoreKeeps(s.db, OpDelivered(key), s.executions);
    SettleDelivers(s.db.runs, s.db.outbox, s.flights, slot, s.db.outbox[key].(status := Delivered));
  }

  lemma RetryKeeps(s: System, slot: int, attempts: int)
    requires SystemInv(s) && slot in s.flights
    ensures SystemInv(Next(s, Retry(slot, attempts)))
  {
    hide Inv, ExecutionsStarted, Delivery, RetryDelay;
    FlightRow(s, slot);
    var key := s.flights[slot].key;
    StoreKeeps(s.db, OpRetry(key, attempts), s.executions);
    SettleDelivers(s.db.runs, s.db.outbox, s.flights, slot, RetryOutbox(s.db, key, attempts).outbox[key]);
  }

  lemma VanishKeeps(s: System, slot: int)
    requires SystemInv(s) && slot in s.flights
    ensures SystemInv(Next(s, Vanish(slot)))
  {
    hide Inv, ExecutionsStarted;
    forall r | Waits(s.db.runs, r)
      ensures exists k :: Promised(s.db.outbox, s.flights - {slot}, r, k)
    {
      var k :| Promised(s.db.outbox, s.flights, r, k);
      assert Promised(s.db.outbox, s.flights - {slot}, r, k);
    }
  }

  lemma NextKeeps(s: System, step: Step)
    requires SystemInv(s) && Allowed(s, step)
    ensures SystemInv(Next(s, step))
  {
    hide SystemInv, Next;
    match step
    case Transaction(op) => if op.OpRestart? { RestartKeeps(s, op.order); } else { TransactionKeeps(s, op); }
    case Take(slot, key) => TakeKeeps(s, slot, key);
    case Inspect(slot) => InspectKeeps(s, slot);
    case Refuse(slot) => InspectKeeps(s, slot);
    case Start(slot, reply) => StartKeeps(s, slot, reply);
    case Acknowledge(slot) => AcknowledgeKeeps(s, slot);
    case Retry(slot, attempts) => RetryKeeps(s, slot, attempts);
    case Vanish(slot) => VanishKeeps(s, slot);
  }

  // ---- theorems over every run of the whole system --------------------------------------------

  const Boot := System(EmptyDb, map[], map[])

  function RunFrom(s: System, steps: seq<Step>): System {
    if steps == [] then s else Next(RunFrom(s, steps[..|steps| - 1]), steps[|steps| - 1])
  }

  function Reached(steps: seq<Step>): System {
    RunFrom(Boot, steps)
  }

  ghost predicate Legal(steps: seq<Step>) {
    forall i :: 0 <= i < |steps| ==> Allowed(Reached(steps[..i]), steps[i])
  }

  lemma {:induction false} RunKeeps(steps: seq<Step>)
    requires Legal(steps)
    ensures SystemInv(Reached(steps))
    decreases |steps|
  {
    if steps == [] {
      EmptyIsSound();
    } else {
      var front := steps[..|steps| - 1];
      assert forall i :: 0 <= i < |front| ==> front[..i] == steps[..i];
      hide SystemInv, Next;
      RunKeeps(front);
      NextKeeps(Reached(front), steps[|steps| - 1]);
    }
  }

  /** No lost start: under every interleaving of claims, dispatches, acknowledgements, retries, lost
      replies, crashes, user control and restarts, a pending run has a start message that is queued
      or claimed and has not been dealt with. */
  lemma PendingRunIsPromisedAStart(steps: seq<Step>, r: int)
    requires Legal(steps) && r in Reached(steps).db.runs && Reached(steps).db.runs[r].status.Pending?
    ensures exists key :: Promised(Reached(steps).db.outbox, Reached(steps).flights, r, key)
  {
    RunKeeps(steps);
    hide Inv, Reached, ExecutionsStarted;
    assert Waits(Reached(steps).db.runs, r);
  }

  /** Each passage through pending launches at most one executor, and a run still pending has one
      passage left unanswered. */
  lemma AtMostOneExecutionPerPassage(steps: seq<Step>, r: int)
    requires Legal(steps) && r in Reached(steps).db.runs
    ensures LogsNumbered(Reached(steps).db.runs, Reached(steps).db.events)
    ensures var s := Reached(steps);
      Executions(s, r) + (if s.db.runs[r].status.Pending? then 1 else 0)
      <= Count(Log(s.db.runs, s.db.events, r), Pending)
  {
    RunKeeps(steps);
    var s := Reached(steps);
    hide Reached;
    var log := Log(s.db.runs, s.db.events, r);
    assert LogFits(log, s.db.runs[r]);
    StartsFollowRequests(log);
  }

  // ---- a start whose reply is lost ------------------------------------------------------------

  lemma ExecutorNeedsPendingRun(s: System, step: Step, r: int)
    requires !Waits(s.db.runs, r)
    ensures Executions(Next(s, step), r) == Executions(s, r)
  {
    hide Apply, ClaimOutboxRow, RetryOutbox, MarkOutboxDelivered, Advance;
  }

  lemma StartedRow(s: System, slot: int)
    requires Allowed(s, Start(slot, false)) && Waits(s.db.runs, s.flights[slot].run)
    ensures var r, stranded := s.flights[slot].run, Next(s, Start(slot, false));
      r in stranded.db.runs && stranded.db.runs[r].status.Running? && Executions(stranded, r) == Executions(s, r)
  {
    hide AddEvents, AddMessages;
  }

  /** The guarantee stops at the reply. When marking the run as running commits but its answer is
      lost, the run is running without an executor, and however the system goes on, none is launched
      for it before it passes through pending again; a restart takes it out of running. */
  lemma {:induction false} LostReplyStrandsRun(s: System, slot: int, steps: seq<Step>)
    requires Allowed(s, Start(slot, false)) && Waits(s.db.runs, s.flights[slot].run)
    requires forall i :: 0 <= i <= |steps| ==>
               !Waits(RunFrom(Next(s, Start(slot, false)), steps[..i]).db.runs, s.flights[slot].run)
    ensures var r, stranded := s.flights[slot].run, Next(s, Start(slot, false));
      && r in stranded.db.runs && stranded.db.runs[r].status.Running?
      && Executions(RunFrom(stranded, steps), r) == Executions(s, r)
    decreases |steps|
  {
    var r, stranded := s.flights[slot].run, Next(s, Start(slot, false));
    hide Next;
    StartedRow(s, slot);
    if steps != [] {
      var front := steps[..|steps| - 1];
      assert forall i :: 0 <= i <= |front| ==> front[..i] == steps[..i];
      assert !Waits(RunFrom(stranded, steps[..|front|]).db.runs, r);
      LostReplyStrandsRun(s, slot, front);
      ExecutorNeedsPendingRun(RunFrom(stranded, front), steps[|steps| - 1], r);
    }
  }
}
