/** Starts and executors, counted: which started runs have an executor, over every history of the
    dispatchers and the store. */
module Starts {
  import opened TaskTypes
  import opened TaskTransactions
  import opened TaskInvariants
  import opened TaskHistory
  import opened TaskTheorems
  import opened Dispatch

  // ---- only marking a run as running starts it --------------------------------------------------

  /** No event written says that a run was started. */
  ghost predicate StartsNothing(events: Events, after: Events) {
    forall key :: key in after ==>
      (key in events && after[key] == events[key]) || StatusOf(after[key]) != Some(Running)
  }

  ghost predicate NoStart(evts: seq<EventType>) {
    forall i :: 0 <= i < |evts| ==> StatusOf(evts[i]) != Some(Running)
  }

  lemma NothingStarts(events: Events)
    ensures StartsNothing(events, events)
  {
  }

  lemma AdvanceStarts(base: Db, id: int, row: Run, evts: seq<EventType>)
    requires id in base.runs && row.lastSequence == base.runs[id].lastSequence && NoStart(evts)
    ensures StartsNothing(base.events, Advance(base, id, row, evts).events)
  {
    AdvanceFields(base, id, row, evts);
    hide Advance, StatusOf;
  }

  lemma CompletionIsNoStart(v: int, description: bool)
    ensures NoStart(CompletionEvents(v, description))
  {
  }

  lemma CompleteStarts(db: Db, id: int, c: Completion)
    ensures StartsNothing(db.events, Complete(db, id, c).db.events)
  {
    hide Complete, Advance, CompletionEvents, StartsNothing, NoStart;
    if Complete(db, id, c).db != db {
      CompletionIsNoStart(db.nextId, c.description);
      var apps := CompleteShape(db, id, c);
      var base, evts := Published(db, apps, VersionRow(db, id, c)), CompletionEvents(db.nextId, c.description);
      AdvanceStarts(base, id, CompletedRow(db, id), evts);
    } else {
      NothingStarts(db.events);
    }
  }

  lemma FailStarts(db: Db, id: int, interrupted: bool)
    ensures StartsNothing(db.events, Fail(db, id, interrupted).db.events)
  {
    if id in db.runs {
      var row := db.runs[id];
      AdvanceStarts(db, id, row.(status := Canceled, activeKey := None), [RunCanceled, Done]);
      AdvanceStarts(db, id, row.(status := Recoverable), [RunSuspended(Recoverable)]);
      var status := if interrupted then Interrupted else Failed;
      AdvanceStarts(db, id, row.(status := status, activeKey := None), [ErrorRaised, RunFailed(status), Done]);
    }
    NothingStarts(db.events);
    hide Advance, StartsNothing;
  }

  lemma StopStarts(db: Db, id: int)
    requires id in db.runs
    ensures StartsNothing(db.events, Stop(db, id).db.events)
  {
    var row := db.runs[id];
    AdvanceStarts(db, id, row.(status := Cancelling), [RunControl(Cancelling)]);
    AdvanceStarts(db, id, row.(status := Canceled, activeKey := None), [RunControl(Canceled), Done]);
    NothingStarts(db.events);
    hide Advance, StartsNothing;
  }

  lemma RequeueStarts(db: Db, id: int, cp: Checkpoint)
    requires id in db.runs
    ensures StartsNothing(db.events, Requeue(db, id, cp).db.events)
  {
    var row := db.runs[id].(status := Pending, activeKey := Some(db.runs[id].request.app));
    AdvanceStarts(RequeueBase(db, id, cp), id, row, [RunControl(Pending)]);
    NothingStarts(db.events);
    hide Advance, KeyHeldByOther, StartsNothing;
  }

  lemma ControlStarts(db: Db, id: int, user: int, action: Action)
    ensures StartsNothing(db.events, Control(db, id, user, action).db.events)
  {
    if id in db.runs {
      AdvanceStarts(db, id, db.runs[id].(status := Pausing), [RunControl(Pausing)]);
      StopStarts(db, id);
      if id in db.checkpoints {
        RequeueStarts(db, id, db.checkpoints[id]);
        if action.Approve? { RequeueStarts(db, id, db.checkpoints[id].(approvedHash := action.hash)); }
      }
    }
    NothingStarts(db.events);
    hide Advance, Stop, Requeue, RequeueBase, StartsNothing;
  }

  lemma RunStepStarts(db: Db, op: Op)
    requires op.OpAppend? || op.OpSuspend? || op.OpSave?
    ensures StartsNothing(db.events, Apply(db, op).events)
  {
    if op.id in db.runs {
      var row := db.runs[op.id];
      match op
      case OpAppend(id, kind) => AdvanceStarts(db, id, row, [Semantic(kind)]);
      case OpSuspend(id, status) =>
        if status.Paused? || status.AwaitingApproval? {
          AdvanceStarts(db, id, row.(status := status), [RunSuspended(status)]);
        }
      case OpSave(id, _, cp) =>
        AdvanceStarts(db.(checkpoints := db.checkpoints[id := cp]), id, row, [CheckpointSaved]);
    }
    NothingStarts(db.events);
    hide Advance, ValidClaim, StartsNothing;
  }

  lemma InterruptOneStarts(db: Db, id: int)
    requires id in db.runs && Stale(db.runs[id].status)
    ensures StartsNothing(db.events, InterruptRun(db, id).events)
  {
    var row := db.runs[id];
    AdvanceStarts(db, id, row.(status := Canceled, activeKey := None), [RunCanceled, Done]);
    AdvanceStarts(db, id, row.(status := Recoverable), [RunSuspended(Recoverable)]);
    AdvanceStarts(db, id, row.(status := Interrupted, activeKey := None), [ErrorRaised, RunFailed(Interrupted), Done]);
    hide Advance, StartsNothing;
  }

  lemma InterruptKeepsStarts(events: Events, db: Db, id: int)
    requires StartsNothing(events, db.events) && id in db.runs && Stale(db.runs[id].status)
    ensures StartsNothing(events, InterruptRun(db, id).events)
  {
    InterruptOneStarts(db, id);
    hide InterruptRun, StatusOf;
  }

  lemma {:induction false} InterruptStarts(db: Db, order: seq<int>)
    ensures StartsNothing(db.events, InterruptRuns(db, order).events)
    decreases |order|
  {
    hide InterruptRun, StartsNothing;
    if order == [] {
      NothingStarts(db.events);
    } else {
      var rest, id := InterruptRuns(db, order[..|order| - 1]), order[|order| - 1];
      InterruptStarts(db, order[..|order| - 1]);
      if id in rest.runs && Stale(rest.runs[id].status) { InterruptKeepsStarts(db.events, rest, id); }
    }
  }

  lemma CreateStarts(db: Db, req: StartRequest)
    ensures StartsNothing(db.events, NewRun(db, req).events)
  {
  }

  /** Every transaction but the start itself leaves the number of starts alone. */
  lemma TransactionStarts(db: Db, op: Op)
    requires !op.OpMarkRunning?
    ensures StartsNothing(db.events, Apply(db, op).events)
  {
    hide AppendEvent, Complete, Fail, Suspend, Control, SaveCheckpoint, InterruptRuns, StartsNothing;
    NothingStarts(db.events);
    match op
    case OpCreate(_) => CreateStarts(db, op.request);
    case OpAppend(_, _) => RunStepStarts(db, op);
    case OpComplete(id, c) => CompleteStarts(db, id, c);
    case OpFail(id, interrupted) => FailStarts(db, id, interrupted);
    case OpSuspend(_, _) => RunStepStarts(db, op);
    case OpControl(id, user, action) => ControlStarts(db, id, user, action);
    case OpSave(_, _, _) => RunStepStarts(db, op);
    case OpRestart(order) => InterruptStarts(db, order);
    case _ => hide ValidClaim, RunHasVersion, HasActive, HasRequest;
  }

  // ---- counting -------------------------------------------------------------------------------------

  /** How often the run was started, by its log. */
  ghost function StartsOf(db: Db, r: int): nat
    requires LogsNumbered(db.runs, db.events)
  {
    if r in db.runs then Count(Log(db.runs, db.events, r), Running) else 0
  }

  lemma {:induction false} CountOfNone(log: seq<EventType>, front: nat)
    requires front <= |log| && forall i :: front <= i < |log| ==> StatusOf(log[i]) != Some(Running)
    ensures Count(log, Running) == Count(log[..front], Running)
    decreases |log|
  {
    if front == |log| {
      assert log[..front] == log;
    } else {
      var n := |log| - 1;
      CountOfNone(log[..n], front);
      assert log[..n][..front] == log[..front];
    }
  }

  lemma StartsStay(db: Db, after: Db, r: int)
    requires LogsNumbered(db.runs, db.events) && LogsNumbered(after.runs, after.events)
    requires Extends(db, after) && StartsNothing(db.events, after.events)
    ensures StartsOf(after, r) == StartsOf(db, r)
  {
    if r in after.runs {
      var log := Log(after.runs, after.events, r);
      var n := if r in db.runs then db.runs[r].lastSequence else 0;
      forall i | n <= i < |log| ensures StatusOf(log[i]) != Some(Running) {
        assert (r, i + 1) in after.events && (r, i + 1) !in db.events;
      }
      CountOfNone(log, n);
      if r in db.runs {
        assert forall i :: 1 <= i <= n ==> (r, i) in db.events;
        assert log[..n] == Log(db.runs, db.events, r);
      } else {
        assert log[..n] == [];
      }
    }
  }

  /** The step commits a start of the run. */
  predicate Commits(s: System, step: Step, r: int) {
    step.Start? && step.slot in s.flights && s.flights[step.slot].run == r && Waits(s.db.runs, r)
  }

  lemma StartedLog(db: Db, run: int, r: int)
    requires Inv(db) && Waits(db.runs, run) && r in db.runs
    ensures var after := MarkRunning(db, run).db;
      && LogsNumbered(db.runs, db.events) && LogsNumbered(after.runs, after.events) && r in after.runs
      && Log(after.runs, after.events, r) == Log(db.runs, db.events, r) + if r == run then [RunStarted] else []
  {
    var row := db.runs[run].(status := Running);
    AdvanceFields(db, run, row, [RunStarted]);
    hide LogsFit;
    AddEventsLogs(db.runs, db.events, run, row, [RunStarted], r);
    hide Log, LogsNumbered, AddEvents, Advance;
  }

  lemma StartedRuns(db: Db, run: int)
    requires Waits(db.runs, run)
    ensures MarkRunning(db, run).db.runs.Keys == db.runs.Keys
  {
    hide AddEvents, AddMessages;
  }

  lemma CountStarted(log: seq<EventType>)
    ensures Count(log + [RunStarted], Running) == Count(log, Running) + 1
    ensures Count(log + [], Running) == Count(log, Running)
  {
    assert (log + [RunStarted])[..|log|] == log && log + [] == log;
  }

  lemma StartOfOther(db: Db, run: int, r: int)
    requires Inv(db) && Waits(db.runs, run)
    requires LogsNumbered(db.runs, db.events)
    requires LogsNumbered(MarkRunning(db, run).db.runs, MarkRunning(db, run).db.events)
    ensures StartsOf(MarkRunning(db, run).db, r) == StartsOf(db, r) + if r == run then 1 else 0
  {
    hide Inv, MarkRunning, LogsNumbered, Log, Count;
    StartedRuns(db, run);
    if r in db.runs {
      StartedLog(db, run, r);
      CountStarted(Log(db.runs, db.events, r));
    }
  }

  lemma DatabaseCounts(db: Db, op: Op, r: int)
    requires Inv(db) && !op.OpMarkRunning?
    ensures LogsNumbered(db.runs, db.events) && LogsNumbered(Apply(db, op).runs, Apply(db, op).events)
    ensures StartsOf(Apply(db, op), r) == StartsOf(db, r)
  {
    StepSound(db, op);
    TransactionStarts(db, op);
    hide Apply, Moves, Extends, StartsNothing, UniqueKeys, VersionsOwned, IdsIssued, LogsFit;
    StartsStay(db, Apply(db, op), r);
  }

  /** What a step does to the database, as a transaction; None when it leaves it alone. */
  function StepOp(s: System, step: Step): Option<Op> {
    match step
    case Transaction(op) => Some(op)
    case Take(_, key) => Some(OpClaimOutbox(key))
    case Start(slot, _) => if slot in s.flights then Some(OpMarkRunning(s.flights[slot].run)) else None
    case Acknowledge(slot) => if slot in s.flights then Some(OpDelivered(s.flights[slot].key)) else None
    case Retry(slot, attempts) => if slot in s.flights then Some(OpRetry(s.flights[slot].key, attempts)) else None
    case _ => None
  }

  lemma StepIsOp(s: System, step: Step)
    requires Allowed(s, step)
    ensures Next(s, step).db == if StepOp(s, step).None? then s.db else Apply(s.db, StepOp(s, step).value)
    ensures StepOp(s, step).Some? && StepOp(s, step).value.OpMarkRunning? ==> step.Start?
  {
    hide MarkRunning, MarkOutboxDelivered, RetryOutbox;
  }

  lemma StepExecutes(s: System, step: Step, r: int)
    requires Allowed(s, step)
    ensures Executions(Next(s, step), r) == Executions(s, r) + if Commits(s, step, r) && step.reply then 1 else 0
  {
    hide Apply, ClaimOutboxRow, RetryOutbox, MarkOutboxDelivered, Advance;
  }

  lemma LogsAreNumbered(s: System)
    requires SystemInv(s)
    ensures Inv(s.db) && LogsNumbered(s.db.runs, s.db.events)
  {
    hide Delivery, ExecutionsStarted, LogsNumbered, LogsFit, VersionsOwned, IdsIssued, UniqueKeys;
  }

  lemma StepStarts(s: System, step: Step, r: int)
    requires SystemInv(s) && Allowed(s, step)
    ensures SystemInv(Next(s, step)) && LogsNumbered(s.db.runs, s.db.events)
    ensures LogsNumbered(Next(s, step).db.runs, Next(s, step).db.events)
    ensures StartsOf(Next(s, step).db, r) == StartsOf(s.db, r) + if Commits(s, step, r) then 1 else 0
  {
    NextKeeps(s, step);
    hide SystemInv, Inv, LogsNumbered;
    LogsAreNumbered(s);
    LogsAreNumbered(Next(s, step));
    StepIsOp(s, step);
    hide Next, Apply, StartsOf;
    var op := StepOp(s, step);
    if op.Some? {
      if op.value.OpMarkRunning? {
        StartedHere(s.db, op.value.id, r);
      } else {
        DatabaseCounts(s.db, op.value, r);
      }
    }
  }

  lemma StartedHere(db: Db, run: int, r: int)
    requires Inv(db) && LogsNumbered(db.runs, db.events)
    requires LogsNumbered(Apply(db, OpMarkRunning(run)).runs, Apply(db, OpMarkRunning(run)).events)
    ensures StartsOf(Apply(db, OpMarkRunning(run)), r)
         == StartsOf(db, r) + if r == run && Waits(db.runs, run) then 1 else 0
  {
    if Waits(db.runs, run) { StartOfOther(db, run, r); }
    hide Advance, StartsOf, Inv, LogsNumbered;
  }

  /** The starts of the run that committed in this history without their answer arriving. */
  function Unanswered(steps: seq<Step>, r: int): nat {
    if steps == [] then 0
    else
      var front, last := steps[..|steps| - 1], steps[|steps| - 1];
      Unanswered(front, r) + if Commits(Reached(front), last, r) && !last.reply then 1 else 0
  }

  lemma {:induction false} StartsAreExecuted(steps: seq<Step>, r: int)
    requires Legal(steps)
    ensures SystemInv(Reached(steps)) && LogsNumbered(Reached(steps).db.runs, Reached(steps).db.events)
    ensures Executions(Reached(steps), r) + Unanswered(steps, r) == StartsOf(Reached(steps).db, r)
    decreases |steps|
  {
    hide SystemInv, Next, Allowed, StartsOf, Executions, LogsNumbered, Commits;
    if steps == [] {
      NothingStarted(r);
    } else {
      var n := |steps| - 1;
      var front := steps[..n];
      assert forall i :: 0 <= i < n ==> front[..i] == steps[..i];
      StartsAreExecuted(front, r);
      assert Allowed(Reached(steps[..n]), steps[n]);
      StepStarts(Reached(front), steps[n], r);
      StepExecutes(Reached(front), steps[n], r);
    }
  }

  lemma NothingStarted(r: int)
    ensures SystemInv(Boot) && LogsNumbered(Boot.db.runs, Boot.db.events)
    ensures Executions(Boot, r) == 0 == StartsOf(Boot.db, r)
  {
    EmptyIsSound();
  }

  lemma {:induction false} NoneUnanswered(steps: seq<Step>, r: int)
    ensures Unanswered(steps, r) == 0 <==>
              forall i :: 0 <= i < |steps| && Commits(Reached(steps[..i]), steps[i], r) ==> steps[i].reply
    decreases |steps|
  {
    hide Commits, Reached;
    if steps != [] {
      var n := |steps| - 1;
      NoneUnanswered(steps[..n], r);
      assert forall i :: 0 <= i < n ==> steps[..n][..i] == steps[..i];
    }
  }

  /** A started run has an executor, exactly: the executors launched for a run are as many as the starts
      its log records if and only if the answer to every committed start of the run arrived. */
  lemma StartedRunHasExecutor(steps: seq<Step>, r: int)
    requires Legal(steps)
    ensures LogsNumbered(Reached(steps).db.runs, Reached(steps).db.events)
    ensures Executions(Reached(steps), r) <= StartsOf(Reached(steps).db, r)
    ensures Executions(Reached(steps), r) == StartsOf(Reached(steps).db, r) <==>
              forall i :: 0 <= i < |steps| && Commits(Reached(steps[..i]), steps[i], r) ==> steps[i].reply
  {
    StartsAreExecuted(steps, r);
    NoneUnanswered(steps, r);
    hide *;
  }

  lemma Longer(steps: seq<Step>, step: Step)
    requires Legal(steps) && Allowed(Reached(steps), step)
    ensures Legal(steps + [step]) && Reached(steps + [step]) == Next(Reached(steps), step)
  {
    var more := steps + [step];
    assert more[..|steps|] == steps && forall i :: 0 <= i < |steps| ==> more[..i] == steps[..i];
    hide Allowed, Next;
  }

  lemma FirstRequest(req: StartRequest) returns (steps: seq<Step>)
    ensures Legal(steps) && forall i :: 0 <= i < |steps| ==> !steps[i].Start?
    ensures var s, id := Reached(steps), EmptyDb.nextId;
      Waits(s.db.runs, id) && s.flights == map[] && s.executions == map[] && Due(s.db, TaskReady(id))
      && s.db.outbox[TaskReady(id)].run == id
  {
    steps := [];
    Longer(steps, Transaction(OpCreate(req)));
    assert Reached([]) == Boot;
    steps := steps + [Transaction(OpCreate(req))];
    assert !HasRequest(EmptyDb, req.requestId) && !HasActive(EmptyDb, req.app);
    assert Reached(steps).db == NewRun(EmptyDb, req);
  }

  lemma TakenAndFound(s: System, slot: int, key: OutboxKey, r: int)
    requires Waits(s.db.runs, r) && slot !in s.flights && Due(s.db, key) && s.db.outbox[key].run == r && !key.RunEvent?
    ensures Allowed(s, Take(slot, key)) && Allowed(Next(s, Take(slot, key)), Inspect(slot))
    ensures var found := Next(Next(s, Take(slot, key)), Inspect(slot));
      && Waits(found.db.runs, r) && found.executions == s.executions
      && slot in found.flights && found.flights[slot] == Flight(key, r, Starting)
  {
  }

  lemma NoStartsYet(steps: seq<Step>, r: int)
    requires Legal(steps) && forall i :: 0 <= i < |steps| ==> !steps[i].Start?
    ensures LogsNumbered(Reached(steps).db.runs, Reached(steps).db.events)
    ensures StartsOf(Reached(steps).db, r) == Executions(Reached(steps), r)
  {
    StartedRunHasExecutor(steps, r);
    hide Reached, StartsOf, Executions, LogsNumbered, Legal;
  }

  lemma FoundPending(req: StartRequest) returns (steps: seq<Step>)
    ensures Legal(steps) && forall i :: 0 <= i < |steps| ==> !steps[i].Start?
    ensures var s, id := Reached(steps), EmptyDb.nextId;
      Waits(s.db.runs, id) && Executions(s, id) == 0 && 0 in s.flights
          && s.flights[0] == Flight(TaskReady(id), id, Starting)
  {
    var id := EmptyDb.nextId;
    steps := FirstRequest(req);
    TakenAndFound(Reached(steps), 0, TaskReady(id), id);
    hide Next, Allowed, Reached, Legal, Due, Waits;
    Longer(steps, Take(0, TaskReady(id)));
    steps := steps + [Take(0, TaskReady(id))];
    Longer(steps, Inspect(0));
    steps := steps + [Inspect(0)];
  }

  lemma SystemIsSound(steps: seq<Step>)
    requires Legal(steps)
    ensures SystemInv(Reached(steps))
  {
    RunKeeps(steps);
  }

  /** From the empty system in four steps: a run is created, its start message is claimed, the run is found
      pending, and marking it as running commits but the answer is lost. */
  lemma StrandedRunIsReachable(req: StartRequest) returns (steps: seq<Step>)
    ensures Legal(steps) && LogsNumbered(Reached(steps).db.runs, Reached(steps).db.events)
    ensures var s, id := Reached(steps), EmptyDb.nextId;
      && id in s.db.runs && s.db.runs[id].status.Running?
      && Executions(s, id) == 0 && StartsOf(s.db, id) == 1
  {
    var id := EmptyDb.nextId;
    steps := FoundPending(req);
    var found, start := Reached(steps), Start(0, false);
    assert Allowed(found, start) && Commits(found, start, id);
    hide Next, Allowed, Reached, Legal, StartsOf, Executions, Commits;
    NoStartsYet(steps, id);
    StartedRow(found, 0);
    SystemIsSound(steps);
    hide SystemInv, LogsNumbered;
    StepStarts(found, start, id);
    Longer(steps, start);
    steps := steps + [start];
  }
}
