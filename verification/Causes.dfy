/** Why a run is in the status it is in: every change of status has one cause, and every cause its effect. */
module Causes {
  import opened TaskTypes
  import opened TaskTransactions
  import opened TaskInvariants
  import opened TaskHistory

  /** Not yet started, or at work. */
  predicate Unfinished(s: Status) {
    s.Pending? || s.Running? || s.Pausing?
  }

  predicate AtWork(s: Status) {
    s.Running? || s.Pausing?
  }

  /** A command of the run's own user. */
  predicate Commanded(row: Run, op: Op, r: int) {
    op.OpControl? && op.id == r && op.user == row.request.user
  }

  /** The checkpoint holds something to resume from. */
  predicate Resumable(db: Db, r: int) {
    r in db.checkpoints && db.checkpoints[r].state != [] && db.checkpoints[r].snapshotPath != ""
  }

  /** What may be published: a path, under the current unexpired claim of the run's app, on the current base. */
  predicate Publishable(db: Db, app: int, p: Publication) {
    && p.claim.app == app && p.path != "" && p.claim.owner != "" && ValidClaim(db, p.claim)
    && db.apps[app].currentVersion == p.claim.baseVersion
  }

  /** The process went down under the run: its failure says so, or the next process finds the run stale. */
  predicate Interrupts(op: Op, r: int) {
    op == OpFail(r, true) || (op.OpRestart? && r in op.order)
  }

  /** What turns a run into the status. */
  predicate Cause(db: Db, op: Op, r: int, t: Status)
    requires r in db.runs
  {
    var row, s := db.runs[r], db.runs[r].status;
    match t
    case Running => op == OpMarkRunning(r) && s.Pending?
    case Pausing => Commanded(row, op, r) && op.action.Pause? && s.Running?
    case Cancelling => Commanded(row, op, r) && (op.action.Cancel? || op.action.Reject?) && AtWork(s)
    case Paused => op == OpSuspend(r, Paused) && AtWork(s)
    case AwaitingApproval => op == OpSuspend(r, AwaitingApproval) && AtWork(s)
    case Pending =>
      && Commanded(row, op, r) && Resumable(db, r)
      && ((s.AwaitingApproval? && op.action == Approve(db.checkpoints[r].planHash) && !op.action.hash.NoHash?)
          || ((s.Paused? || s.Recoverable?) && op.action.Resume?))
    case Completed =>
      && op.OpComplete? && op.id == r && s.Running? && op.completion.valid
      && (op.completion.publication.Some? ==>
            op.completion.stillValid && Publishable(db, row.request.app, op.completion.publication.value))
    case Failed => op == OpFail(r, false) && Unfinished(s)
    case Interrupted => Interrupts(op, r) && Unfinished(s) && r !in db.checkpoints
    case Recoverable => Interrupts(op, r) && Unfinished(s) && r in db.checkpoints
    case Canceled =>
      || (s.Cancelling? && ((op.OpFail? && op.id == r) || (op.OpRestart? && r in op.order)))
      || (Commanded(row, op, r) && (op.action.Cancel? || op.action.Reject?) && (s.Pending? || Stopped(s)))
  }

  function StatusIn(db: Db, r: int): Option<Status> {
    if r in db.runs then Some(db.runs[r].status) else None
  }

  // ---- each transaction -------------------------------------------------------------------------------

  lemma AdvanceStatus(db: Db, id: int, row: Run, evts: seq<EventType>, r: int)
    requires id in db.runs && row.lastSequence == db.runs[id].lastSequence
    ensures StatusIn(Advance(db, id, row, evts), r) == if r == id then Some(row.status) else StatusIn(db, r)
  {
    AdvanceFields(db, id, row, evts);
    hide Advance, AddEvents, AddMessages;
  }

  /** The run turns into t exactly if that was caused. */
  predicate Caused(db: Db, after: Db, op: Op, r: int, t: Status)
    requires r in db.runs
  {
    r in after.runs && (t != db.runs[r].status ==> (after.runs[r].status == t <==> Cause(db, op, r, t)))
  }

  lemma NothingCaused(db: Db, after: Db, op: Op, r: int, t: Status)
    requires r in db.runs && StatusIn(after, r) == StatusIn(db, r)
    requires !op.OpMarkRunning? && !op.OpSuspend? && !op.OpFail? && !op.OpRestart? && !op.OpControl? && !op.OpComplete?
    ensures Caused(db, after, op, r, t)
  {
  }

  lemma StartCaused(db: Db, id: int, r: int, t: Status)
    requires r in db.runs
    ensures Caused(db, MarkRunning(db, id).db, OpMarkRunning(id), r, t)
  {
    if id in db.runs { AdvanceStatus(db, id, db.runs[id].(status := Running), [RunStarted], r); }
    hide Advance;
  }

  lemma SuspendCaused(db: Db, id: int, status: Status, r: int, t: Status)
    requires r in db.runs
    ensures Caused(db, Suspend(db, id, status).db, OpSuspend(id, status), r, t)
  {
    if id in db.runs { AdvanceStatus(db, id, db.runs[id].(status := status), [RunSuspended(status)], r); }
    hide Advance;
  }

  /** A transaction that makes the status `now` caused just that. */
  lemma CausedBy(db: Db, after: Db, op: Op, r: int, now: Status, t: Status)
    requires r in db.runs && StatusIn(after, r) == Some(now)
    requires t != db.runs[r].status ==> (t == now <==> Cause(db, op, r, t))
    ensures Caused(db, after, op, r, t)
  {
    hide Cause;
  }

  function FailsTo(db: Db, interrupted: bool, r: int): Status
    requires r in db.runs
  {
    var s := db.runs[r].status;
    if Terminal(s) || Stopped(s) then s
    else if s.Cancelling? then Canceled
    else if !interrupted then Failed
    else if r in db.checkpoints then Recoverable else Interrupted
  }

  lemma FailStatus(db: Db, id: int, interrupted: bool, r: int)
    requires r in db.runs
    ensures StatusIn(Fail(db, id, interrupted).db, r)
         == Some(if r == id then FailsTo(db, interrupted, r) else db.runs[r].status)
  {
    if id in db.runs {
      var row := db.runs[id];
      AdvanceStatus(db, id, row.(status := Canceled, activeKey := None), [RunCanceled, Done], r);
      AdvanceStatus(db, id, row.(status := Recoverable), [RunSuspended(Recoverable)], r);
      var failed := if interrupted then Interrupted else Failed;
      AdvanceStatus(db, id, row.(status := failed, activeKey := None), [ErrorRaised, RunFailed(failed), Done], r);
    }
    hide Advance;
  }

  lemma FailCauses(db: Db, id: int, interrupted: bool, r: int, t: Status)
    requires r in db.runs && t != db.runs[r].status
    ensures t == (if r == id then FailsTo(db, interrupted, r) else db.runs[r].status) <==>
            Cause(db, OpFail(id, interrupted), r, t)
  {
  }

  lemma FailCaused(db: Db, id: int, interrupted: bool, r: int, t: Status)
    requires r in db.runs
    ensures Caused(db, Fail(db, id, interrupted).db, OpFail(id, interrupted), r, t)
  {
    hide *;
    FailStatus(db, id, interrupted, r);
    if t != db.runs[r].status { FailCauses(db, id, interrupted, r, t); }
    CausedBy(db, Fail(db, id, interrupted).db, OpFail(id, interrupted), r,
        if r == id then FailsTo(db, interrupted, r) else db.runs[r].status, t);
  }

  lemma AppendStatus(db: Db, id: int, kind: string, r: int)
    ensures StatusIn(AppendEvent(db, id, kind).db, r) == StatusIn(db, r)
  {
    if id in db.runs { AdvanceStatus(db, id, db.runs[id], [Semantic(kind)], r); }
    hide Advance;
  }

  lemma SaveStatus(db: Db, id: int, c: Claim, cp: Checkpoint, r: int)
    ensures StatusIn(SaveCheckpoint(db, id, c, cp).db, r) == StatusIn(db, r)
  {
    if id in db.runs {
      AdvanceStatus(db.(checkpoints := db.checkpoints[id := cp]), id, db.runs[id], [CheckpointSaved], r);
    }
    hide Advance, ValidClaim;
  }

  /** The run has a live key of its own, so no other run of its app stands in the way. */
  lemma NobodyElse(db: Db, r: int)
    requires Inv(db) && r in db.runs && !Terminal(db.runs[r].status)
    ensures !KeyHeldByOther(db, r, db.runs[r].request.app)
  {
    assert LogFits(Log(db.runs, db.events, r), db.runs[r]);
    hide LogsNumbered, LogsFit, Log, VersionsOwned, IdsIssued;
  }

  lemma RequeueStatus(db: Db, id: int, cp: Checkpoint, r: int)
    requires Inv(db) && id in db.runs && !Terminal(db.runs[id].status)
    ensures StatusIn(Requeue(db, id, cp).db, r)
         == if r == id && cp.state != [] && cp.snapshotPath != "" then Some(Pending) else StatusIn(db, r)
  {
    NobodyElse(db, id);
    AdvanceStatus(RequeueBase(db, id, cp), id,
        db.runs[id].(status := Pending, activeKey := Some(db.runs[id].request.app)), [RunControl(Pending)], r);
    hide Advance, Inv, KeyHeldByOther;
  }

  lemma StopStatus(db: Db, id: int, r: int)
    requires id in db.runs
    ensures StatusIn(Stop(db, id).db, r) == if r == id then Some(StopsTo(db.runs[id].status)) else StatusIn(db, r)
  {
    var row := db.runs[id];
    AdvanceStatus(db, id, row.(status := Cancelling), [RunControl(Cancelling)], r);
    AdvanceStatus(db, id, row.(status := Canceled, activeKey := None), [RunControl(Canceled), Done], r);
    hide Advance;
  }

  function StopsTo(s: Status): Status {
    if Terminal(s) || s.Cancelling? then s else if AtWork(s) then Cancelling else Canceled
  }

  /** The status a command of its own user gives a run. */
  function CommandsTo(db: Db, r: int, action: Action): Status
    requires r in db.runs
  {
    var s := db.runs[r].status;
    match action
    case Pause => if s.Running? then Pausing else s
    case Cancel => StopsTo(s)
    case Reject => StopsTo(s)
    case Approve(hash) =>
      if s.AwaitingApproval? && Resumable(db, r) && !hash.NoHash? && hash == db.checkpoints[r].planHash
      then Pending else s
    case Resume => if (s.Paused? || s.Recoverable?) && Resumable(db, r) then Pending else s
    case Unknown => s
  }

  lemma ApprovingStatus(db: Db, id: int, hash: Hash, r: int)
    requires Inv(db) && id in db.runs && r in db.runs
    ensures StatusIn(Control(db, id, db.runs[id].request.user, Approve(hash)).db, r)
         == Some(if r == id then CommandsTo(db, r, Approve(hash)) else db.runs[r].status)
  {
    hide Inv, Requeue;
    if id in db.checkpoints && db.runs[id].status.AwaitingApproval? {
      RequeueStatus(db, id, db.checkpoints[id].(approvedHash := hash), r);
    }
  }

  lemma ResumingStatus(db: Db, id: int, r: int)
    requires Inv(db) && id in db.runs && r in db.runs
    ensures StatusIn(Control(db, id, db.runs[id].request.user, Resume).db, r)
         == Some(if r == id then CommandsTo(db, r, Resume) else db.runs[r].status)
  {
    hide Inv, Requeue;
    var s := db.runs[id].status;
    if id in db.checkpoints && (s.Paused? || s.Recoverable?) { RequeueStatus(db, id, db.checkpoints[id], r); }
  }

  lemma StoppingStatus(db: Db, id: int, action: Action, r: int)
    requires id in db.runs && r in db.runs && (action.Cancel? || action.Reject?)
    ensures StatusIn(Control(db, id, db.runs[id].request.user, action).db, r)
         == Some(if r == id then CommandsTo(db, r, action) else db.runs[r].status)
  {
    hide Stop, StopsTo;
    StopStatus(db, id, r);
  }

  lemma PausingStatus(db: Db, id: int, action: Action, r: int)
    requires id in db.runs && r in db.runs && (action.Pause? || action.Unknown?)
    ensures StatusIn(Control(db, id, db.runs[id].request.user, action).db, r)
         == Some(if r == id then CommandsTo(db, r, action) else db.runs[r].status)
  {
    hide Advance;
    AdvanceStatus(db, id, db.runs[id].(status := Pausing), [RunControl(Pausing)], r);
  }

  lemma CommandStatus(db: Db, id: int, action: Action, r: int)
    requires Inv(db) && id in db.runs && r in db.runs
    ensures StatusIn(Control(db, id, db.runs[id].request.user, action).db, r)
         == Some(if r == id then CommandsTo(db, r, action) else db.runs[r].status)
  {
    hide *;
    match action
    case Pause => PausingStatus(db, id, action, r);
    case Cancel => StoppingStatus(db, id, action, r);
    case Reject => StoppingStatus(db, id, action, r);
    case Approve(hash) => ApprovingStatus(db, id, hash, r);
    case Resume => ResumingStatus(db, id, r);
    case Unknown => PausingStatus(db, id, action, r);
  }

  lemma CommandCauses(db: Db, id: int, action: Action, r: int, t: Status)
    requires r in db.runs && id in db.runs && t != db.runs[r].status
    ensures t == (if r == id then CommandsTo(db, r, action) else db.runs[r].status) <==>
            Cause(db, OpControl(id, db.runs[id].request.user, action), r, t)
  {
  }

  lemma RefusedCaused(db: Db, id: int, user: int, action: Action, r: int, t: Status)
    requires r in db.runs && (id !in db.runs || db.runs[id].request.user != user)
    ensures Caused(db, Control(db, id, user, action).db, OpControl(id, user, action), r, t)
  {
    hide Stop, Requeue, Advance;
  }

  lemma ControlCaused(db: Db, id: int, user: int, action: Action, r: int, t: Status)
    requires Inv(db) && r in db.runs
    ensures Caused(db, Control(db, id, user, action).db, OpControl(id, user, action), r, t)
  {
    hide *;
    if id !in db.runs || db.runs[id].request.user != user {
      RefusedCaused(db, id, user, action, r, t);
    } else {
      CommandStatus(db, id, action, r);
      if t != db.runs[r].status { CommandCauses(db, id, action, r, t); }
      CausedBy(db, Control(db, id, user, action).db, OpControl(id, user, action), r,
          if r == id then CommandsTo(db, r, action) else db.runs[r].status, t);
    }
  }

  /** A running run has no version yet, and the next identifier is free. */
  lemma VersionIsFree(db: Db, id: int)
    requires Inv(db) && id in db.runs && db.runs[id].status.Running?
    ensures db.nextId !in db.versions && !RunHasVersion(db, id) && db.nextId > 0
  {
    assert LogFits(Log(db.runs, db.events, id), db.runs[id]);
    hide LogsNumbered, LogsFit, Log, UniqueKeys;
  }

  predicate MayComplete(db: Db, id: int, c: Completion)
    requires id in db.runs
  {
    && db.runs[id].status.Running? && c.valid
    && (c.publication.Some? ==> c.stillValid && Publishable(db, db.runs[id].request.app, c.publication.value))
  }

  lemma MayPublish(db: Db, p: Publication, version: int, valid: bool)
    requires version > 0
    ensures PublishTx(db, p, version, valid).outcome.Ok? <==> valid && Publishable(db, p.claim.app, p)
  {
  }

  lemma CompletesIfAllowed(db: Db, id: int, c: Completion)
    requires Inv(db) && id in db.runs
    ensures Complete(db, id, c).outcome.Ok? <==> MayComplete(db, id, c)
    ensures !Complete(db, id, c).outcome.Ok? ==> Complete(db, id, c).db == db
  {
    if db.runs[id].status.Running? { VersionIsFree(db, id); }
    if c.publication.Some? && db.nextId > 0 { MayPublish(db, c.publication.value, db.nextId, c.stillValid); }
    RefusedPublication(db, id, c);
    hide Inv, RunHasVersion, CompletionEvents, VersionRow, PublishTx, Publishable, Advance;
  }

  lemma RefusedPublication(db: Db, id: int, c: Completion)
    ensures c.publication.Some? && !PublishTx(db, c.publication.value, db.nextId, c.stillValid).outcome.Ok? ==>
              PublishTx(db, c.publication.value, db.nextId, c.stillValid).db == db
    ensures c.publication.Some? ==> PublishTx(db, c.publication.value, db.nextId, c.stillValid).db.runs == db.runs
  {
  }

  lemma CompletedShape(db: Db, id: int, c: Completion, r: int)
    requires id in db.runs
    ensures StatusIn(Complete(db, id, c).db, r)
         == if r == id && Complete(db, id, c).outcome.Ok? then Some(Completed) else StatusIn(db, r)
  {
    RefusedPublication(db, id, c);
    var moved := if c.publication.None? then Result(db, Ok)
        else PublishTx(db, c.publication.value, db.nextId, c.stillValid);
    var base := moved.db.(versions := db.versions[db.nextId := VersionRow(db, id, c)], nextId := db.nextId + 1);
    assert moved.db.runs == db.runs;
    hide RunHasVersion, CompletionEvents, VersionRow, Advance, PublishTx;
    AdvanceStatus(base, id, CompletedRow(db, id), CompletionEvents(db.nextId, c.description), r);
  }

  lemma CompleteCauses(db: Db, id: int, c: Completion, r: int, t: Status)
    requires r in db.runs && t != db.runs[r].status
    ensures t == (if r == id && MayComplete(db, id, c) then Completed else db.runs[r].status) <==>
            Cause(db, OpComplete(id, c), r, t)
  {
    hide Publishable;
  }

  lemma CompleteCaused(db: Db, id: int, c: Completion, r: int, t: Status)
    requires Inv(db) && r in db.runs
    ensures Caused(db, Complete(db, id, c).db, OpComplete(id, c), r, t)
  {
    assert id !in db.runs ==> Complete(db, id, c).db == db by { hide PublishTx, Advance; }
    assert StatusIn(db, r) == Some(db.runs[r].status);
    hide *;
    if id in db.runs {
      CompletesIfAllowed(db, id, c);
      CompletedShape(db, id, c, r);
    }
    if t != db.runs[r].status { CompleteCauses(db, id, c, r, t); }
    CausedBy(db, Complete(db, id, c).db, OpComplete(id, c), r,
        if r == id && MayComplete(db, id, c) then Completed else db.runs[r].status, t);
  }

  // ---- restarts ---------------------------------------------------------------------------------------

  /** What a restart makes of a run it finds. */
  function Restarted(db: Db, r: int): Status
    requires r in db.runs
  {
    var s := db.runs[r].status;
    if s.Cancelling? then Canceled
    else if !Unfinished(s) then s
    else if r in db.checkpoints then Recoverable else Interrupted
  }

  lemma InterruptStatus(db: Db, id: int, r: int)
    requires id in db.runs && Stale(db.runs[id].status)
    ensures InterruptRun(db, id).checkpoints == db.checkpoints
    ensures StatusIn(InterruptRun(db, id), r) == if r == id then Some(Restarted(db, id)) else StatusIn(db, r)
  {
    var row := db.runs[id];
    AdvanceFields(db, id, row.(status := Canceled, activeKey := None), [RunCanceled, Done]);
    AdvanceFields(db, id, row.(status := Recoverable), [RunSuspended(Recoverable)]);
    AdvanceFields(db, id, row.(status := Interrupted, activeKey := None), [ErrorRaised, RunFailed(Interrupted), Done]);
    hide Advance, AddEvents, AddMessages;
  }

  lemma {:induction false} RestartStatus(db: Db, order: seq<int>, r: int)
    requires r in db.runs
    ensures InterruptRuns(db, order).checkpoints == db.checkpoints
    ensures StatusIn(InterruptRuns(db, order), r)
         == Some(if r in order then Restarted(db, r) else db.runs[r].status)
    decreases |order|
  {
    if order != [] {
      var front, id := order[..|order| - 1], order[|order| - 1];
      assert order == front + [id];
      RestartStatus(db, front, r);
      var mid := InterruptRuns(db, front);
      hide InterruptRun;
      if id in mid.runs && Stale(mid.runs[id].status) { InterruptStatus(mid, id, r); }
    }
  }

  lemma RestartCaused(db: Db, order: seq<int>, r: int, t: Status)
    requires r in db.runs
    ensures Caused(db, InterruptStale(db, order), OpRestart(order), r, t)
  {
    RestartStatus(db, order, r);
    hide InterruptRuns;
  }

  // ---- all transactions -------------------------------------------------------------------------------

  lemma NewRunElsewhere(db: Db, op: Op, r: int)
    requires Inv(db) && r in db.runs && op.OpCreate?
    ensures StatusIn(Apply(db, op), r) == StatusIn(db, r)
  {
    assert db.nextId !in db.runs;
    hide Inv, HasRequest, HasActive;
  }

  lemma PublicationStatus(db: Db, p: Publication)
    ensures Publish(db, p).db.runs == db.runs && PublishRestoration(db, p).db.runs == db.runs
  {
    hide ValidClaim, RunHasVersion, HasActive;
  }

  lemma OutboxStatus(db: Db, op: Op)
    requires op.OpReclaimOutbox? || op.OpClaimOutbox? || op.OpDelivered? || op.OpRetry? || op.OpTick?
    ensures Apply(db, op).runs == db.runs
  {
    hide RetryDelay, Due;
  }

  lemma SideStatus(db: Db, op: Op)
    requires op.OpBudget? || op.OpReclaimOutbox? || op.OpClaimOutbox? || op.OpDelivered? || op.OpRetry? || op.OpClaim?
      || op.OpRenew? || op.OpRelease? || op.OpPublish? || op.OpRestore? || op.OpRegister? || op.OpTick?
    ensures Apply(db, op).runs == db.runs
  {
    if op.OpReclaimOutbox? || op.OpClaimOutbox? || op.OpDelivered? || op.OpRetry? || op.OpTick? {
      OutboxStatus(db, op);
      hide Apply;
    } else {
      if op.OpPublish? || op.OpRestore? { PublicationStatus(db, op.publication); }
      hide ValidClaim, Publish, PublishRestoration;
    }
  }

  /** Which transaction an operation is. */
  lemma Applied(db: Db, op: Op)
    ensures op.OpMarkRunning? ==> Apply(db, op) == MarkRunning(db, op.id).db
    ensures op.OpSuspend? ==> Apply(db, op) == Suspend(db, op.id, op.status).db
    ensures op.OpFail? ==> Apply(db, op) == Fail(db, op.id, op.interrupted).db
    ensures op.OpAppend? ==> Apply(db, op) == AppendEvent(db, op.id, op.kind).db
    ensures op.OpSave? ==> Apply(db, op) == SaveCheckpoint(db, op.id, op.claim, op.checkpoint).db
    ensures op.OpControl? ==> Apply(db, op) == Control(db, op.id, op.user, op.action).db
    ensures op.OpComplete? ==> Apply(db, op) == Complete(db, op.id, op.completion).db
    ensures op.OpRestart? ==> Apply(db, op) == InterruptStale(db, op.order)
  {
    hide MarkRunning, Suspend, Fail, AppendEvent, SaveCheckpoint, Control, Complete, InterruptStale;
  }

  /** In every reachable database, a transaction turns a run into a status it had not exactly if it is a cause
      of that status: commands are those of the run's user, approvals name the stored plan's hash, a failure
      makes it failed, an interruption recoverable or interrupted as there is a checkpoint or not, and it
      completes if its result is valid and what it publishes may be published. */
  lemma StatusIsCaused(db: Db, op: Op, r: int, t: Status)
    requires Inv(db) && r in db.runs
    ensures Caused(db, Apply(db, op), op, r, t)
  {
    hide *;
    Applied(db, op);
    match op
    case OpMarkRunning(id) => StartCaused(db, id, r, t);
    case OpSuspend(id, status) => SuspendCaused(db, id, status, r, t);
    case OpFail(id, interrupted) => FailCaused(db, id, interrupted, r, t);
    case OpAppend(id, kind) => AppendStatus(db, id, kind, r); NothingCaused(db, Apply(db, op), op, r, t);
    case OpSave(id, c, cp) => SaveStatus(db, id, c, cp, r); NothingCaused(db, Apply(db, op), op, r, t);
    case OpControl(id, user, action) => ControlCaused(db, id, user, action, r, t);
    case OpComplete(id, c) => CompleteCaused(db, id, c, r, t);
    case OpRestart(order) => RestartCaused(db, order, r, t);
    case OpCreate(req) => NewRunElsewhere(db, op, r); NothingCaused(db, Apply(db, op), op, r, t);
    case _ => SideStatus(db, op); SameStatus(db, Apply(db, op), r); NothingCaused(db, Apply(db, op), op, r, t);
  }

  lemma SameStatus(db: Db, after: Db, r: int)
    requires after.runs == db.runs
    ensures StatusIn(after, r) == StatusIn(db, r)
  {
  }

  // ---- where runs come from ---------------------------------------------------------------------------

  lemma AdvanceKeysStay(db: Db, id: int, row: Run, evts: seq<EventType>)
    requires id in db.runs && row.lastSequence == db.runs[id].lastSequence
    ensures Advance(db, id, row, evts).runs.Keys == db.runs.Keys
  {
    hide AddEvents, AddMessages;
  }

  lemma FailKeysStay(db: Db, id: int, interrupted: bool)
    ensures Fail(db, id, interrupted).db.runs.Keys == db.runs.Keys
  {
    if id in db.runs {
      var row := db.runs[id];
      AdvanceKeysStay(db, id, row.(status := Canceled, activeKey := None), [RunCanceled, Done]);
      AdvanceKeysStay(db, id, row.(status := Recoverable), [RunSuspended(Recoverable)]);
      var failed := if interrupted then Interrupted else Failed;
      AdvanceKeysStay(db, id, row.(status := failed, activeKey := None), [ErrorRaised, RunFailed(failed), Done]);
    }
    hide Advance;
  }

  lemma RunKeysStay(db: Db, op: Op)
    requires op.OpMarkRunning? || op.OpAppend? || op.OpSuspend? || op.OpSave?
    ensures Apply(db, op).runs.Keys == db.runs.Keys
  {
    hide AddEvents, AddMessages, ValidClaim;
  }

  lemma ControlKeysStay(db: Db, id: int, user: int, action: Action)
    ensures Control(db, id, user, action).db.runs.Keys == db.runs.Keys
  {
    hide AddEvents, AddMessages, KeyHeldByOther;
  }

  lemma CompleteKeysStay(db: Db, id: int, c: Completion)
    ensures Complete(db, id, c).db.runs.Keys == db.runs.Keys
  {
    if Complete(db, id, c).db != db {
      hide Complete, Advance, CompletionEvents, VersionRow;
      var apps := CompleteShape(db, id, c);
      AdvanceFields(Published(db, apps, VersionRow(db, id, c)), id, CompletedRow(db, id),
          CompletionEvents(db.nextId, c.description));
    }
  }

  lemma InterruptKeysStay(db: Db, id: int)
    requires id in db.runs && Stale(db.runs[id].status)
    ensures InterruptRun(db, id).runs.Keys == db.runs.Keys
  {
    hide AddEvents, AddMessages;
  }

  lemma {:induction false} InterruptRunsKeysStay(db: Db, order: seq<int>)
    ensures InterruptRuns(db, order).runs.Keys == db.runs.Keys
    decreases |order|
  {
    hide InterruptRun;
    if order != [] {
      var mid, id := InterruptRuns(db, order[..|order| - 1]), order[|order| - 1];
      InterruptRunsKeysStay(db, order[..|order| - 1]);
      if id in mid.runs && Stale(mid.runs[id].status) { InterruptKeysStay(mid, id); }
    }
  }

  /** Only starting a run creates one. */
  lemma RunsStay(db: Db, op: Op, r: int)
    ensures r in Apply(db, op).runs && r !in db.runs ==>
      op.OpCreate? && Apply(db, op).runs[r].request == op.request
  {
    hide *;
    Applied(db, op);
    match op
    case OpCreate(req) => CreatedRun(db, req, r);
    case OpMarkRunning(_) => RunKeysStay(db, op);
    case OpAppend(_, _) => RunKeysStay(db, op);
    case OpFail(id, interrupted) => FailKeysStay(db, id, interrupted);
    case OpSuspend(_, _) => RunKeysStay(db, op);
    case OpSave(_, _, _) => RunKeysStay(db, op);
    case OpControl(id, user, action) => ControlKeysStay(db, id, user, action);
    case OpComplete(id, c) => CompleteKeysStay(db, id, c);
    case OpRestart(order) => InterruptRunsKeysStay(db, order); RestartedRuns(db, order);
    case _ => SideStatus(db, op);
  }

  lemma RestartedRuns(db: Db, order: seq<int>)
    ensures InterruptStale(db, order).runs == InterruptRuns(db, order).runs
  {
    hide InterruptRuns;
  }

  lemma CreatedRun(db: Db, req: StartRequest, r: int)
    ensures r in Apply(db, OpCreate(req)).runs && r !in db.runs ==> Apply(db, OpCreate(req)).runs[r].request == req
  {
    hide HasRequest, HasActive;
  }

  lemma NewRunsArePending(db: Db, op: Op, r: int)
    requires r !in db.runs && r in Apply(db, op).runs
    ensures Apply(db, op).runs[r].status.Pending?
  {
    RunsStay(db, op, r);
    hide HasRequest, HasActive;
    if op.OpCreate? { } else { hide Apply; }
  }

  lemma {:induction false} AbsentBefore(ops: seq<Op>, r: int, j: nat)
    requires r !in After(EmptyDb, ops).runs && j <= |ops|
    ensures r !in After(EmptyDb, ops[..j]).runs
    decreases |ops|
  {
    hide Apply, Inv;
    if j < |ops| {
      var front := ops[..|ops| - 1];
      assert front[..j] == ops[..j];
      EmptyIsSound();
      HistorySound(EmptyDb, front);
      StepSound(After(EmptyDb, front), ops[|ops| - 1]);
      AbsentBefore(front, r, j);
    } else {
      assert ops[..j] == ops;
    }
  }

  lemma NotYetThere(ops: seq<Op>, r: int)
    requires ops != [] && r !in After(EmptyDb, ops[..|ops| - 1]).runs && r in After(EmptyDb, ops).runs
    requires After(EmptyDb, ops).runs[r].status.Pending?
    ensures NeverElse(ops, r)
  {
    hide After;
    var front := ops[..|ops| - 1];
    assert ops[..|ops|] == ops;
    forall j | 0 <= j < |ops| ensures StatusIn(After(EmptyDb, ops[..j]), r) == None {
      assert front[..j] == ops[..j];
      AbsentBefore(front, r, j);
    }
  }

  /** The status a run has had since the i-th transaction, which caused it. */
  ghost predicate Since(ops: seq<Op>, i: nat, r: int, t: Status) {
    && i < |ops| && r in After(EmptyDb, ops[..i]).runs && Cause(After(EmptyDb, ops[..i]), ops[i], r, t)
    && forall j :: i < j <= |ops| ==> StatusIn(After(EmptyDb, ops[..j]), r) == Some(t)
  }

  /** Of every run, after any history: it is pending and never was anything else, or one transaction of the
      history caused the status it has had since. */
  lemma {:induction false} EveryStatusHasItsCause(ops: seq<Op>, r: int)
    requires r in After(EmptyDb, ops).runs
    ensures var t := After(EmptyDb, ops).runs[r].status;
      (exists i :: Since(ops, i, r, t)) || (t.Pending? && NeverElse(ops, r))
    decreases |ops|
  {
    hide Apply, Cause, Inv;
    if ops != [] {
      var n := |ops| - 1;
      var front := ops[..n];
      var mid, after := After(EmptyDb, front), After(EmptyDb, ops);
      assert after == Apply(mid, ops[n]) && ops[..n + 1] == ops;
      assert forall j :: 0 <= j <= n ==> front[..j] == ops[..j];
      EmptyIsSound();
      HistorySound(EmptyDb, front);
      hide After, Extends;
      if r in mid.runs {
        EveryStatusHasItsCause(front, r);
        var t := after.runs[r].status;
        StatusIsCaused(mid, ops[n], r, t);
        if t != mid.runs[r].status {
          assert Since(ops, n, r, t);
        } else if i :| Since(front, i, r, t) {
          assert Since(ops, i, r, t);
        } else {
          assert NeverElse(ops, r);
        }
      } else {
        NewRunsArePending(mid, ops[n], r);
        NotYetThere(ops, r);
      }
    }
  }

  ghost predicate NeverElse(ops: seq<Op>, r: int) {
    forall j :: 0 <= j <= |ops| ==>
      StatusIn(After(EmptyDb, ops[..j]), r) == None || StatusIn(After(EmptyDb, ops[..j]), r) == Some(Pending)
  }

}
