/** What each transaction adds to a run's event log: what it did, and nothing where it did nothing. */
module EventLog {
  import opened TaskTypes
  import opened TaskTransactions
  import opened TaskInvariants
  import opened TaskHistory
  import opened Causes

  ghost function LogIn(db: Db, r: int): seq<EventType> {
    if LogsNumbered(db.runs, db.events) && r in db.runs then Log(db.runs, db.events, r) else []
  }

  /** What is logged when a run turns from one status into another. A cancelled execution ends by itself, a run
      that waits is cancelled by command. */
  function Announced(s: Status, t: Status, v: int, description: bool): seq<EventType> {
    match t
    case Running => [RunStarted]
    case Pausing => [RunControl(Pausing)]
    case Cancelling => [RunControl(Cancelling)]
    case Paused => [RunSuspended(Paused)]
    case AwaitingApproval => [RunSuspended(AwaitingApproval)]
    case Recoverable => [RunSuspended(Recoverable)]
    case Pending => [RunControl(Pending)]
    case Completed => [CodeCompleted(v)] + (if description then [DescriptionCompleted] else []) + [RunCompleted, Done]
    case Failed => [ErrorRaised, RunFailed(Failed), Done]
    case Interrupted => [ErrorRaised, RunFailed(Interrupted), Done]
    case Canceled => if s.Cancelling? then [RunCanceled, Done] else [RunControl(Canceled), Done]
  }

  /** The progress of a run at work, and its accepted checkpoints, are logged without a change of status. */
  function Noted(db: Db, op: Op, r: int): seq<EventType>
    requires r in db.runs
  {
    var row := db.runs[r];
    if op.OpAppend? && op.id == r && AtWork(row.status) then [Semantic(op.kind)]
    else if op.OpSave? && op.id == r && AtWork(row.status)
         && op.claim.app == row.request.app && ValidClaim(db, op.claim) then [CheckpointSaved]
    else []
  }

  function Added(db: Db, op: Op, r: int, t: Status): seq<EventType>
    requires r in db.runs
  {
    if t != db.runs[r].status
    then Announced(db.runs[r].status, t, db.nextId, op.OpComplete? && op.completion.description)
    else Noted(db, op, r)
  }

  ghost predicate Tells(db: Db, after: Db, op: Op, r: int)
    requires r in db.runs
  {
    r in after.runs && LogIn(after, r) == LogIn(db, r) + Added(db, op, r, after.runs[r].status)
  }

  // ---- each transaction -------------------------------------------------------------------------------

  lemma AdvanceLog(db: Db, id: int, row: Run, evts: seq<EventType>, r: int)
    requires LogsNumbered(db.runs, db.events) && id in db.runs && row.lastSequence == db.runs[id].lastSequence
    requires r in db.runs
    ensures LogIn(Advance(db, id, row, evts), r) == LogIn(db, r) + if r == id then evts else []
    ensures StatusIn(Advance(db, id, row, evts), r) == Some(if r == id then row.status else db.runs[r].status)
  {
    AdvanceFields(db, id, row, evts);
    AdvanceStatus(db, id, row, evts, r);
    AddEventsLogs(db.runs, db.events, id, row, evts, r);
    hide Advance, AddEvents, AddMessages, Log, LogsNumbered;
  }

  /** A row is moved, with its events. */
  lemma MoveTells(db: Db, base: Db, id: int, row: Run, evts: seq<EventType>, op: Op, r: int)
    requires LogsNumbered(db.runs, db.events) && id in db.runs && row.lastSequence == db.runs[id].lastSequence
    requires r in db.runs && base.runs == db.runs && base.events == db.events
    requires Added(db, op, r, if r == id then row.status else db.runs[r].status) == if r == id then evts else []
    ensures Tells(db, Advance(base, id, row, evts), op, r)
  {
    AdvanceLog(base, id, row, evts, r);
    hide Advance, Log, LogsNumbered, Added;
  }

  lemma StayTells(db: Db, after: Db, op: Op, r: int)
    requires r in db.runs && after.runs == db.runs && after.events == db.events && Noted(db, op, r) == []
    ensures Tells(db, after, op, r)
  {
    hide Log, LogsNumbered, Noted;
    assert LogIn(db, r) + [] == LogIn(db, r);
  }

  lemma StartTells(db: Db, id: int, r: int)
    requires Inv(db) && r in db.runs
    ensures Tells(db, MarkRunning(db, id).db, OpMarkRunning(id), r)
  {
    assert LogsNumbered(db.runs, db.events);
    hide Inv, Tells, Advance, LogsNumbered;
    if id in db.runs && db.runs[id].status.Pending? {
      MoveTells(db, db, id, db.runs[id].(status := Running), [RunStarted], OpMarkRunning(id), r);
    } else {
      StayTells(db, db, OpMarkRunning(id), r);
    }
  }

  lemma AppendTells(db: Db, id: int, kind: string, r: int)
    requires Inv(db) && r in db.runs
    ensures Tells(db, AppendEvent(db, id, kind).db, OpAppend(id, kind), r)
  {
    assert LogsNumbered(db.runs, db.events);
    hide Inv, Tells, Advance, LogsNumbered;
    if id in db.runs && AtWork(db.runs[id].status) {
      MoveTells(db, db, id, db.runs[id], [Semantic(kind)], OpAppend(id, kind), r);
    } else {
      StayTells(db, db, OpAppend(id, kind), r);
    }
  }

  lemma SuspendTells(db: Db, id: int, status: Status, r: int)
    requires Inv(db) && r in db.runs
    ensures Tells(db, Suspend(db, id, status).db, OpSuspend(id, status), r)
  {
    assert LogsNumbered(db.runs, db.events);
    hide Inv, Tells, Advance, LogsNumbered;
    if Suspend(db, id, status).outcome.Ok? {
      MoveTells(db, db, id, db.runs[id].(status := status), [RunSuspended(status)], OpSuspend(id, status), r);
    } else {
      StayTells(db, db, OpSuspend(id, status), r);
    }
  }

  lemma SaveTells(db: Db, id: int, c: Claim, cp: Checkpoint, r: int)
    requires Inv(db) && r in db.runs
    ensures Tells(db, SaveCheckpoint(db, id, c, cp).db, OpSave(id, c, cp), r)
  {
    assert LogsNumbered(db.runs, db.events);
    hide Inv, Tells, Advance, LogsNumbered, ValidClaim;
    if SaveCheckpoint(db, id, c, cp).outcome.Ok? {
      MoveTells(db, db.(checkpoints := db.checkpoints[id := cp]), id, db.runs[id], [CheckpointSaved],
          OpSave(id, c, cp), r);
    } else {
      StayTells(db, db, OpSave(id, c, cp), r);
    }
  }

  lemma FailTells(db: Db, id: int, interrupted: bool, r: int)
    requires Inv(db) && r in db.runs
    ensures Tells(db, Fail(db, id, interrupted).db, OpFail(id, interrupted), r)
  {
    assert LogsNumbered(db.runs, db.events);
    hide Inv, Tells, Advance, LogsNumbered;
    var op := OpFail(id, interrupted);
    if id !in db.runs || Terminal(db.runs[id].status) || Stopped(db.runs[id].status) {
      StayTells(db, db, op, r);
    } else {
      var row := db.runs[id];
      if row.status.Cancelling? {
        MoveTells(db, db, id, row.(status := Canceled, activeKey := None), [RunCanceled, Done], op, r);
      } else if interrupted && id in db.checkpoints {
        MoveTells(db, db, id, row.(status := Recoverable), [RunSuspended(Recoverable)], op, r);
      } else {
        var failed := if interrupted then Interrupted else Failed;
        MoveTells(db, db, id, row.(status := failed, activeKey := None), [ErrorRaised, RunFailed(failed), Done], op, r);
      }
    }
  }

  lemma RequeueTells(db: Db, id: int, cp: Checkpoint, op: Op, r: int)
    requires LogsNumbered(db.runs, db.events) && r in db.runs && id in db.runs && op.OpControl?
    requires !db.runs[id].status.Pending?
    ensures Tells(db, Requeue(db, id, cp).db, op, r)
  {
    hide Tells, Advance, LogsNumbered, KeyHeldByOther;
    if Requeue(db, id, cp).outcome.Ok? {
      MoveTells(db, RequeueBase(db, id, cp), id,
          db.runs[id].(status := Pending, activeKey := Some(db.runs[id].request.app)), [RunControl(Pending)], op, r);
    } else {
      StayTells(db, db, op, r);
    }
  }

  lemma StopTells(db: Db, id: int, op: Op, r: int)
    requires LogsNumbered(db.runs, db.events) && r in db.runs && id in db.runs && op.OpControl?
    ensures Tells(db, Stop(db, id).db, op, r)
  {
    hide Tells, Advance, LogsNumbered;
    var row := db.runs[id];
    if Terminal(row.status) || row.status.Cancelling? {
      StayTells(db, db, op, r);
    } else if AtWork(row.status) {
      MoveTells(db, db, id, row.(status := Cancelling), [RunControl(Cancelling)], op, r);
    } else {
      MoveTells(db, db, id, row.(status := Canceled, activeKey := None), [RunControl(Canceled), Done], op, r);
    }
  }

  lemma ControlTells(db: Db, id: int, user: int, action: Action, r: int)
    requires Inv(db) && r in db.runs
    ensures Tells(db, Control(db, id, user, action).db, OpControl(id, user, action), r)
  {
    assert LogsNumbered(db.runs, db.events);
    hide Inv, Tells, Advance, LogsNumbered, Stop, Requeue;
    var op := OpControl(id, user, action);
    StayTells(db, db, op, r);
    if id in db.runs && db.runs[id].request.user == user {
      match action
      case Pause =>
        if db.runs[id].status.Running? {
          MoveTells(db, db, id, db.runs[id].(status := Pausing), [RunControl(Pausing)], op, r);
        }
      case Cancel => StopTells(db, id, op, r);
      case Reject => StopTells(db, id, op, r);
      case Approve(hash) =>
        if id in db.checkpoints && db.runs[id].status.AwaitingApproval? {
          RequeueTells(db, id, db.checkpoints[id].(approvedHash := hash), op, r);
        }
      case Resume =>
        if id in db.checkpoints && (db.runs[id].status.Paused? || db.runs[id].status.Recoverable?) {
          RequeueTells(db, id, db.checkpoints[id], op, r);
        }
      case Unknown =>
    }
  }

  lemma CompleteTells(db: Db, id: int, c: Completion, r: int)
    requires Inv(db) && r in db.runs
    ensures Tells(db, Complete(db, id, c).db, OpComplete(id, c), r)
  {
    assert LogsNumbered(db.runs, db.events);
    var op := OpComplete(id, c);
    StayTells(db, db, op, r);
    hide Inv, Tells, Advance, LogsNumbered, Complete, VersionRow;
    var apps := CompleteShape(db, id, c);
    if Complete(db, id, c).db != db {
      MoveTells(db, Published(db, apps, VersionRow(db, id, c)), id, CompletedRow(db, id),
          CompletionEvents(db.nextId, c.description), op, r);
    }
  }

  // ---- restarts ---------------------------------------------------------------------------------------

  lemma InterruptTells(db: Db, id: int, r: int)
    requires LogsNumbered(db.runs, db.events) && id in db.runs && Stale(db.runs[id].status) && r in db.runs
    ensures LogIn(InterruptRun(db, id), r)
         == LogIn(db, r) + if r == id then Announced(db.runs[r].status, Restarted(db, r), 0, false) else []
  {
    hide Advance, LogsNumbered, Log;
    var row := db.runs[id];
    if row.status.Cancelling? {
      AdvanceLog(db, id, row.(status := Canceled, activeKey := None), [RunCanceled, Done], r);
    } else if id in db.checkpoints {
      AdvanceLog(db, id, row.(status := Recoverable), [RunSuspended(Recoverable)], r);
    } else {
      AdvanceLog(db, id, row.(status := Interrupted, activeKey := None),
          [ErrorRaised, RunFailed(Interrupted), Done], r);
    }
  }

  /** What a restart adds to the log of a run it finds. */
  function RestartAdds(db: Db, order: seq<int>, r: int): seq<EventType>
    requires r in db.runs
  {
    if r in order && Stale(db.runs[r].status) then Announced(db.runs[r].status, Restarted(db, r), 0, false) else []
  }

  lemma {:induction false} RestartLogs(db: Db, order: seq<int>, r: int)
    requires Inv(db) && r in db.runs
    ensures LogIn(InterruptRuns(db, order), r) == LogIn(db, r) + RestartAdds(db, order, r)
    decreases |order|
  {
    hide Inv, LogIn, InterruptRun, Extends, Announced;
    if order == [] {
      assert LogIn(db, r) + [] == LogIn(db, r);
    } else {
      var front, id := order[..|order| - 1], order[|order| - 1];
      assert order == front + [id];
      RestartLogs(db, front, r);
      RestartStatus(db, front, r);
      InterruptRunsSound(db, front);
      var mid := InterruptRuns(db, front);
      if id in mid.runs && Stale(mid.runs[id].status) {
        InvNumbered(mid);
        InterruptTells(mid, id, r);
        if id == r { FoundAsItWas(db, front, mid, r); }
        assert LogIn(mid, r) + [] == LogIn(mid, r);
      } else {
        assert r == id ==> !Stale(mid.runs[r].status);
        NotStaleAgain(db, front, r);
      }
    }
  }

  lemma InvNumbered(db: Db)
    requires Inv(db)
    ensures LogsNumbered(db.runs, db.events)
  {
  }

  /** A run still stale was not handled before. */
  lemma FoundAsItWas(db: Db, front: seq<int>, mid: Db, r: int)
    requires r in db.runs && r in mid.runs && Stale(mid.runs[r].status) && StoppedInOrder(db, mid, front)
    requires mid.checkpoints == db.checkpoints
    ensures RestartAdds(db, front, r) == [] && mid.runs[r] == db.runs[r] && Restarted(mid, r) == Restarted(db, r)
  {
  }

  lemma NotStaleAgain(db: Db, front: seq<int>, r: int)
    requires r in db.runs
    ensures var now := if r in front then Restarted(db, r) else db.runs[r].status;
      !Stale(now) ==> RestartAdds(db, front + [r], r) == RestartAdds(db, front, r)
  {
    hide Announced;
  }

  lemma RestartAddsIs(db: Db, order: seq<int>, r: int)
    requires r in db.runs
    ensures Added(db, OpRestart(order), r, if r in order then Restarted(db, r) else db.runs[r].status)
         == RestartAdds(db, order, r)
  {
    hide Announced;
    if r in order && Restarted(db, r) != db.runs[r].status { RestartAnnounces(db, order, r); }
  }

  lemma RestartAnnounces(db: Db, order: seq<int>, r: int)
    requires r in db.runs && Restarted(db, r) != db.runs[r].status
    ensures Stale(db.runs[r].status)
    ensures Announced(db.runs[r].status, Restarted(db, r), db.nextId, false)
         == Announced(db.runs[r].status, Restarted(db, r), 0, false)
  {
  }

  /** Giving up start messages touches no log. */
  lemma StoppedTables(db: Db, order: seq<int>, r: int)
    ensures LogIn(InterruptStale(db, order), r) == LogIn(InterruptRuns(db, order), r)
    ensures StatusIn(InterruptStale(db, order), r) == StatusIn(InterruptRuns(db, order), r)
  {
    hide InterruptRuns, LogsNumbered, Log;
  }

  lemma RestartTells(db: Db, order: seq<int>, r: int)
    requires Inv(db) && r in db.runs
    ensures Tells(db, InterruptStale(db, order), OpRestart(order), r)
  {
    hide *;
    RestartLogs(db, order, r);
    RestartStatus(db, order, r);
    RestartAddsIs(db, order, r);
    StoppedTables(db, order, r);
    TellsBy(db, InterruptStale(db, order), OpRestart(order), r,
        if r in order then Restarted(db, r) else db.runs[r].status);
  }

  lemma TellsBy(db: Db, after: Db, op: Op, r: int, t: Status)
    requires r in db.runs && StatusIn(after, r) == Some(t) && LogIn(after, r) == LogIn(db, r) + Added(db, op, r, t)
    ensures Tells(db, after, op, r)
  {
    hide LogIn, Added;
  }

  // ---- all transactions -------------------------------------------------------------------------------

  lemma NewRunLeaves(db: Db, req: StartRequest, r: int)
    requires LogsNumbered(db.runs, db.events) && LogsNumbered(NewRun(db, req).runs, NewRun(db, req).events)
    requires r in db.runs && db.nextId !in db.runs
    ensures LogIn(NewRun(db, req), r) == LogIn(db, r) + [] && StatusIn(NewRun(db, req), r) == Some(db.runs[r].status)
  {
  }

  lemma NextIsFree(db: Db)
    requires Inv(db)
    ensures db.nextId !in db.runs
  {
    hide LogsNumbered, LogsFit, VersionsOwned, UniqueKeys;
  }

  lemma NewRunLogs(db: Db, op: Op, r: int)
    requires Inv(db) && op.OpCreate? && r in db.runs
    ensures Tells(db, Apply(db, op), op, r)
  {
    assert Noted(db, op, r) == [] && Added(db, op, r, db.runs[r].status) == [];
    hide Inv, HasRequest, HasActive, Tells, NewRun, LogIn, LogsNumbered, Extends, Moves;
    NextIsFree(db);
    InvNumbered(db);
    StepSound(db, op);
    InvNumbered(Apply(db, op));
    if Apply(db, op) == db {
      StayTells(db, db, op, r);
    } else {
      NewRunLeaves(db, op.request, r);
      TellsBy(db, NewRun(db, op.request), op, r, db.runs[r].status);
    }
  }

  lemma PublicationLogs(db: Db, p: Publication)
    ensures Publish(db, p).db.events == db.events && PublishRestoration(db, p).db.events == db.events
  {
    hide ValidClaim, RunHasVersion, HasActive;
  }

  lemma OwnershipLogs(db: Db, op: Op)
    requires op.OpBudget? || op.OpClaim? || op.OpRenew? || op.OpRelease? || op.OpPublish? || op.OpRestore?
      || op.OpRegister?
    ensures Apply(db, op).events == db.events
  {
    if op.OpPublish? || op.OpRestore? { PublicationLogs(db, op.publication); }
    hide ValidClaim, Publish, PublishRestoration;
  }

  lemma SideLogs(db: Db, op: Op)
    requires op.OpReclaimOutbox? || op.OpClaimOutbox? || op.OpDelivered? || op.OpRetry? || op.OpTick?
    ensures Apply(db, op).events == db.events
  {
    hide RetryDelay, Due;
  }

  /** In every reachable database, a transaction adds to the log of a run what it did to the run, and nothing if
      it did nothing: a change of status its own events, one with `done` in the end exactly if the run is
      finished, an accepted progress event its kind, an accepted checkpoint its mark. */
  lemma LogTellsWhatHappened(db: Db, op: Op, r: int)
    requires Inv(db) && r in db.runs
    ensures r in Apply(db, op).runs
    ensures LogIn(Apply(db, op), r) == LogIn(db, r) + Added(db, op, r, Apply(db, op).runs[r].status)
  {
    hide *;
    Applied(db, op);
    match op {
      case OpMarkRunning(id) => StartTells(db, id, r);
      case OpSuspend(id, status) => SuspendTells(db, id, status, r);
      case OpFail(id, interrupted) => FailTells(db, id, interrupted, r);
      case OpAppend(id, kind) => AppendTells(db, id, kind, r);
      case OpSave(id, c, cp) => SaveTells(db, id, c, cp, r);
      case OpControl(id, user, action) => ControlTells(db, id, user, action, r);
      case OpComplete(id, c) => CompleteTells(db, id, c, r);
      case OpRestart(order) => RestartTells(db, order, r);
      case OpCreate(_) => NewRunLogs(db, op, r);
      case _ => OtherTells(db, op, r);
    }
    TellsIs(db, Apply(db, op), op, r);
  }

  lemma OtherTells(db: Db, op: Op, r: int)
    requires r in db.runs
    requires op.OpBudget? || op.OpReclaimOutbox? || op.OpClaimOutbox? || op.OpDelivered? || op.OpRetry? || op.OpClaim?
      || op.OpRenew? || op.OpRelease? || op.OpPublish? || op.OpRestore? || op.OpRegister? || op.OpTick?
    ensures Tells(db, Apply(db, op), op, r)
  {
    assert Noted(db, op, r) == [];
    hide *;
    SideStatus(db, op);
    if op.OpReclaimOutbox? || op.OpClaimOutbox? || op.OpDelivered? || op.OpRetry? || op.OpTick? {
      SideLogs(db, op);
    } else {
      OwnershipLogs(db, op);
    }
    StayTells(db, Apply(db, op), op, r);
  }

  lemma TellsIs(db: Db, after: Db, op: Op, r: int)
    requires r in db.runs && Tells(db, after, op, r)
    ensures r in after.runs && LogIn(after, r) == LogIn(db, r) + Added(db, op, r, after.runs[r].status)
  {
    hide LogIn, Added;
  }
}
