/** The promises of the detached-run protocol, over every history of transactions. */
module TaskTheorems {
  import opened TaskTypes
  import opened TaskTransactions
  import opened TaskInvariants
  import opened TaskHistory

  ghost predicate Reachable(db: Db) {
    exists ops :: db == After(EmptyDb, ops)
  }

  lemma ReachableInv(db: Db)
    requires Reachable(db)
    ensures Inv(db)
  {
    var ops :| db == After(EmptyDb, ops);
    EmptyIsSound();
    HistorySound(EmptyDb, ops);
  }

  /** Each run's events are numbered exactly 1..last_sequence, the log starts with the creation,
      follows the run machine, and replays to the stored status; `done` is there exactly when the
      run has finished, once and last; the active key is held exactly while the run lives. */
  lemma LogTellsTheRun(db: Db, r: int)
    requires Reachable(db) && r in db.runs
    ensures LogsNumbered(db.runs, db.events)
    ensures var log := Log(db.runs, db.events, r);
      && log != [] && log[0] == RunCreated && Path(log) && Replay(log) == Some(db.runs[r].status)
      && (Terminal(db.runs[r].status) <==> exists i :: 0 <= i < |log| && log[i] == Done)
      && (forall i :: 0 <= i < |log| && log[i] == Done ==> i == |log| - 1)
    ensures db.runs[r].activeKey == if Terminal(db.runs[r].status) then None else Some(db.runs[r].request.app)
  {
    ReachableInv(db);
    var log := Log(db.runs, db.events, r);
    assert LogFits(log, db.runs[r]);
    if Terminal(db.runs[r].status) { assert log[|log| - 1] == Done; }
  }

  /** An app never has two live runs, and a request identifier never has two runs. */
  lemma OneLiveRunPerApp(db: Db, r: int, s: int)
    requires Reachable(db) && r in db.runs && s in db.runs && r != s
    ensures db.runs[r].request.app == db.runs[s].request.app ==>
        Terminal(db.runs[r].status) || Terminal(db.runs[s].status)
    ensures db.runs[r].request.requestId != db.runs[s].request.requestId
  {
    LogTellsTheRun(db, r);
    LogTellsTheRun(db, s);
    ReachableInv(db);
    hide LogsNumbered, LogsFit, VersionsOwned, IdsIssued;
  }

  /** A run is completed exactly when a source version belongs to it; then there is one, its single
      code_completed event names it, and no other version row carries the run. */
  lemma CompletedRunHasOneVersion(db: Db, r: int)
    requires Reachable(db) && r in db.runs
    ensures db.runs[r].status.Completed? <==> RunHasVersion(db, r)
    ensures db.runs[r].status.Completed? ==>
      exists v, i ::
        && v in db.versions && db.versions[v].run == r && db.versions[v].app == db.runs[r].request.app
        && (forall w :: w in db.versions && db.versions[w].run == r ==> w == v)
        && LogsNumbered(db.runs, db.events) && 0 <= i < |Log(db.runs, db.events, r)|
        && Log(db.runs, db.events, r)[i] == CodeCompleted(v)
        && forall j :: 0 <= j < |Log(db.runs, db.events, r)| && Log(db.runs, db.events, r)[j].CodeCompleted? ==> j == i
  {
    ReachableInv(db);
    var log, row := Log(db.runs, db.events, r), db.runs[r];
    assert LogFits(log, row);
    if row.status.Completed? {
      var i :| 0 <= i < |log| && log[i].CodeCompleted?;
      var v := row.version.value;
      assert v in db.versions && db.versions[v].run == r;
      assert log[i] == CodeCompleted(v);
    }
  }

  /** History is append-only: a finished run never changes again, its log included. */
  lemma FinishedIsFinal(db: Db, ops: seq<Op>, r: int)
    requires Reachable(db) && r in db.runs && Terminal(db.runs[r].status)
    ensures r in After(db, ops).runs && After(db, ops).runs[r] == db.runs[r]
    ensures LogsNumbered(db.runs, db.events) && LogsNumbered(After(db, ops).runs, After(db, ops).events)
    ensures Log(After(db, ops).runs, After(db, ops).events, r) == Log(db.runs, db.events, r)
  {
    ReachableInv(db);
    HistorySound(db, ops);
    hide LogsFit, VersionsOwned, IdsIssued, UniqueKeys;
    assert forall i :: 1 <= i <= db.runs[r].lastSequence ==> (r, i) in db.events;
  }

  /** A live run's log only ever grows at its end. */
  lemma LogIsAppendOnly(db: Db, ops: seq<Op>, r: int)
    requires Reachable(db) && r in db.runs
    ensures r in After(db, ops).runs
    ensures LogsNumbered(db.runs, db.events) && LogsNumbered(After(db, ops).runs, After(db, ops).events)
    ensures Log(db.runs, db.events, r) <= Log(After(db, ops).runs, After(db, ops).events, r)
  {
    ReachableInv(db);
    HistorySound(db, ops);
    hide LogsFit, VersionsOwned, IdsIssued, UniqueKeys;
    assert forall i :: 1 <= i <= db.runs[r].lastSequence ==> (r, i) in db.events;
  }

  /** Retrying a start is idempotent: however much happened in between, the identifier leads to
      the run of its first use, or is refused for a different request, and creates nothing. */
  lemma RetriedStartFindsItsRun(db: Db, req: StartRequest, ops: seq<Op>, again: StartRequest, r: Result)
    requires Reachable(db) && !HasRequest(db, req.requestId) && !HasActive(db, req.app)
    requires again.requestId == req.requestId
    requires CreateRun(After(NewRun(db, req), ops), again, r)
    ensures r == Result(After(NewRun(db, req), ops), if again == req then Replayed(db.nextId) else RequestConflict)
  {
    ReachableInv(db);
    NewRunKeepsInv(db, req);
    var created := NewRun(db, req);
    HistorySound(created, ops);
    var later := After(created, ops);
    assert db.nextId in later.runs && later.runs[db.nextId].request == req;
    hide LogsNumbered, LogsFit, VersionsOwned, IdsIssued, NewRun, After;
  }

  lemma RunMoves(db: Db, op: Op, r: int)
    requires Inv(db) && r in db.runs
    ensures Inv(Apply(db, op)) && r in Apply(db, op).runs
    ensures var s, t := db.runs[r].status, Apply(db, op).runs[r].status; s == t || Successor(s, t)
  {
    StepSound(db, op);
    hide Inv, Apply;
  }

  /** A cancelled execution can only end as canceled: nothing completes, resumes or fails it. */
  lemma {:induction false} CancellingEndsCanceled(db: Db, ops: seq<Op>, r: int)
    requires Inv(db) && r in db.runs && (db.runs[r].status.Cancelling? || db.runs[r].status.Canceled?)
    ensures Inv(After(db, ops)) && r in After(db, ops).runs
    ensures After(db, ops).runs[r].status.Cancelling? || After(db, ops).runs[r].status.Canceled?
    decreases |ops|
  {
    hide Inv, Apply;
    if ops != [] {
      var front := ops[..|ops| - 1];
      assert After(db, ops) == Apply(After(db, front), ops[|ops| - 1]);
      hide After;
      CancellingEndsCanceled(db, front, r);
      RunMoves(After(db, front), ops[|ops| - 1], r);
    }
  }

  // ---- starts -----------------------------------------------------------------------------

  function Count(log: seq<EventType>, s: Status): nat {
    if log == [] then 0 else Count(log[..|log| - 1], s) + if StatusOf(log[|log| - 1]) == Some(s) then 1 else 0
  }

  /** Every passage through pending is answered by at most one start. */
  lemma {:induction false} StartsFollowRequests(log: seq<EventType>)
    requires Path(log) && (log != [] ==> log[0] == RunCreated)
    ensures Count(log, Running) + (if Replay(log) == Some(Pending) then 1 else 0) <= Count(log, Pending)
    decreases |log|
  {
    if |log| > 1 {
      var front := log[..|log| - 1];
      assert forall i :: 0 <= i <= |front| ==> front[..i] == log[..i];
      StartsFollowRequests(front);
    } else if |log| == 1 {
      assert log[..0] == [];
    }
  }

  lemma AtMostOneStartPerRequest(db: Db, r: int)
    requires Reachable(db) && r in db.runs
    ensures LogsNumbered(db.runs, db.events)
    ensures var log := Log(db.runs, db.events, r);
      Count(log, Running) + (if db.runs[r].status.Pending? then 1 else 0) <= Count(log, Pending)
  {
    LogTellsTheRun(db, r);
    StartsFollowRequests(Log(db.runs, db.events, r));
  }

  // ---- control ----------------------------------------------------------------------------

  lemma AdvancedRun(db: Db, id: int, row: Run, evts: seq<EventType>)
    requires id in db.runs && row.lastSequence == db.runs[id].lastSequence
    ensures var after := Advance(db, id, row, evts);
      id in after.runs && after.runs[id].status == row.status && after.runs[id].request == row.request
          && after.checkpoints == db.checkpoints
  {
    hide AddEvents, AddMessages;
  }

  lemma RequeuedRun(db: Db, id: int, cp: Checkpoint)
    requires id in db.runs && Requeue(db, id, cp).outcome.Ok?
    ensures var after := Requeue(db, id, cp).db;
      id in after.runs && after.runs[id].status.Pending? && after.runs[id].request == db.runs[id].request
      && after.checkpoints == db.checkpoints[id := cp]
  {
    AdvancedRun(RequeueBase(db, id, cp), id,
        db.runs[id].(status := Pending, activeKey := Some(db.runs[id].request.app)), [RunControl(Pending)]);
    hide Advance, KeyHeldByOther;
  }

  lemma StoppedRun(db: Db, id: int)
    requires id in db.runs && Stop(db, id).outcome.Ok?
    ensures var after := Stop(db, id).db;
      id in after.runs && (after.runs[id].status.Canceled? || after.runs[id].status.Cancelling?)
          && after.runs[id].request == db.runs[id].request
  {
    AdvancedRun(db, id, db.runs[id].(status := Cancelling), [RunControl(Cancelling)]);
    AdvancedRun(db, id, db.runs[id].(status := Canceled, activeKey := None), [RunControl(Canceled), Done]);
    hide Advance;
  }

  /** A user command that succeeded may be sent again: it succeeds again and changes nothing. */
  lemma RepeatedControlChangesNothing(db: Db, id: int, user: int, action: Action)
    requires Control(db, id, user, action).outcome.Ok?
    ensures var after := Control(db, id, user, action).db;
      Control(after, id, user, action) == Result(after, Ok)
  {
    match action
    case Pause =>
      AdvancedRun(db, id, db.runs[id].(status := Pausing), [RunControl(Pausing)]);
      hide Advance;
    case Cancel => StoppedRun(db, id); hide Advance;
    case Reject => StoppedRun(db, id); hide Advance;
    case Approve(hash) =>
      hide Requeue;
      if db.runs[id].status.AwaitingApproval? { RequeuedRun(db, id, db.checkpoints[id].(approvedHash := hash)); }
    case Resume =>
      hide Requeue;
      if !db.runs[id].status.Pending? { RequeuedRun(db, id, db.checkpoints[id]); }
  }
}
