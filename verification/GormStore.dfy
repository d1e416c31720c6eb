/** The run transactions, statement by statement over the tables. Each locks its run row, checks it,
    writes rows one at a time with a sequence counter advanced by hand, and either commits what its
    specification says or rolls back. */
module GormStore {
  import opened TaskTypes
  import opened TaskInvariants
  import opened TaskHistory
  import opened ExecutionStore
  import Spec = TaskTransactions

  /** No event and no announcement of the run has a number above `last`. */
  ghost predicate Free(events: Events, outbox: map<OutboxKey, OutboxRow>, id: int, last: int) {
    forall n :: n > last ==> (id, n) !in events && RunEvent(id, n) !in outbox
  }

  lemma ValidIsFree(db: Db, id: int)
    requires Inv(db) && id in db.runs
    ensures Free(db.events, db.outbox, id, db.runs[id].lastSequence)
  {
  }

  lemma FreeNext(events: Events, outbox: map<OutboxKey, OutboxRow>, id: int, last: int, e: EventType, m: OutboxRow)
    requires Free(events, outbox, id, last)
    ensures Free(events[(id, last + 1) := e], outbox[RunEvent(id, last + 1) := m], id, last + 1)
  {
  }

  lemma StepKeeps(db: Db, op: Op)
    requires Inv(db)
    ensures Inv(Apply(db, op))
  {
    StepSound(db, op);
    hide Inv, Apply;
  }

  /** The row after a batch, and the batch continued by one event. */
  lemma Appending(base: Db, id: int, evts: seq<EventType>, e: EventType)
    requires id in base.runs
    ensures var db := Spec.AppendAll(base, id, evts);
      && id in db.runs && db.runs[id] == base.runs[id].(lastSequence := base.runs[id].lastSequence + |evts|)
      && Spec.AppendOne(db, id, e) == Spec.AppendAll(base, id, evts + [e])
  {
    Spec.AppendOneExtends(base, id, evts, e);
    hide Spec.AppendOne, Spec.AddEvents, Spec.AddMessages;
  }

  /** Updating the row after its events were appended amounts to updating it before. */
  lemma UpdatedLast(base: Db, id: int, row: Run, evts: seq<EventType>)
    requires id in base.runs && row.lastSequence == base.runs[id].lastSequence
    ensures var db := Spec.AppendAll(base, id, evts);
      && id in db.runs && db.runs[id] == base.runs[id].(lastSequence := base.runs[id].lastSequence + |evts|)
      && db.(runs := db.runs[id := row.(lastSequence := row.lastSequence + |evts|)])
           == Spec.Advance(base, id, row, evts)
  {
    hide Spec.AddEvents, Spec.AddMessages;
  }

  lemma RefusedPublication(db: Db, p: Publication, v: int, valid: bool)
    requires !Spec.PublishTx(db, p, v, valid).outcome.Ok?
    ensures Spec.PublishTx(db, p, v, valid).db == db
  {
  }

  lemma AcceptedPublication(db: Db, p: Publication, v: int, valid: bool)
    ensures Spec.PublishTx(db, p, v, valid).db == db.(apps := Spec.PublishTx(db, p, v, valid).db.apps)
  {
  }

  /** The first lookup for a live run considers the requesting user's runs only. */
  predicate ActiveFor(db: Db, r: int, req: StartRequest) {
    r in db.runs && db.runs[r].request.app == req.app && db.runs[r].request.user == req.user
        && db.runs[r].activeKey.Some?
  }

  lemma ValidUsers(db: Db, req: StartRequest)
    requires Inv(db)
    ensures forall r :: ActiveFor(db, r, req) ==> db.runs[r].activeKey == Some(req.app)
  {
    forall r | ActiveFor(db, r, req) ensures db.runs[r].activeKey == Some(req.app) {
      assert LogFits(Log(db.runs, db.events, r), db.runs[r]);
    }
  }

  /** The outbox after the given rows were claimed. */
  function Claimed(db: Db, keys: seq<OutboxKey>): Db {
    db.(outbox := map key | key in db.outbox ::
          if key in keys then db.outbox[key].(status := Processing, claimedAt := Some(db.now)) else db.outbox[key])
  }

  ghost predicate Distinct<T>(rows: seq<T>) {
    forall i, j :: 0 <= i < j < |rows| ==> rows[i] != rows[j]
  }

  function Created(db: Db, key: OutboxKey): int {
    if key in db.outbox then db.outbox[key].created else 0
  }

  /** In order of creation, and no due message left out is older. */
  ghost predicate OldestFirst(db: Db, rows: seq<OutboxKey>) {
    && (forall i, j :: 0 <= i < j < |rows| ==> Created(db, rows[i]) <= Created(db, rows[j]))
    && forall i, key :: 0 <= i < |rows| && Spec.Due(db, key) && key !in rows ==>
         Created(db, rows[i]) <= Created(db, key)
  }

  lemma OldestAdds(db: Db, rows: seq<OutboxKey>, key: OutboxKey)
    requires OldestFirst(db, rows) && Spec.Due(db, key) && key !in rows
    requires forall other :: Spec.Due(db, other) && other !in rows ==> Created(db, key) <= Created(db, other)
    ensures OldestFirst(db, rows + [key])
  {
    assert forall other :: other in rows + [key] <==> other in rows || other == key;
    hide Created, Spec.Due;
  }

  lemma ClaimedNext(db: Db, keys: seq<OutboxKey>, key: OutboxKey)
    requires key in db.outbox
    ensures Claimed(db, keys).(outbox :=
        Claimed(db, keys).outbox[key := db.outbox[key].(status := Processing, claimedAt := Some(db.now))])
         == Claimed(db, keys + [key])
  {
    var a := Claimed(db, keys).outbox[key := db.outbox[key].(status := Processing, claimedAt := Some(db.now))];
    assert a.Keys == Claimed(db, keys + [key]).outbox.Keys;
    assert a == Claimed(db, keys + [key]).outbox;
  }

  lemma ClaimedKeeps(db: Db, keys: seq<OutboxKey>)
    requires Inv(db)
    ensures Inv(Claimed(Spec.ReclaimOutbox(db), keys))
  {
    hide Inv;
    SideEffectSound(db, Claimed(Spec.ReclaimOutbox(db), keys)) by { hide Spec.Reclaimed; }
  }

  lemma StoppedRun(db: Db, order: seq<int>, id: int)
    requires Inv(db) && id in db.runs && id !in order
    ensures Inv(Spec.InterruptRuns(db, order)) && id in Spec.InterruptRuns(db, order).runs
    ensures Spec.InterruptRuns(db, order).runs[id] == db.runs[id]
  {
    InterruptRunsSound(db, order);
    hide Inv, Spec.InterruptRuns;
  }

  lemma InterruptNone(db: Db)
    ensures Spec.InterruptRuns(db, []) == db
  {
  }

  lemma InterruptRunsNext(db: Db, order: seq<int>, id: int)
    ensures Spec.InterruptRuns(db, order + [id]) == var rest := Spec.InterruptRuns(db, order);
      if id in rest.runs && Spec.Stale(rest.runs[id].status) then Spec.InterruptRun(rest, id) else rest
  {
    hide Spec.InterruptRun;
    assert (order + [id])[..|order|] == order;
  }

  class Store {
    const db: Database

    constructor (db: Database)
      ensures this.db == db
    {
      this.db := db;
    }

    ghost predicate Valid()
      reads db
    {
      Inv(db.tables)
    }

    /** Appends under the number after `last`, the caller's copy of the sequence counter; the unique
        indexes admit the rows. The ghost arguments tell the batch written so far. */
    method AppendEventTx(id: int, last: int, e: EventType, ghost base: Db, ghost evts: seq<EventType>)
      requires id in base.runs && db.tables == Spec.AppendAll(base, id, evts)
      requires last == base.runs[id].lastSequence + |evts|
      requires Free(db.tables.events, db.tables.outbox, id, last)
      modifies db
      ensures db.tables == Spec.AppendAll(base, id, evts + [e])
      ensures Free(db.tables.events, db.tables.outbox, id, last + 1)
    {
      Appending(base, id, evts, e);
      hide Spec.AppendAll;
      var sequence := last + 1;
      ghost var t := db.tables;
      FreeNext(t.events, t.outbox, id, last, e, Spec.EventMessage(id, t.now));
      CreateEvent(id, sequence, e);
      UpdateRun(id, db.tables.runs[id].(lastSequence := sequence));
      CreateOutbox(RunEvent(id, sequence), Spec.EventMessage(id, db.tables.now));
      hide Free, Spec.EventMessage;
      assert db.tables == Spec.AppendOne(t, id, e);
    }

    method CreateEvent(id: int, sequence: int, e: EventType)
      requires (id, sequence) !in db.tables.events
      modifies db
      ensures db.tables == old(db.tables).(events := old(db.tables).events[(id, sequence) := e])
    {
      db.tables := db.tables.(events := db.tables.events[(id, sequence) := e]);
    }

    method CreateOutbox(key: OutboxKey, row: OutboxRow)
      requires key !in db.tables.outbox
      modifies db
      ensures db.tables == old(db.tables).(outbox := old(db.tables).outbox[key := row])
    {
      db.tables := db.tables.(outbox := db.tables.outbox[key := row]);
    }

    method UpdateRun(id: int, row: Run)
      modifies db
      ensures db.tables == old(db.tables).(runs := old(db.tables).runs[id := row])
    {
      db.tables := db.tables.(runs := db.tables.runs[id := row]);
    }

    /** Updates the row, then appends one event: the shape of most transitions. */
    method Transition(id: int, last: int, row: Run, e: EventType)
      requires id in db.tables.runs && last == row.lastSequence == db.tables.runs[id].lastSequence
      requires Free(db.tables.events, db.tables.outbox, id, last)
      modifies db
      ensures db.tables == Spec.Advance(old(db.tables), id, row, [e])
    {
      UpdateRun(id, row);
      ghost var base := db.tables;
      Spec.AppendNone(base, id);
      hide Spec.AppendAll, Free;
      AppendEventTx(id, last, e, base, []);
      assert [] + [e] == [e];
    }

    method MarkRunning(id: int) returns (outcome: Outcome)
      requires Valid()
      modifies db
      ensures Valid() && Result(db.tables, outcome) == Spec.MarkRunning(old(db.tables), id)
    {
      hide Inv, Spec.Advance, Free;
      StepKeeps(db.tables, OpMarkRunning(id));
      if id !in db.tables.runs { return NotFound; }
      var row := db.tables.runs[id];
      if row.status != Pending { return Refused; }
      ValidIsFree(db.tables, id);
      Transition(id, row.lastSequence, row.(status := Running), RunStarted);
      return Ok;
    }

    method AppendEvent(id: int, kind: string) returns (outcome: Outcome)
      requires Valid()
      modifies db
      ensures Valid() && Result(db.tables, outcome) == Spec.AppendEvent(old(db.tables), id, kind)
    {
      hide Inv, Spec.Advance, Free;
      StepKeeps(db.tables, OpAppend(id, kind));
      if id !in db.tables.runs { return NotFound; }
      var row := db.tables.runs[id];
      if row.status != Running && row.status != Pausing { return Refused; }
      ValidIsFree(db.tables, id);
      Transition(id, row.lastSequence, row, Semantic(kind));
      return Ok;
    }

    method Suspend(id: int, status: Status) returns (outcome: Outcome)
      requires Valid()
      modifies db
      ensures Valid() && Result(db.tables, outcome) == Spec.Suspend(old(db.tables), id, status)
    {
      hide Inv, Spec.Advance, Free;
      StepKeeps(db.tables, OpSuspend(id, status));
      if id !in db.tables.runs { return NotFound; }
      var row := db.tables.runs[id];
      if row.status == Cancelling { return InvalidControl; }
      if row.status != Running && row.status != Pausing { return InvalidControl; }
      if status != Paused && status != AwaitingApproval { return InvalidControl; }
      ValidIsFree(db.tables, id);
      Transition(id, row.lastSequence, row.(status := status), RunSuspended(status));
      return Ok;
    }

    /** The last two events of every finished run. */
    method AppendClosing(id: int, last: int, closing: EventType, ghost base: Db, ghost evts: seq<EventType>)
      requires id in base.runs && db.tables == Spec.AppendAll(base, id, evts)
      requires last == base.runs[id].lastSequence + |evts|
      requires Free(db.tables.events, db.tables.outbox, id, last)
      modifies db
      ensures db.tables == Spec.AppendAll(base, id, evts + [closing, Done])
    {
      hide Spec.AppendAll, Free;
      AppendEventTx(id, last, closing, base, evts);
      AppendEventTx(id, last + 1, Done, base, evts + [closing]);
      assert evts + [closing] + [Done] == evts + [closing, Done];
    }

    /** Closing a run: its last events one by one, then the row. */
    method Finish(id: int, row: Run, error: bool, closing: EventType, status: Status)
      requires id in db.tables.runs && row == db.tables.runs[id]
      requires Free(db.tables.events, db.tables.outbox, id, row.lastSequence)
      modifies db
      ensures db.tables == Spec.Advance(old(db.tables), id, row.(status := status, activeKey := None),
                                        if error then [ErrorRaised, closing, Done] else [closing, Done])
    {
      hide Spec.AppendAll, Spec.Advance, Free;
      ghost var base, lead := db.tables, [];
      Spec.AppendNone(base, id);
      var last := row.lastSequence;
      if error {
        AppendEventTx(id, last, ErrorRaised, base, []);
        lead := [ErrorRaised];
        assert [] + [ErrorRaised] == lead;
        last := last + 1;
      }
      AppendClosing(id, last, closing, base, lead);
      ghost var evts := if error then [ErrorRaised, closing, Done] else [closing, Done];
      assert lead + [closing, Done] == evts;
      UpdatedLast(base, id, row.(status := status, activeKey := None), evts);
      UpdateRun(id, db.tables.runs[id].(status := status, activeKey := None));
    }

    method Fail(id: int, interrupted: bool) returns (outcome: Outcome)
      requires Valid()
      modifies db
      ensures Valid() && Result(db.tables, outcome) == Spec.Fail(old(db.tables), id, interrupted)
    {
      hide Inv, Spec.Advance, Free;
      StepKeeps(db.tables, OpFail(id, interrupted));
      var status := if interrupted then Interrupted else Failed;
      if id !in db.tables.runs { return NotFound; }
      var row := db.tables.runs[id];
      if Terminal(row.status) { return Ok; }
      if row.status == Paused || row.status == AwaitingApproval || row.status == Recoverable { return Ok; }
      ValidIsFree(db.tables, id);
      if row.status == Cancelling { status := Canceled; }
      if interrupted && row.status != Cancelling && id in db.tables.checkpoints {
        Transition(id, row.lastSequence, row.(status := Recoverable), RunSuspended(Recoverable));
        return Ok;
      }
      Finish(id, row, status != Canceled, if status == Canceled then RunCanceled else RunFailed(status), status);
      return Ok;
    }

    /** The version row, the pointer move and the final events commit or roll back together. */
    method Complete(id: int, c: Spec.Completion) returns (outcome: Outcome)
      requires Valid()
      modifies db
      ensures Valid() && Result(db.tables, outcome) == Spec.Complete(old(db.tables), id, c)
    {
      hide Inv, Spec.Advance, Free, Spec.CompletionEvents, Spec.PublishTx;
      StepKeeps(db.tables, OpComplete(id, c));
      var before := db.tables;
      if id !in db.tables.runs { return NotFound; }
      ValidIsFree(before, id);
      var row := db.tables.runs[id];
      var version := Version(id, row.request.app, "", "", 0);
      if row.status == Pausing { return Suspended(Paused); }
      if row.status != Running { return Refused; }
      if !c.valid { return Refused; }
      var v := db.tables.nextId;
      if c.publication.Some? {
        var p := c.publication.value;
        version := version.(path := p.path, contentHash := p.contentHash, restoredFrom := p.restoredFrom);
        if p.claim.app != row.request.app { return Refused; }
        outcome := PublishTx(db, p, v, c.stillValid);
        if outcome != Ok { RefusedPublication(before, p, v, c.stillValid); return; }
        AcceptedPublication(before, p, v, c.stillValid);
      }
      var ok := db.CreateVersion(v, version);
      if !ok {
        db.tables := before;
        return Refused;
      }
      db.tables := db.tables.(nextId := v + 1);
      CompletionTail(id, row, v, c.description);
      return Ok;
    }

    method CompletionTail(id: int, row: Run, v: int, description: bool)
      requires id in db.tables.runs && row == db.tables.runs[id]
      requires Free(db.tables.events, db.tables.outbox, id, row.lastSequence)
      modifies db
      ensures db.tables == Spec.Advance(old(db.tables), id,
          row.(status := Completed, activeKey := None, version := Some(v)),
                                        Spec.CompletionEvents(v, description))
    {
      hide Spec.AppendAll, Spec.Advance, Free;
      ghost var base, lead := db.tables, [CodeCompleted(v)];
      Spec.AppendNone(base, id);
      var last := row.lastSequence;
      AppendEventTx(id, last, CodeCompleted(v), base, []);
      assert [] + [CodeCompleted(v)] == lead;
      last := last + 1;
      if description {
        AppendEventTx(id, last, DescriptionCompleted, base, lead);
        lead := lead + [DescriptionCompleted];
        last := last + 1;
      }
      AppendClosing(id, last, RunCompleted, base, lead);
      assert lead + [RunCompleted, Done] == Spec.CompletionEvents(v, description);
      UpdatedLast(base, id, row.(status := Completed, activeKey := None, version := Some(v)),
          Spec.CompletionEvents(v, description));
      UpdateRun(id, db.tables.runs[id].(status := Completed, activeKey := None, version := Some(v)));
    }

    // ---- creation -------------------------------------------------------------------------

    /** The lookups run first; the insert is refused by the unique indexes, and the lookups repeated. */
    method CreateRun(req: StartRequest) returns (outcome: Outcome)
      requires Valid()
      modifies db
      ensures Valid() && Spec.CreateRun(old(db.tables), req, Result(db.tables, outcome))
    {
      hide Inv;
      StepKeeps(db.tables, OpCreate(req));
      ValidUsers(db.tables, req);
      if exists r :: r in db.tables.runs && db.tables.runs[r].request.requestId == req.requestId {
        var existing :| existing in db.tables.runs && db.tables.runs[existing].request.requestId == req.requestId;
        return Spec.ReplayRun(db.tables, existing, req);
      }
      if exists r :: r in db.tables.runs && ActiveFor(db.tables, r, req) {
        var active :| active in db.tables.runs && ActiveFor(db.tables, active, req);
        return ActiveRun(active);
      }
      var id := db.tables.nextId;
      var ok := InsertRun(id, req);
      if !ok {
        var active :| active in db.tables.runs && db.tables.runs[active].activeKey == Some(req.app);
        return ActiveRun(active);
      }
      db.tables := db.tables.(nextId := id + 1);
      return Created(id);
    }

    /** The three inserts of a new run: the row under its unique keys, its first event, its start message. */
    method InsertRun(id: int, req: StartRequest) returns (ok: bool)
      requires Valid() && id == db.tables.nextId && !Spec.HasRequest(db.tables, req.requestId)
      modifies db
      ensures ok <==> !Spec.HasActive(old(db.tables), req.app)
      ensures db.tables == if ok then Spec.NewRun(old(db.tables), req).(nextId := id) else old(db.tables)
    {
      if exists r :: r in db.tables.runs && db.tables.runs[r].activeKey == Some(req.app) { return false; }
      assert (id, 1) !in db.tables.events && TaskReady(id) !in db.tables.outbox;
      hide Inv;
      UpdateRun(id, Run(req, Pending, Some(req.app), 1, None));
      CreateEvent(id, 1, RunCreated);
      CreateOutbox(TaskReady(id), Spec.StartMessage(id, db.tables.now));
      return true;
    }

    // ---- checkpoints ----------------------------------------------------------------------

    method CheckpointFence(app: int, c: Claim) returns (fenced: bool)
      ensures !fenced <==> c.app == app && Spec.ValidClaim(db.tables, c)
    {
      if c.app != app { return true; }
      if c.app !in db.tables.apps { return true; }
      var row := db.tables.apps[c.app];
      return !(row.owner == c.owner && row.epoch == c.epoch && row.leaseUntil > db.tables.now);
    }

    method SaveCheckpoint(id: int, c: Claim, cp: Checkpoint) returns (outcome: Outcome)
      requires Valid()
      modifies db
      ensures Valid() && Result(db.tables, outcome) == Spec.SaveCheckpoint(old(db.tables), id, c, cp)
    {
      hide Inv, Spec.Advance, Free, Spec.ValidClaim;
      StepKeeps(db.tables, OpSave(id, c, cp));
      if id !in db.tables.runs { return NotFound; }
      var run := db.tables.runs[id];
      if run.status != Running && run.status != Pausing { return InvalidControl; }
      var fenced := CheckpointFence(run.request.app, c);
      if fenced { return Fenced; }
      ValidIsFree(db.tables, id);
      db.tables := db.tables.(checkpoints := db.tables.checkpoints[id := cp]);
      Transition(id, run.lastSequence, run, CheckpointSaved);
      return Ok;
    }

    method UpdateBudget(id: int, c: Claim, used: Usage) returns (outcome: Outcome)
      requires Valid()
      modifies db
      ensures Valid() && Result(db.tables, outcome) == Spec.UpdateBudget(old(db.tables), id, c, used)
    {
      hide Inv, Spec.ValidClaim;
      StepKeeps(db.tables, OpBudget(id, c, used));
      if id !in db.tables.runs { return NotFound; }
      var run := db.tables.runs[id];
      if run.status != Running && run.status != Pausing { return InvalidControl; }
      var fenced := CheckpointFence(run.request.app, c);
      if fenced { return Fenced; }
      if id !in db.tables.checkpoints { return Ok; }
      var cp := db.tables.checkpoints[id];
      cp := cp.(budget := used);
      db.tables := db.tables.(checkpoints := db.tables.checkpoints[id := cp]);
      return Ok;
    }

    // ---- user control ---------------------------------------------------------------------

    /** Collects the column updates branch by branch, then writes them and logs the transition. */
    method Control(id: int, user: int, action: Spec.Action) returns (outcome: Outcome)
      requires Valid()
      modifies db
      ensures Valid() && Result(db.tables, outcome) == Spec.Control(old(db.tables), id, user, action)
    {
      hide Inv, Spec.Advance, Free;
      StepKeeps(db.tables, OpControl(id, user, action));
      if id !in db.tables.runs || db.tables.runs[id].request.user != user { return NotFound; }
      var run := db.tables.runs[id];
      var status := run.status;
      ValidIsFree(db.tables, id);
      match action {
        case Pause =>
          if status == Pausing || status == Paused { return Ok; }
          if status != Running { return InvalidControl; }
          Transition(id, run.lastSequence, run.(status := Pausing), RunControl(Pausing));
          return Ok;
        case Cancel => outcome := Cancel(id, run);
        case Reject => outcome := Cancel(id, run);
        case Approve(hash) =>
          if id !in db.tables.checkpoints { return InvalidControl; }
          var cp := db.tables.checkpoints[id];
          if hash == NoHash || hash != cp.planHash { return InvalidControl; }
          if (status == Pending || status == Running) && cp.approvedHash == hash { return Ok; }
          if status != AwaitingApproval { return InvalidControl; }
          cp := cp.(approvedHash := hash);
          outcome := Requeue(id, run, cp);
        case Resume =>
          if id !in db.tables.checkpoints { return InvalidControl; }
          if status == Pending { return Ok; }
          if status != Paused && status != Recoverable { return InvalidControl; }
          outcome := Requeue(id, run, db.tables.checkpoints[id]);
        case Unknown => return InvalidControl;
      }
    }

    method Cancel(id: int, run: Run) returns (outcome: Outcome)
      requires id in db.tables.runs && run == db.tables.runs[id]
      requires Free(db.tables.events, db.tables.outbox, id, run.lastSequence)
      modifies db
      ensures Result(db.tables, outcome) == Spec.Stop(old(db.tables), id)
    {
      hide Spec.Advance, Spec.AppendAll, Free;
      if run.status == Canceled || run.status == Cancelling { return Ok; }
      if Terminal(run.status) { return InvalidControl; }
      if run.status == Running || run.status == Pausing {
        Transition(id, run.lastSequence, run.(status := Cancelling), RunControl(Cancelling));
        return Ok;
      }
      CancelNow(id, run);
      return Ok;
    }

    method CancelNow(id: int, run: Run)
      requires id in db.tables.runs && run == db.tables.runs[id]
      requires Free(db.tables.events, db.tables.outbox, id, run.lastSequence)
      modifies db
      ensures db.tables == Spec.Advance(old(db.tables), id, run.(status := Canceled, activeKey := None),
          [RunControl(Canceled), Done])
    {
      UpdateRun(id, run.(status := Canceled, activeKey := None));
      ghost var base := db.tables;
      Spec.AppendNone(base, id);
      hide Spec.AppendAll, Free;
      AppendClosing(id, run.lastSequence, RunControl(Canceled), base, []);
      assert [] + [RunControl(Canceled), Done] == [RunControl(Canceled), Done];
    }

    /** Back to pending: the checkpoint, the start message and the row, if no other run is live. */
    method Requeue(id: int, run: Run, cp: Checkpoint) returns (outcome: Outcome)
      requires Valid() && id in db.tables.runs && run == db.tables.runs[id]
      modifies db
      ensures Result(db.tables, outcome) == Spec.Requeue(old(db.tables), id, cp)
    {
      var before := db.tables;
      if cp.state == [] || cp.snapshotPath == "" { return InvalidControl; }
      ValidIsFree(before, id);
      assert TaskResume(before.nextId) !in before.outbox;
      hide Inv, Spec.Advance;
      db.tables := db.tables.(checkpoints := db.tables.checkpoints[id := cp]);
      CreateOutbox(TaskResume(before.nextId), Spec.StartMessage(id, db.tables.now));
      db.tables := db.tables.(nextId := before.nextId + 1);
      assert db.tables == Spec.RequeueBase(before, id, cp);
      if exists r :: r in before.runs && r != id && before.runs[r].activeKey == Some(run.request.app) {
        db.tables := before;
        return Refused;
      }
      assert Free(db.tables.events, db.tables.outbox, id, run.lastSequence);
      hide Free, Spec.RequeueBase;
      Transition(id, run.lastSequence, run.(status := Pending, activeKey := Some(run.request.app)),
          RunControl(Pending));
      return Ok;
    }

    // ---- outbox ---------------------------------------------------------------------------

    /** The oldest of the given messages. */
    method Earliest(keys: set<OutboxKey>) returns (first: OutboxKey)
      requires keys != {} && keys <= db.tables.outbox.Keys
      ensures first in keys
      ensures forall key :: key in keys ==> db.tables.outbox[first].created <= db.tables.outbox[key].created
    {
      first :| first in keys;
      var rest := keys - {first};
      while rest != {}
        invariant rest <= keys && first in keys
        invariant forall key :: key in keys - rest ==> db.tables.outbox[first].created <= db.tables.outbox[key].created
        decreases |rest|
      {
        var key :| key in rest;
        rest := rest - {key};
        if db.tables.outbox[key].created < db.tables.outbox[first].created {
          first := key;
        }
      }
    }

    /** Due messages, oldest first. */
    method FindDue(limit: nat) returns (rows: seq<OutboxKey>)
      ensures |rows| <= limit && Distinct(rows)
      ensures forall key :: key in rows ==> Spec.Due(db.tables, key)
      ensures |rows| < limit ==> forall key :: Spec.Due(db.tables, key) ==> key in rows
      ensures OldestFirst(db.tables, rows)
    {
      var left := set key | key in db.tables.outbox && Spec.Due(db.tables, key);
      rows := [];
      while left != {} && |rows| < limit
        invariant |rows| <= limit && Distinct(rows)
        invariant forall key :: Spec.Due(db.tables, key) <==> key in rows || key in left
        invariant forall key :: key in rows ==> key !in left
        invariant OldestFirst(db.tables, rows)
        decreases |left|
      {
        var key := Earliest(left);
        OldestAdds(db.tables, rows, key);
        left := left - {key};
        rows := rows + [key];
      }
    }

    /** Returns stale claims to the queue, then claims due messages one conditional update at a time. */
    method ClaimOutbox(limit: nat) returns (claimed: seq<OutboxKey>)
      requires Valid()
      modifies db
      ensures Valid() && db.tables == Claimed(Spec.ReclaimOutbox(old(db.tables)), claimed)
      ensures |claimed| <= limit && Distinct(claimed)
      ensures forall key :: key in claimed ==> Spec.Due(Spec.ReclaimOutbox(old(db.tables)), key)
      ensures |claimed| < limit ==> forall key :: Spec.Due(Spec.ReclaimOutbox(old(db.tables)), key) ==> key in claimed
      ensures OldestFirst(Spec.ReclaimOutbox(old(db.tables)), claimed)
    {
      hide Inv, Spec.Reclaimed;
      ghost var before := db.tables;
      db.tables := db.tables.(outbox :=
        map key | key in db.tables.outbox :: Spec.Reclaimed(db.tables.outbox[key], db.tables.now));
      var base := db.tables;
      hide Spec.ReclaimOutbox;
      var rows := FindDue(limit);
      hide OldestFirst;
      claimed := [];
      assert Claimed(base, []).outbox == base.outbox;
      assert forall i :: 0 <= i < |rows| ==> rows[i] in rows && Spec.Due(base, rows[i]);
      for i := 0 to |rows|
        invariant claimed == rows[..i]
        invariant db.tables == Claimed(base, claimed)
      {
        var row := db.tables.outbox[rows[i]];
        assert rows[i] !in rows[..i] && row == base.outbox[rows[i]];
        if row.status == Waiting {
          ClaimedNext(base, claimed, rows[i]);
          var taken := row.(status := Processing, claimedAt := Some(db.tables.now));
          db.tables := db.tables.(outbox := db.tables.outbox[rows[i] := taken]);
          claimed := claimed + [rows[i]];
        }
      }
      assert claimed == rows;
      ClaimedKeeps(before, claimed);
    }

    method MarkOutboxDelivered(key: OutboxKey)
      requires Valid()
      modifies db
      ensures Valid() && db.tables == Spec.MarkOutboxDelivered(old(db.tables), key)
    {
      hide Inv;
      StepKeeps(db.tables, OpDelivered(key));
      if key in db.tables.outbox {
        db.tables := db.tables.(outbox := db.tables.outbox[key := db.tables.outbox[key].(status := Delivered)]);
      }
    }

    method RetryOutbox(key: OutboxKey, attempts: int)
      requires Valid()
      modifies db
      ensures Valid() && db.tables == Spec.RetryOutbox(old(db.tables), key, attempts)
    {
      hide Inv;
      StepKeeps(db.tables, OpRetry(key, attempts));
      var delay := attempts * attempts * 1000;
      if delay > 60000 { delay := 60000; }
      if key in db.tables.outbox {
        var row := db.tables.outbox[key];
        db.tables := db.tables.(outbox := db.tables.outbox[key :=
          row.(status := Waiting, attempts := attempts, nextAttempt := db.tables.now + delay, claimedAt := None)]);
      }
    }

    // ---- restart --------------------------------------------------------------------------

    method FindStale() returns (rows: seq<int>)
      ensures Spec.StaleOrder(db.tables, rows)
    {
      var left := set r | r in db.tables.runs && Spec.Stale(db.tables.runs[r].status);
      rows := [];
      while exists r :: r in left
        invariant Distinct(rows)
        invariant forall r :: r in db.tables.runs && Spec.Stale(db.tables.runs[r].status) <==> r in rows || r in left
        invariant forall r :: r in rows ==> r !in left
        decreases |left|
      {
        var r :| r in left;
        left := left - {r};
        rows := rows + [r];
      }
    }

    /** One stale run, from the row as it was read at the start. */
    method InterruptOne(id: int, row: Run)
      requires Valid() && id in db.tables.runs && row == db.tables.runs[id] && Spec.Stale(row.status)
      modifies db
      ensures db.tables == Spec.InterruptRun(old(db.tables), id)
    {
      ValidIsFree(db.tables, id);
      hide Inv, Spec.Advance, Free;
      if id in db.tables.checkpoints && row.status != Cancelling {
        Transition(id, row.lastSequence, row.(status := Recoverable), RunSuspended(Recoverable));
        return;
      }
      var terminal, closing := Interrupted, RunFailed(Interrupted);
      if row.status == Cancelling {
        terminal, closing := Canceled, RunCanceled;
      }
      Finish(id, row, terminal != Canceled, closing, terminal);
    }

    /** What a restarted process does with the runs its predecessor left behind. */
    method InterruptStale() returns (order: seq<int>)
      requires Valid()
      modifies db
      ensures Valid() && Spec.StaleOrder(old(db.tables), order)
      ensures db.tables == Spec.InterruptStale(old(db.tables), order)
    {
      hide Inv, Spec.InterruptRun, Spec.InterruptRuns;
      var before := db.tables;
      order := FindStale();
      InterruptNone(before);
      for i := 0 to |order|
        invariant Valid() && db.tables == Spec.InterruptRuns(before, order[..i])
      {
        var id := order[i];
        assert order[..i + 1] == order[..i] + [id];
        InterruptRunsNext(before, order[..i], id);
        StoppedRun(before, order[..i], id);
        InterruptRunsSound(before, order[..i + 1]);
        InterruptOne(id, before.runs[id]);
      }
      assert order[..|order|] == order;
      StepKeeps(before, OpRestart(order));
      db.tables := db.tables.(outbox := map key | key in db.tables.outbox :: Spec.Abandoned(db.tables.outbox[key]));
    }
  }
}
