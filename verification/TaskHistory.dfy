/** Every run of the system: sequences of store transactions in any order, from any callers. */
module TaskHistory {
  import opened TaskTypes
  import opened TaskTransactions
  import opened TaskInvariants

  datatype Op =
    | OpCreate(request: StartRequest)
    | OpMarkRunning(id: int)
    | OpAppend(id: int, kind: string)
    | OpComplete(id: int, completion: Completion)
    | OpFail(id: int, interrupted: bool)
    | OpSuspend(id: int, status: Status)
    | OpControl(id: int, user: int, action: Action)
    | OpSave(id: int, claim: Claim, checkpoint: Checkpoint)
    | OpBudget(id: int, claim: Claim, used: Usage)
    | OpReclaimOutbox
    | OpClaimOutbox(key: OutboxKey)
    | OpDelivered(key: OutboxKey)
    | OpRetry(key: OutboxKey, attempts: int)
    | OpRestart(order: seq<int>)
    | OpClaim(app: int, owner: string, ttl: int)
    | OpRenew(claim: Claim, ttl: int)
    | OpRelease(claim: Claim)
    | OpPublish(publication: Publication)
    | OpRestore(publication: Publication)
    | OpRegister(claim: Claim, path: string, hash: string)
    | OpTick(elapsed: nat)

  /** The committed effect of one transaction; a refused one leaves the tables alone. */
  function Apply(db: Db, op: Op): Db {
    match op
    case OpCreate(req) => if HasRequest(db, req.requestId) || HasActive(db, req.app) then db else NewRun(db, req)
    case OpMarkRunning(id) => MarkRunning(db, id).db
    case OpAppend(id, kind) => AppendEvent(db, id, kind).db
    case OpComplete(id, c) => Complete(db, id, c).db
    case OpFail(id, interrupted) => Fail(db, id, interrupted).db
    case OpSuspend(id, status) => Suspend(db, id, status).db
    case OpControl(id, user, action) => Control(db, id, user, action).db
    case OpSave(id, c, cp) => SaveCheckpoint(db, id, c, cp).db
    case OpBudget(id, c, used) => UpdateBudget(db, id, c, used).db
    case OpReclaimOutbox => ReclaimOutbox(db)
    case OpClaimOutbox(key) => ClaimOutboxRow(db, key)
    case OpDelivered(key) => MarkOutboxDelivered(db, key)
    case OpRetry(key, attempts) => RetryOutbox(db, key, attempts)
    case OpRestart(order) => InterruptStale(db, order)
    case OpClaim(app, owner, ttl) => ClaimApp(db, app, owner, ttl).db
    case OpRenew(c, ttl) => Renew(db, c, ttl).db
    case OpRelease(c) => Release(db, c).db
    case OpPublish(p) => Publish(db, p).db
    case OpRestore(p) => PublishRestoration(db, p).db
    case OpRegister(c, path, hash) => RegisterSnapshot(db, c, path, hash).db
    case OpTick(d) => db.(now := db.now + d)
  }

  function After(db: Db, ops: seq<Op>): Db {
    if ops == [] then db else Apply(After(db, ops[..|ops| - 1]), ops[|ops| - 1])
  }

  /** Nothing stored is rewritten: logs only grow, finished runs are final, versions keep their owner. */
  ghost predicate Extends(db: Db, after: Db) {
    && (forall r :: r in db.runs ==>
          && r in after.runs
          && after.runs[r].request == db.runs[r].request
          && after.runs[r].lastSequence >= db.runs[r].lastSequence
          && (Terminal(db.runs[r].status) ==> after.runs[r] == db.runs[r]))
    && (forall key :: key in db.events ==> key in after.events && after.events[key] == db.events[key])
    && (forall v :: v in db.versions ==>
          && v in after.versions && after.versions[v].run == db.versions[v].run
          && after.versions[v].app == db.versions[v].app)
    && after.nextId >= db.nextId && after.now >= db.now
  }

  ghost predicate Moves(db: Db, after: Db) {
    forall r :: r in db.runs && r in after.runs && after.runs[r].status != db.runs[r].status ==>
      Successor(db.runs[r].status, after.runs[r].status)
  }

  ghost predicate Sound(db: Db, after: Db) {
    Inv(after) && Extends(db, after) && Moves(db, after)
  }

  // ---- the three shapes of a step ---------------------------------------------------------

  lemma FrameSound(db: Db, after: Db)
    requires Inv(db)
    requires after.runs == db.runs && after.events == db.events
    requires after.versions.Keys == db.versions.Keys
    requires forall v :: v in db.versions ==>
        after.versions[v].run == db.versions[v].run && after.versions[v].app == db.versions[v].app
    requires after.nextId >= db.nextId && after.now >= db.now && forall k :: k in after.checkpoints ==> k in db.runs
    requires forall k :: k in after.outbox ==> k in db.outbox || (k.TaskResume? && k.nonce < after.nextId)
    ensures Sound(db, after)
  {
    FrameKeepsInv(db, after);
    hide Inv;
  }

  /** Only delivery states, ownership rows, snapshot paths, stored checkpoints and the clock differ. */
  ghost predicate SideEffect(db: Db, after: Db) {
    && after.runs == db.runs && after.events == db.events && after.nextId == db.nextId && after.now >= db.now
    && after.outbox.Keys == db.outbox.Keys && after.checkpoints.Keys == db.checkpoints.Keys
         && SameOwners(db.versions, after.versions)
  }

  ghost predicate SameOwners(before: map<int, Version>, after: map<int, Version>) {
    && after.Keys == before.Keys
    && forall v :: v in before ==> after[v].run == before[v].run && after[v].app == before[v].app
  }

  lemma SideEffectSound(db: Db, after: Db)
    requires Inv(db) && SideEffect(db, after)
    ensures Sound(db, after)
  {
    assert forall k :: k in db.checkpoints ==> k in db.runs;
    hide Inv;
    FrameSound(db, after);
  }

  lemma AdvanceExtends(db: Db, base: Db, id: int, row: Run, evts: seq<EventType>)
    requires LogsNumbered(db.runs, db.events) && id in db.runs && !Terminal(db.runs[id].status)
    requires base.runs == db.runs && base.events == db.events && base.nextId >= db.nextId && base.now >= db.now
    requires forall v :: v in db.versions ==> v in base.versions && base.versions[v] == db.versions[v]
    requires row.lastSequence == db.runs[id].lastSequence && row.request == db.runs[id].request
    requires row.status == db.runs[id].status || Successor(db.runs[id].status, row.status)
    ensures Extends(db, Advance(base, id, row, evts)) && Moves(db, Advance(base, id, row, evts))
  {
    AdvanceFields(base, id, row, evts);
    hide AddMessages, Advance;
  }

  /** A legal move of one run, after side tables of the base changed. */
  lemma MoveSound(db: Db, base: Db, id: int, row: Run, evts: seq<EventType>)
    requires Inv(db) && Inv(base) && id in db.runs
    requires base.runs == db.runs && base.events == db.events && base.versions == db.versions
    requires base.nextId >= db.nextId && base.now == db.now
    requires LegalMove(db.runs[id], row, evts) && !row.status.Completed?
    requires row.status == db.runs[id].status || Successor(db.runs[id].status, row.status)
    ensures Sound(db, Advance(base, id, row, evts))
  {
    MoveKeepsInv(base, id, row, evts);
    assert row.lastSequence == db.runs[id].lastSequence && row.request == db.runs[id].request
        && !Terminal(db.runs[id].status);
    hide LegalMove, LogsFit, Advance;
    AdvanceExtends(db, base, id, row, evts);
    hide *;
    Combine(db, Advance(base, id, row, evts));
  }

  lemma Combine(db: Db, after: Db)
    requires Inv(after) && Extends(db, after) && Moves(db, after)
    ensures Sound(db, after)
  {
  }

  lemma StaySound(db: Db)
    requires Inv(db)
    ensures Sound(db, db)
  {
    hide Inv;
  }

  // ---- each transaction -------------------------------------------------------------------

  lemma LiveFacts(db: Db, id: int)
    requires Inv(db) && id in db.runs
    ensures db.runs[id].activeKey == (if Terminal(db.runs[id].status) then None else Some(db.runs[id].request.app))
    ensures db.runs[id].version.Some? <==> db.runs[id].status.Completed?
  {
    assert LogFits(Log(db.runs, db.events, id), db.runs[id]);
  }

  lemma OneEventLegal(before: Run, status: Status, e: EventType)
    requires !Terminal(before.status) && !Terminal(status) && before.activeKey == Some(before.request.app)
    requires before.version.None?
    requires !e.Done? && !e.CodeCompleted?
    requires if StatusOf(e).Some? then StatusOf(e) == Some(status) && Successor(before.status, status)
             else status == before.status
    ensures LegalMove(before, before.(status := status), [e])
    ensures LegalMove(before, before.(status := status, activeKey := Some(before.request.app)), [e])
  {
    assert Replay([e]) == StatusOf(e);
  }

  lemma FinalEventsLegal(before: Run, status: Status, e: EventType, error: bool)
    requires !Terminal(before.status) && Terminal(status) && !status.Completed? && before.version.None?
    requires !e.Done? && !e.CodeCompleted? && StatusOf(e) == Some(status) && Successor(before.status, status)
    ensures LegalMove(before, before.(status := status, activeKey := None), if error then [ErrorRaised, e, Done]
        else [e, Done])
  {
    var evts := if error then [ErrorRaised, e, Done] else [e, Done];
    var front := evts[..|evts| - 1];
    assert front[|front| - 1] == e;
    assert Replay(evts) == Replay(front) == Some(status);
    assert Replay([]).None? && Replay([ErrorRaised]).None?;
    assert error ==> evts[..1] == [ErrorRaised];
  }

  lemma NewRunExtends(db: Db, req: StartRequest)
    requires LogsNumbered(db.runs, db.events) && db.nextId !in db.runs
    ensures Extends(db, NewRun(db, req)) && Moves(db, NewRun(db, req))
  {
  }

  lemma CreateSound(db: Db, req: StartRequest)
    requires Inv(db)
    ensures Sound(db, Apply(db, OpCreate(req)))
  {
    hide LogsFit, LogsNumbered, VersionsOwned, UniqueKeys, HasRequest, HasActive, Extends, Moves;
    if HasRequest(db, req.requestId) || HasActive(db, req.app) {
      StaySound(db);
    } else {
      assert db.nextId !in db.runs;
      hide IdsIssued;
      NewRunKeepsInv(db, req);
      NewRunExtends(db, req);
    }
  }

  lemma MarkRunningSound(db: Db, id: int)
    requires Inv(db)
    ensures Sound(db, MarkRunning(db, id).db)
  {
    StaySound(db);
    if id in db.runs && db.runs[id].status.Pending? {
      LiveFacts(db, id);
      hide Inv, Advance, LegalMove, Sound;
      OneEventLegal(db.runs[id], Running, RunStarted);
      MoveSound(db, db, id, db.runs[id].(status := Running), [RunStarted]);
    }
  }

  lemma AppendSound(db: Db, id: int, kind: string)
    requires Inv(db)
    ensures Sound(db, AppendEvent(db, id, kind).db)
  {
    StaySound(db);
    if id in db.runs && Executing(db.runs[id].status) {
      LiveFacts(db, id);
      hide Inv, Advance, LegalMove, Sound;
      OneEventLegal(db.runs[id], db.runs[id].status, Semantic(kind));
      MoveSound(db, db, id, db.runs[id], [Semantic(kind)]);
    }
  }

  lemma SuspendSound(db: Db, id: int, status: Status)
    requires Inv(db)
    ensures Sound(db, Suspend(db, id, status).db)
  {
    StaySound(db);
    if id in db.runs && Executing(db.runs[id].status) && (status.Paused? || status.AwaitingApproval?) {
      LiveFacts(db, id);
      hide Inv, Advance, LegalMove, Sound;
      OneEventLegal(db.runs[id], status, RunSuspended(status));
      MoveSound(db, db, id, db.runs[id].(status := status), [RunSuspended(status)]);
    }
  }

  lemma CompletedExtends(db: Db, apps: map<int, AppExecution>, version: Version, id: int, evts: seq<EventType>)
    requires LogsNumbered(db.runs, db.events) && id in db.runs && db.runs[id].status.Running?
    requires db.nextId !in db.versions
    ensures Extends(db, Advance(Published(db, apps, version), id, CompletedRow(db, id), evts))
    ensures Moves(db, Advance(Published(db, apps, version), id, CompletedRow(db, id), evts))
  {
    hide LogsNumbered, Advance, Extends, Moves;
    AdvanceExtends(db, Published(db, apps, version), id, CompletedRow(db, id), evts);
  }

  lemma InvFacts(db: Db)
    requires Inv(db)
    ensures LogsNumbered(db.runs, db.events) && db.nextId !in db.versions
  {
  }

  lemma CompleteSound(db: Db, id: int, c: Completion)
    requires Inv(db)
    ensures Sound(db, Complete(db, id, c).db)
  {
    hide *;
    CompleteKeepsInv(db, id, c);
    if Complete(db, id, c).db == db {
      StaySound(db);
    } else {
      InvFacts(db);
      var apps := CompleteShape(db, id, c);
      CompletedExtends(db, apps, VersionRow(db, id, c), id, CompletionEvents(db.nextId, c.description));
      Combine(db, Complete(db, id, c).db);
    }
  }

  lemma FailSound(db: Db, id: int, interrupted: bool)
    requires Inv(db)
    ensures Sound(db, Fail(db, id, interrupted).db)
  {
    StaySound(db);
    if id in db.runs && !Terminal(db.runs[id].status) && !Stopped(db.runs[id].status) {
      var row := db.runs[id];
      LiveFacts(db, id);
      hide Inv, Advance, LegalMove, Sound;
      if row.status.Cancelling? {
        FinalEventsLegal(row, Canceled, RunCanceled, false);
        MoveSound(db, db, id, row.(status := Canceled, activeKey := None), [RunCanceled, Done]);
      } else if interrupted && id in db.checkpoints {
        OneEventLegal(row, Recoverable, RunSuspended(Recoverable));
        MoveSound(db, db, id, row.(status := Recoverable), [RunSuspended(Recoverable)]);
      } else {
        var status := if interrupted then Interrupted else Failed;
        FinalEventsLegal(row, status, RunFailed(status), true);
        MoveSound(db, db, id, row.(status := status, activeKey := None), [ErrorRaised, RunFailed(status), Done]);
      }
    }
  }

  lemma SaveSound(db: Db, id: int, c: Claim, cp: Checkpoint)
    requires Inv(db)
    ensures Sound(db, SaveCheckpoint(db, id, c, cp).db)
  {
    StaySound(db);
    if SaveCheckpoint(db, id, c, cp).outcome.Ok? {
      LiveFacts(db, id);
      var base := db.(checkpoints := db.checkpoints[id := cp]);
      FrameKeepsInv(db, base) by { assert forall k :: k in db.checkpoints ==> k in db.runs; }
      OneEventLegal(db.runs[id], db.runs[id].status, CheckpointSaved);
      hide Inv, Advance, LegalMove, Sound;
      MoveSound(db, base, id, db.runs[id], [CheckpointSaved]);
    }
  }

  lemma StopSound(db: Db, id: int)
    requires Inv(db) && id in db.runs
    ensures Sound(db, Stop(db, id).db)
  {
    StaySound(db);
    var row := db.runs[id];
    LiveFacts(db, id);
    hide Inv, Advance, LegalMove, Sound;
    if Executing(row.status) {
      OneEventLegal(row, Cancelling, RunControl(Cancelling));
      MoveSound(db, db, id, row.(status := Cancelling), [RunControl(Cancelling)]);
    } else if !Terminal(row.status) && !row.status.Cancelling? {
      FinalEventsLegal(row, Canceled, RunControl(Canceled), false);
      MoveSound(db, db, id, row.(status := Canceled, activeKey := None), [RunControl(Canceled), Done]);
    }
  }

  lemma RequeueBaseInv(db: Db, id: int, cp: Checkpoint)
    requires Inv(db) && id in db.runs
    ensures Inv(RequeueBase(db, id, cp))
  {
    assert forall k :: k in db.checkpoints ==> k in db.runs;
    hide Inv;
    FrameKeepsInv(db, RequeueBase(db, id, cp));
  }

  lemma RequeueMoveSound(db: Db, id: int, cp: Checkpoint)
    requires Inv(db) && id in db.runs && Stopped(db.runs[id].status)
    ensures Sound(db, Advance(RequeueBase(db, id, cp), id,
        db.runs[id].(status := Pending, activeKey := Some(db.runs[id].request.app)), [RunControl(Pending)]))
  {
    LiveFacts(db, id);
    RequeueBaseInv(db, id, cp);
    hide Inv, Advance, LegalMove, Sound, StartMessage;
    OneEventLegal(db.runs[id], Pending, RunControl(Pending));
    MoveSound(db, RequeueBase(db, id, cp), id,
        db.runs[id].(status := Pending, activeKey := Some(db.runs[id].request.app)), [RunControl(Pending)]);
  }

  lemma RequeueSound(db: Db, id: int, cp: Checkpoint)
    requires Inv(db) && id in db.runs && Stopped(db.runs[id].status)
    ensures Sound(db, Requeue(db, id, cp).db)
  {
    StaySound(db);
    RequeueMoveSound(db, id, cp);
    hide Inv, Sound, Advance, RequeueBase, KeyHeldByOther;
  }

  lemma PauseSound(db: Db, id: int)
    requires Inv(db) && id in db.runs && db.runs[id].status.Running?
    ensures Sound(db, Advance(db, id, db.runs[id].(status := Pausing), [RunControl(Pausing)]))
  {
    LiveFacts(db, id);
    hide Inv, Advance, LegalMove, Sound;
    OneEventLegal(db.runs[id], Pausing, RunControl(Pausing));
    MoveSound(db, db, id, db.runs[id].(status := Pausing), [RunControl(Pausing)]);
  }

  lemma ControlSound(db: Db, id: int, user: int, action: Action)
    requires Inv(db)
    ensures Sound(db, Control(db, id, user, action).db)
  {
    hide Inv, Sound, Stop, Requeue, Advance;
    StaySound(db);
    if id in db.runs {
      match action {
        case Pause => if db.runs[id].status.Running? { PauseSound(db, id); }
        case Cancel => StopSound(db, id);
        case Reject => StopSound(db, id);
        case Approve(hash) =>
          if db.runs[id].status.AwaitingApproval? && id in db.checkpoints {
            RequeueSound(db, id, db.checkpoints[id].(approvedHash := hash));
          }
        case Resume =>
          if Stopped(db.runs[id].status) && id in db.checkpoints { RequeueSound(db, id, db.checkpoints[id]); }
        case Unknown =>
      }
    }
  }

  lemma OutboxSideEffects(db: Db, key: OutboxKey)
    ensures SideEffect(db, ReclaimOutbox(db)) && SideEffect(db, ClaimOutboxRow(db, key))
    ensures SideEffect(db, MarkOutboxDelivered(db, key))
  {
    hide LostAckMs, Reclaimed;
  }

  lemma RetrySideEffect(db: Db, key: OutboxKey, attempts: int)
    ensures SideEffect(db, RetryOutbox(db, key, attempts))
  {
    hide RetryDelay;
  }

  lemma ClaimSideEffect(db: Db, app: int, owner: string, ttl: int)
    ensures SideEffect(db, ClaimApp(db, app, owner, ttl).db)
  {
  }

  lemma RenewSideEffect(db: Db, c: Claim, ttl: int)
    ensures SideEffect(db, Renew(db, c, ttl).db)
  {
    hide ValidClaim;
  }

  lemma ReleaseSideEffect(db: Db, c: Claim)
    ensures SideEffect(db, Release(db, c).db)
  {
  }

  lemma RegisterSideEffect(db: Db, c: Claim, path: string, hash: string)
    ensures SideEffect(db, RegisterSnapshot(db, c, path, hash).db)
  {
    hide ValidClaim;
  }

  lemma TickSideEffect(db: Db, d: nat)
    ensures SideEffect(db, db.(now := db.now + d))
  {
  }

  lemma BudgetSideEffect(db: Db, id: int, c: Claim, used: Usage)
    ensures SideEffect(db, UpdateBudget(db, id, c, used).db)
  {
    hide ValidClaim;
  }

  /** A version published outside a run carries a key no run has. */
  lemma ForeignVersion(runs: Runs, versions: map<int, Version>, v: int, version: Version)
    requires VersionsOwned(runs, versions) && v !in versions && v !in runs && version.run == v
    requires forall r :: r in runs && runs[r].version.Some? ==> runs[r].version != Some(v)
    ensures VersionsOwned(runs, versions[v := version])
  {
  }

  lemma PublishKeepsInv(db: Db, apps: map<int, AppExecution>, version: Version)
    requires Inv(db) && version.run == db.nextId
    ensures Sound(db, db.(apps := apps, versions := db.versions[db.nextId := version], nextId := db.nextId + 1))
  {
    VersionIssued(db, version);
    ForeignVersion(db.runs, db.versions, db.nextId, version);
    hide LogsNumbered, LogsFit, UniqueKeys, VersionsOwned, IdsIssued;
  }

  lemma PublishSound(db: Db, p: Publication)
    requires Inv(db)
    ensures Sound(db, Publish(db, p).db)
  {
    hide Inv, Sound, ValidClaim, RunHasVersion;
    StaySound(db);
    PublishKeepsInv(db, PublishTx(db, p, db.nextId, true).db.apps,
        Version(db.nextId, p.claim.app, p.path, p.contentHash, p.restoredFrom));
  }

  // ---- restart ----------------------------------------------------------------------------

  lemma InterruptSound(db: Db, id: int)
    requires Inv(db) && id in db.runs && Stale(db.runs[id].status)
    ensures Sound(db, InterruptRun(db, id))
  {
    var row := db.runs[id];
    LiveFacts(db, id);
    hide Inv, LegalMove, Sound, Advance;
    if row.status.Cancelling? {
      FinalEventsLegal(row, Canceled, RunCanceled, false);
      MoveSound(db, db, id, row.(status := Canceled, activeKey := None), [RunCanceled, Done]);
    } else if id in db.checkpoints {
      OneEventLegal(row, Recoverable, RunSuspended(Recoverable));
      MoveSound(db, db, id, row.(status := Recoverable), [RunSuspended(Recoverable)]);
    } else {
      FinalEventsLegal(row, Interrupted, RunFailed(Interrupted), true);
      MoveSound(db, db, id, row.(status := Interrupted, activeKey := None),
          [ErrorRaised, RunFailed(Interrupted), Done]);
    }
  }

  lemma InterruptOne(db: Db, id: int)
    requires id in db.runs && Stale(db.runs[id].status)
    ensures id in InterruptRun(db, id).runs && !Stale(InterruptRun(db, id).runs[id].status)
    ensures InterruptRun(db, id).runs == db.runs[id := InterruptRun(db, id).runs[id]]
  {
    hide AddEvents, AddMessages;
  }

  lemma ExtendsTransitive(a: Db, b: Db, c: Db)
    requires Extends(a, b) && Extends(b, c)
    ensures Extends(a, c)
  {
  }

  /** Restart handles each stale run of the order once and leaves every other run as it was. */
  ghost predicate StoppedInOrder(db: Db, after: Db, order: seq<int>) {
    && after.runs.Keys == db.runs.Keys
    && forall r :: r in db.runs ==>
         if r in order && Stale(db.runs[r].status)
         then !Stale(after.runs[r].status) && Successor(db.runs[r].status, after.runs[r].status)
         else after.runs[r] == db.runs[r]
  }

  lemma InterruptedExtends(db: Db, mid: Db, after: Db, front: seq<int>, id: int)
    requires StoppedInOrder(db, mid, front)
    requires id in mid.runs && Stale(mid.runs[id].status) ==>
      && id in after.runs && after.runs == mid.runs[id := after.runs[id]] && !Stale(after.runs[id].status)
      && Successor(mid.runs[id].status, after.runs[id].status)
    requires !(id in mid.runs && Stale(mid.runs[id].status)) ==> after == mid
    ensures StoppedInOrder(db, after, front + [id])
  {
  }

  lemma InterruptStep(db: Db, mid: Db, front: seq<int>, id: int)
    requires Inv(mid) && Extends(db, mid) && StoppedInOrder(db, mid, front) && id in mid.runs
    requires Stale(mid.runs[id].status)
    ensures Inv(InterruptRun(mid, id)) && Extends(db, InterruptRun(mid, id))
    ensures StoppedInOrder(db, InterruptRun(mid, id), front + [id])
  {
    InterruptSound(mid, id);
    InterruptOne(mid, id);
    assert Successor(mid.runs[id].status, InterruptRun(mid, id).runs[id].status) by { hide Extends, Inv, InterruptRun; }
    hide Inv, InterruptRun;
    ExtendsTransitive(db, mid, InterruptRun(mid, id));
    hide Extends, StoppedInOrder;
    InterruptedExtends(db, mid, InterruptRun(mid, id), front, id);
  }

  lemma {:induction false} InterruptRunsSound(db: Db, order: seq<int>)
    requires Inv(db)
    ensures Inv(InterruptRuns(db, order)) && Extends(db, InterruptRuns(db, order))
    ensures StoppedInOrder(db, InterruptRuns(db, order), order)
    decreases |order|
  {
    if order == [] {
      StaySound(db);
    } else {
      hide Inv, Extends, InterruptRun, StoppedInOrder;
      var front, id := order[..|order| - 1], order[|order| - 1];
      assert front + [id] == order;
      InterruptRunsSound(db, front);
      var mid := InterruptRuns(db, front);
      if id in mid.runs && Stale(mid.runs[id].status) {
        InterruptStep(db, mid, front, id);
      } else {
        InterruptedExtends(db, mid, mid, front, id);
      }
    }
  }

  lemma RestartSound(db: Db, order: seq<int>)
    requires Inv(db)
    ensures Sound(db, InterruptStale(db, order))
  {
    InterruptRunsSound(db, order);
    var mid := InterruptRuns(db, order);
    hide Inv, InterruptRuns;
    SideEffectSound(mid, InterruptStale(db, order));
    assert Moves(db, InterruptStale(db, order));
    hide StoppedInOrder;
    ExtendsTransitive(db, mid, InterruptStale(db, order));
  }

  /** After a restart no run is left in a state only a live process can serve. */
  lemma RestartLeavesNothingStale(db: Db, order: seq<int>)
    requires Inv(db) && StaleOrder(db, order)
    ensures forall r :: r in InterruptStale(db, order).runs ==> !Stale(InterruptStale(db, order).runs[r].status)
  {
    InterruptRunsSound(db, order);
    hide Inv, InterruptRuns;
  }

  // ---- theorems over whole histories ------------------------------------------------------

  lemma RunStepSound(db: Db, op: Op)
    requires Inv(db)
    requires (op.OpCreate? || op.OpMarkRunning? || op.OpAppend? || op.OpComplete? || op.OpFail? || op.OpSuspend?
        || op.OpControl? || op.OpSave? || op.OpRestart? || op.OpPublish? || op.OpRestore?)
    ensures Sound(db, Apply(db, op))
  {
    hide Inv, Sound, MarkRunning, AppendEvent, Complete, Fail, Suspend, Control, SaveCheckpoint, InterruptStale;
    hide Publish;
    match op
    case OpCreate(req) => CreateSound(db, req);
    case OpMarkRunning(id) => MarkRunningSound(db, id);
    case OpAppend(id, kind) => AppendSound(db, id, kind);
    case OpComplete(id, c) => CompleteSound(db, id, c);
    case OpFail(id, interrupted) => FailSound(db, id, interrupted);
    case OpSuspend(id, status) => SuspendSound(db, id, status);
    case OpControl(id, user, action) => ControlSound(db, id, user, action);
    case OpSave(id, c, cp) => SaveSound(db, id, c, cp);
    case OpRestart(order) => RestartSound(db, order);
    case OpPublish(p) => PublishSound(db, p);
    case OpRestore(p) => StaySound(db); PublishSound(db, p);
  }

  lemma SideStep(db: Db, op: Op)
    requires op.OpBudget? || op.OpReclaimOutbox? || op.OpClaimOutbox? || op.OpDelivered? || op.OpRetry?
      || op.OpClaim? || op.OpRenew? || op.OpRelease? || op.OpRegister? || op.OpTick?
    ensures SideEffect(db, Apply(db, op))
  {
    hide SideEffect, UpdateBudget, ReclaimOutbox, ClaimOutboxRow, MarkOutboxDelivered, RetryOutbox, ClaimApp, Renew;
    hide Release, RegisterSnapshot;
    match op
    case OpBudget(id, c, used) => BudgetSideEffect(db, id, c, used);
    case OpReclaimOutbox => OutboxSideEffects(db, TaskReady(0));
    case OpClaimOutbox(key) => OutboxSideEffects(db, key);
    case OpDelivered(key) => OutboxSideEffects(db, key);
    case OpRetry(key, attempts) => RetrySideEffect(db, key, attempts);
    case OpClaim(app, owner, ttl) => ClaimSideEffect(db, app, owner, ttl);
    case OpRenew(c, ttl) => RenewSideEffect(db, c, ttl);
    case OpRelease(c) => ReleaseSideEffect(db, c);
    case OpRegister(c, path, hash) => RegisterSideEffect(db, c, path, hash);
    case OpTick(d) => TickSideEffect(db, d);
  }

  /** Every transaction keeps the invariant, rewrites nothing, and follows the run machine. */
  lemma StepSound(db: Db, op: Op)
    requires Inv(db)
    ensures Sound(db, Apply(db, op))
  {
    hide *;
    if op.OpCreate? || op.OpMarkRunning? || op.OpAppend? || op.OpComplete? || op.OpFail? || op.OpSuspend?
        || op.OpControl? || op.OpSave? || op.OpRestart? || op.OpPublish? || op.OpRestore? {
      RunStepSound(db, op);
    } else {
      SideStep(db, op);
      SideEffectSound(db, Apply(db, op));
    }
  }

  lemma {:induction false} HistorySound(db: Db, ops: seq<Op>)
    requires Inv(db)
    ensures Inv(After(db, ops)) && Extends(db, After(db, ops))
    decreases |ops|
  {
    if ops == [] {
      StaySound(db);
    } else {
      var mid := After(db, ops[..|ops| - 1]);
      HistorySound(db, ops[..|ops| - 1]);
      StepSound(mid, ops[|ops| - 1]);
      hide Apply, Inv;
      ExtendsTransitive(db, mid, After(db, ops));
    }
  }

  lemma EmptyIsSound()
    ensures Inv(EmptyDb)
  {
  }
}
