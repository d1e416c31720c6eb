/** When an outbox message is due: never before its time, always at it, and again after a worker was lost. */
module Outbox {
  import opened TaskTypes
  import opened TaskTransactions
  import opened TaskInvariants
  import opened TaskHistory
  import opened Causes

  /** The operation neither claims, settles nor retries the message, and is no restart. */
  predicate Leaves(op: Op, key: OutboxKey) {
    && (op.OpClaimOutbox? || op.OpDelivered? || op.OpRetry? ==> op.key != key)
    && !op.OpRestart?
  }

  predicate Left(ops: seq<Op>, key: OutboxKey) {
    forall i :: 0 <= i < |ops| ==> Leaves(ops[i], key)
  }

  /** The row with its key, if it is stored and not in the future of its log. */
  ghost predicate Known(db: Db, key: OutboxKey) {
    && key in db.outbox
    && (key.RunEvent? ==> key.run in db.runs && key.sequence <= db.runs[key.run].lastSequence)
    && (key.TaskReady? ==> key.run in db.runs)
    && (key.TaskResume? ==> key.nonce < db.nextId)
  }

  lemma StoredIsKnown(db: Db, key: OutboxKey)
    requires Inv(db) && key in db.outbox
    ensures Known(db, key)
  {
    hide LogsNumbered, LogsFit, VersionsOwned, UniqueKeys;
  }

  lemma AdvanceKeepsRow(base: Db, id: int, row: Run, evts: seq<EventType>, key: OutboxKey)
    requires id in base.runs && row.lastSequence == base.runs[id].lastSequence && Known(base, key)
    ensures key in Advance(base, id, row, evts).outbox
    ensures Advance(base, id, row, evts).outbox[key] == base.outbox[key]
  {
    AdvanceFields(base, id, row, evts);
    hide Advance;
  }

  predicate SameRow(db: Db, after: Db, key: OutboxKey)
    requires key in db.outbox
  {
    key in after.outbox && after.outbox[key] == db.outbox[key]
  }

  lemma StartKeepsRow(db: Db, op: Op, key: OutboxKey)
    requires Known(db, key) && (op.OpMarkRunning? || op.OpAppend? || op.OpSuspend? || op.OpSave?)
    ensures SameRow(db, Apply(db, op), key)
  {
    hide Advance, ValidClaim;
    match op
    case OpMarkRunning(id) =>
      if id in db.runs { AdvanceKeepsRow(db, id, db.runs[id].(status := Running), [RunStarted], key); }
    case OpAppend(id, kind) => if id in db.runs { AdvanceKeepsRow(db, id, db.runs[id], [Semantic(kind)], key); }
    case OpSuspend(id, status) =>
      if id in db.runs { AdvanceKeepsRow(db, id, db.runs[id].(status := status), [RunSuspended(status)], key); }
    case OpSave(id, c, cp) =>
      if id in db.runs {
        AdvanceKeepsRow(db.(checkpoints := db.checkpoints[id := cp]), id, db.runs[id], [CheckpointSaved], key);
      }
  }

  lemma FailKeepsRow(db: Db, id: int, interrupted: bool, key: OutboxKey)
    requires Known(db, key)
    ensures SameRow(db, Fail(db, id, interrupted).db, key)
  {
    if id in db.runs {
      var row := db.runs[id];
      AdvanceKeepsRow(db, id, row.(status := Canceled, activeKey := None), [RunCanceled, Done], key);
      AdvanceKeepsRow(db, id, row.(status := Recoverable), [RunSuspended(Recoverable)], key);
      var failed := if interrupted then Interrupted else Failed;
      AdvanceKeepsRow(db, id, row.(status := failed, activeKey := None), [ErrorRaised, RunFailed(failed), Done], key);
    }
    hide Advance, Known;
  }

  lemma StopKeepsRow(db: Db, id: int, key: OutboxKey)
    requires Known(db, key) && id in db.runs
    ensures SameRow(db, Stop(db, id).db, key)
  {
    var row := db.runs[id];
    AdvanceKeepsRow(db, id, row.(status := Cancelling), [RunControl(Cancelling)], key);
    AdvanceKeepsRow(db, id, row.(status := Canceled, activeKey := None), [RunControl(Canceled), Done], key);
    hide Advance, Known;
  }

  lemma RequeueKeepsRow(db: Db, id: int, cp: Checkpoint, key: OutboxKey)
    requires Known(db, key) && id in db.runs
    ensures SameRow(db, Requeue(db, id, cp).db, key)
  {
    var base := RequeueBase(db, id, cp);
    assert Known(base, key) && base.outbox[key] == db.outbox[key];
    AdvanceKeepsRow(base, id, db.runs[id].(status := Pending, activeKey := Some(db.runs[id].request.app)),
        [RunControl(Pending)], key);
    hide Advance, Known, RequeueBase, KeyHeldByOther;
  }

  lemma ControlKeepsRow(db: Db, id: int, user: int, action: Action, key: OutboxKey)
    requires Known(db, key)
    ensures SameRow(db, Control(db, id, user, action).db, key)
  {
    hide Stop, Requeue, Advance, SameRow;
    SameRowItself(db, key);
    if id in db.runs {
      PauseKeepsRow(db, id, key);
      StopKeepsRow(db, id, key);
      if id in db.checkpoints {
        RequeueKeepsRow(db, id, db.checkpoints[id], key);
        if action.Approve? { RequeueKeepsRow(db, id, db.checkpoints[id].(approvedHash := action.hash), key); }
      }
    }
    hide Known;
  }

  lemma SameRowItself(db: Db, key: OutboxKey)
    requires key in db.outbox
    ensures SameRow(db, db, key)
  {
  }

  lemma PauseKeepsRow(db: Db, id: int, key: OutboxKey)
    requires Known(db, key) && id in db.runs
    ensures SameRow(db, Advance(db, id, db.runs[id].(status := Pausing), [RunControl(Pausing)]), key)
  {
    AdvanceKeepsRow(db, id, db.runs[id].(status := Pausing), [RunControl(Pausing)], key);
    hide Advance;
  }

  lemma CompleteKeepsRow(db: Db, id: int, c: Completion, key: OutboxKey)
    requires Known(db, key)
    ensures SameRow(db, Complete(db, id, c).db, key)
  {
    hide Complete, Advance, VersionRow, CompletionEvents;
    var apps := CompleteShape(db, id, c);
    if Complete(db, id, c).db != db {
      AdvanceKeepsRow(Published(db, apps, VersionRow(db, id, c)), id, CompletedRow(db, id),
          CompletionEvents(db.nextId, c.description), key);
    }
  }

  lemma CreateKeepsRow(db: Db, req: StartRequest, key: OutboxKey)
    requires Known(db, key) && db.nextId !in db.runs
    ensures SameRow(db, Apply(db, OpCreate(req)), key)
  {
    hide HasRequest, HasActive;
  }

  lemma PublishKeepsOutbox(db: Db, op: Op)
    requires op.OpPublish? || op.OpRestore?
    ensures Apply(db, op).outbox == db.outbox
  {
    hide ValidClaim, RunHasVersion, HasActive;
  }

  lemma OwnershipKeepsOutbox(db: Db, op: Op)
    requires op.OpClaim? || op.OpRenew? || op.OpRelease?
    ensures Apply(db, op).outbox == db.outbox
  {
    hide ValidClaim;
  }

  lemma RestKeepsOutbox(db: Db, op: Op)
    requires op.OpBudget? || op.OpRegister? || op.OpTick?
    ensures Apply(db, op).outbox == db.outbox
  {
    hide ValidClaim;
  }

  lemma SideKeepsRow(db: Db, op: Op, key: OutboxKey)
    requires key in db.outbox
    requires op.OpBudget? || op.OpClaim? || op.OpRenew? || op.OpRelease? || op.OpPublish? || op.OpRestore?
      || op.OpRegister? || op.OpTick?
    ensures SameRow(db, Apply(db, op), key)
  {
    hide Apply;
    if op.OpPublish? || op.OpRestore? {
      PublishKeepsOutbox(db, op);
    } else if op.OpClaim? || op.OpRenew? || op.OpRelease? {
      OwnershipKeepsOutbox(db, op);
    } else {
      RestKeepsOutbox(db, op);
    }
  }

  lemma QueueKeepsRow(db: Db, op: Op, key: OutboxKey)
    requires key in db.outbox && Leaves(op, key)
    requires op.OpReclaimOutbox? || op.OpClaimOutbox? || op.OpDelivered? || op.OpRetry?
    ensures key in Apply(db, op).outbox
    ensures Apply(db, op).outbox[key] == if op.OpReclaimOutbox? then Reclaimed(db.outbox[key], db.now)
        else db.outbox[key]
  {
    hide Reclaimed, RetryDelay, Due;
  }

  /** What a transaction that leaves the message alone makes of it: nothing, unless it reclaims. */
  lemma RowStays(db: Db, op: Op, key: OutboxKey)
    requires Inv(db) && key in db.outbox && Leaves(op, key)
    ensures key in Apply(db, op).outbox
    ensures Apply(db, op).outbox[key] == if op.OpReclaimOutbox? then Reclaimed(db.outbox[key], db.now)
        else db.outbox[key]
  {
    hide *;
    assert !op.OpRestart? by { NoRestart(op, key); }
    Applied(db, op);
    StoredIsKnown(db, key);
    if op.OpReclaimOutbox? || op.OpClaimOutbox? || op.OpDelivered? || op.OpRetry? {
      QueueKeepsRow(db, op, key);
    } else {
      match op {
        case OpFail(id, interrupted) => FailKeepsRow(db, id, interrupted, key);
        case OpControl(id, user, action) => ControlKeepsRow(db, id, user, action, key);
        case OpComplete(id, c) => CompleteKeepsRow(db, id, c, key);
        case OpCreate(req) => NextIsNew(db); CreateKeepsRow(db, req, key);
        case OpMarkRunning(_) => StartKeepsRow(db, op, key);
        case OpAppend(_, _) => StartKeepsRow(db, op, key);
        case OpSuspend(_, _) => StartKeepsRow(db, op, key);
        case OpSave(_, _, _) => StartKeepsRow(db, op, key);
        case _ => SideKeepsRow(db, op, key);
      }
      SameRowIs(db, Apply(db, op), key);
    }
  }

  lemma NoRestart(op: Op, key: OutboxKey)
    requires Leaves(op, key)
    ensures !op.OpRestart?
  {
  }

  lemma NextIsNew(db: Db)
    requires Inv(db)
    ensures db.nextId !in db.runs
  {
    hide LogsNumbered, LogsFit, VersionsOwned, UniqueKeys;
  }

  lemma SameRowIs(db: Db, after: Db, key: OutboxKey)
    requires key in db.outbox && SameRow(db, after, key)
    ensures key in after.outbox && after.outbox[key] == db.outbox[key]
  {
  }

  // ---- restarts ---------------------------------------------------------------------------------------

  lemma InterruptKeepsRow(db: Db, id: int, key: OutboxKey)
    requires id in db.runs && Stale(db.runs[id].status) && Known(db, key)
    ensures SameRow(db, InterruptRun(db, id), key)
  {
    var row := db.runs[id];
    AdvanceKeepsRow(db, id, row.(status := Canceled, activeKey := None), [RunCanceled, Done], key);
    AdvanceKeepsRow(db, id, row.(status := Recoverable), [RunSuspended(Recoverable)], key);
    AdvanceKeepsRow(db, id, row.(status := Interrupted, activeKey := None),
        [ErrorRaised, RunFailed(Interrupted), Done], key);
    hide Advance, Known;
  }

  lemma {:induction false} InterruptRunsKeepRow(db: Db, order: seq<int>, key: OutboxKey)
    requires Inv(db) && key in db.outbox
    ensures SameRow(db, InterruptRuns(db, order), key)
    decreases |order|
  {
    hide Inv, InterruptRun, Extends, StoppedInOrder;
    if order != [] {
      var front, id := order[..|order| - 1], order[|order| - 1];
      InterruptRunsKeepRow(db, front, key);
      InterruptRunsSound(db, front);
      var mid := InterruptRuns(db, front);
      if id in mid.runs && Stale(mid.runs[id].status) {
        StoredIsKnown(mid, key);
        InterruptKeepsRow(mid, id, key);
      }
    }
  }

  /** A restart gives up the start messages that are still open, and leaves every other message alone. */
  lemma RestartRow(db: Db, order: seq<int>, key: OutboxKey)
    requires Inv(db) && key in db.outbox
    ensures var row, after := db.outbox[key], InterruptStale(db, order).outbox;
      key in after
      && after[key] == if row.kind.TaskReadyMessage? && (row.status.Waiting? || row.status.Processing?)
           then row.(status := Undeliverable) else row
  {
    InterruptRunsKeepRow(db, order, key);
    hide InterruptRuns, Inv;
  }

  // ---- due on time ------------------------------------------------------------------------------------

  /** Seconds grow with the square of the attempts, up to a minute. */
  function Pause(attempts: int): int {
    if attempts * attempts < 60 then attempts * attempts * 1000 else 60000
  }

  lemma OneMoreOp(db: Db, ops: seq<Op>)
    requires ops != []
    ensures After(db, ops) == Apply(After(db, ops[..|ops| - 1]), ops[|ops| - 1])
  {
    hide Apply;
  }

  lemma LeftUntil(ops: seq<Op>, key: OutboxKey)
    requires ops != [] && Left(ops, key)
    ensures Left(ops[..|ops| - 1], key) && Leaves(ops[|ops| - 1], key)
  {
  }

  lemma {:induction false} WaitingStays(db: Db, ops: seq<Op>, key: OutboxKey)
    requires Inv(db) && key in db.outbox && db.outbox[key].status.Waiting? && Left(ops, key)
    ensures Inv(After(db, ops)) && key in After(db, ops).outbox && After(db, ops).outbox[key] == db.outbox[key]
    decreases |ops|
  {
    if ops != [] {
      hide Inv, Apply, Leaves, Left, After;
      LeftUntil(ops, key);
      OneMoreOp(db, ops);
      WaitingStays(db, ops[..|ops| - 1], key);
      var mid := After(db, ops[..|ops| - 1]);
      RowStays(mid, ops[|ops| - 1], key);
      StepSound(mid, ops[|ops| - 1]);
    }
  }

  lemma RetriedRow(db: Db, key: OutboxKey, attempts: int)
    requires key in db.outbox
    ensures key in RetryOutbox(db, key, attempts).outbox
    ensures var row := RetryOutbox(db, key, attempts).outbox[key];
      row == db.outbox[key].(status := Waiting, attempts := attempts, nextAttempt := db.now + Pause(attempts),
                             claimedAt := None)
  {
  }

  /** A message put back after its n-th failed attempt is due from n squared seconds later on, at most a minute,
      and not before, in any history that leaves it alone. */
  lemma RetriedIsDueOnTime(db: Db, key: OutboxKey, attempts: int, ops: seq<Op>)
    requires Inv(db) && key in db.outbox && Left(ops, key)
    ensures var after := After(RetryOutbox(db, key, attempts), ops);
      && (Due(after, key) <==> after.now >= db.now + Pause(attempts))
      && key in after.outbox && after.outbox[key].attempts == attempts
  {
    hide *;
    var retried := RetryOutbox(db, key, attempts);
    RetriedRow(db, key, attempts);
    RetriedInv(db, key, attempts);
    WaitingStays(retried, ops, key);
    DueIs(After(retried, ops), key);
  }

  lemma RetriedInv(db: Db, key: OutboxKey, attempts: int)
    requires Inv(db)
    ensures Inv(RetryOutbox(db, key, attempts))
  {
    hide Inv, RetryOutbox, Extends, Moves;
    StepSound(db, OpRetry(key, attempts));
  }

  lemma DueIs(db: Db, key: OutboxKey)
    requires key in db.outbox
    ensures Due(db, key) <==> db.outbox[key].status.Waiting? && db.outbox[key].nextAttempt <= db.now
  {
  }

  /** The queue was reclaimed more than a minute after the message was claimed. */
  ghost predicate Reclaims(db: Db, ops: seq<Op>, since: int) {
    exists i :: 0 <= i < |ops| && ops[i].OpReclaimOutbox? && After(db, ops[..i]).now > since + 60000
  }

  lemma ReclaimsAdds(db: Db, ops: seq<Op>, since: int)
    requires ops != []
    ensures var front, op := ops[..|ops| - 1], ops[|ops| - 1];
      Reclaims(db, ops, since) <==>
        Reclaims(db, front, since) || (op.OpReclaimOutbox? && After(db, front).now > since + 60000)
  {
    hide After;
    var front := ops[..|ops| - 1];
    forall i | 0 <= i < |front| ensures front[..i] == ops[..i] { }
    if i :| 0 <= i < |front| && front[i].OpReclaimOutbox? && After(db, front[..i]).now > since + 60000 {
      assert ops[i].OpReclaimOutbox? && After(db, ops[..i]).now > since + 60000;
    }
    if i :| 0 <= i < |ops| && ops[i].OpReclaimOutbox? && After(db, ops[..i]).now > since + 60000 {
      if i < |front| { assert front[i].OpReclaimOutbox? && After(db, front[..i]).now > since + 60000; }
    }
  }

  lemma {:induction false} ClaimedStays(db: Db, ops: seq<Op>, key: OutboxKey, since: int)
    requires Inv(db) && key in db.outbox && db.outbox[key].status.Processing? && Left(ops, key)
    requires db.outbox[key].claimedAt == Some(since)
    ensures Inv(After(db, ops)) && key in After(db, ops).outbox
    ensures After(db, ops).outbox[key] == if Reclaims(db, ops, since)
        then db.outbox[key].(status := Waiting, claimedAt := None) else db.outbox[key]
    decreases |ops|
  {
    if ops != [] {
      hide Inv, Apply, Leaves, Left, After, Reclaims;
      LeftUntil(ops, key);
      OneMoreOp(db, ops);
      ReclaimsAdds(db, ops, since);
      ClaimedStays(db, ops[..|ops| - 1], key, since);
      var mid := After(db, ops[..|ops| - 1]);
      RowStays(mid, ops[|ops| - 1], key);
      StepSound(mid, ops[|ops| - 1]);
    }
  }

  /** A claimed message is nobody else's until the queue is reclaimed more than a minute later; then it is due
      again, so a worker that was lost with it strands nothing. */
  lemma LostClaimIsDueAgain(db: Db, key: OutboxKey, ops: seq<Op>)
    requires Inv(db) && Due(db, key) && Left(ops, key)
    ensures var claimed := ClaimOutboxRow(db, key);
      Due(After(claimed, ops), key) <==> Reclaims(claimed, ops, db.now)
  {
    hide *;
    var claimed := ClaimOutboxRow(db, key);
    ClaimedInv(db, key);
    ClaimedRow(db, key);
    ClaimedStays(claimed, ops, key, db.now);
    ClockStands(claimed, ops);
    DueAgain(claimed, After(claimed, ops), key);
  }

  lemma ClaimedInv(db: Db, key: OutboxKey)
    requires Inv(db)
    ensures Inv(ClaimOutboxRow(db, key))
  {
    hide Inv, ClaimOutboxRow, Extends, Moves;
    StepSound(db, OpClaimOutbox(key));
  }

  lemma ClaimedRow(db: Db, key: OutboxKey)
    requires Due(db, key)
    ensures var claimed := ClaimOutboxRow(db, key);
      && claimed.now == db.now && key in claimed.outbox
      && claimed.outbox[key] == db.outbox[key].(status := Processing, claimedAt := Some(db.now))
      && claimed.outbox[key].nextAttempt <= db.now
  {
  }

  lemma DueAgain(db: Db, after: Db, key: OutboxKey)
    requires key in db.outbox && key in after.outbox && db.outbox[key].nextAttempt <= db.now <= after.now
    requires after.outbox[key] == db.outbox[key]
      || after.outbox[key] == db.outbox[key].(status := Waiting, claimedAt := None)
    ensures Due(after, key) <==> after.outbox[key].status.Waiting?
  {
  }

  lemma {:induction false} ClockStands(db: Db, ops: seq<Op>)
    requires Inv(db)
    ensures After(db, ops).now >= db.now
  {
    HistorySound(db, ops);
    hide Inv, After;
  }

  predicate Settled(row: OutboxRow) {
    row.status.Delivered? || row.status.Undeliverable?
  }

  lemma SettledStep(db: Db, op: Op, key: OutboxKey)
    requires Inv(db) && key in db.outbox && Settled(db.outbox[key]) && (op.OpRetry? ==> op.key != key)
    ensures key in Apply(db, op).outbox && Settled(Apply(db, op).outbox[key])
  {
    hide *;
    Applied(db, op);
    if op.OpRestart? {
      RestartKeepsSettled(db, op.order, key);
    } else if (op.OpClaimOutbox? || op.OpDelivered?) && op.key == key {
      SettledIsLeft(db, op, key);
    } else {
      assert Leaves(op, key) by { LeavesOther(op, key); }
      RowStays(db, op, key);
      SameIsSettled(db.outbox[key], Apply(db, op).outbox[key]);
    }
  }

  lemma RestartKeepsSettled(db: Db, order: seq<int>, key: OutboxKey)
    requires Inv(db) && key in db.outbox && Settled(db.outbox[key])
    ensures key in InterruptStale(db, order).outbox && Settled(InterruptStale(db, order).outbox[key])
  {
    hide Inv, InterruptStale;
    RestartRow(db, order, key);
  }

  lemma LeavesOther(op: Op, key: OutboxKey)
    requires !op.OpRestart? && (op.OpClaimOutbox? || op.OpDelivered? || op.OpRetry? ==> op.key != key)
    ensures Leaves(op, key)
  {
  }

  lemma SameIsSettled(row: OutboxRow, after: OutboxRow)
    requires Settled(row)
    ensures after == row ==> Settled(after)
    ensures forall now :: Reclaimed(row, now) == row
  {
  }

  lemma SettledIsLeft(db: Db, op: Op, key: OutboxKey)
    requires key in db.outbox && Settled(db.outbox[key]) && (op.OpClaimOutbox? || op.OpDelivered?) && op.key == key
    ensures key in Apply(db, op).outbox && Settled(Apply(db, op).outbox[key])
  {
  }

  /** A message that was delivered, or given up by a restart, is never due again unless it is put back. */
  lemma {:induction false} SettledIsNeverDue(db: Db, key: OutboxKey, ops: seq<Op>)
    requires Inv(db) && key in db.outbox && Settled(db.outbox[key])
    requires forall i :: 0 <= i < |ops| && ops[i].OpRetry? ==> ops[i].key != key
    ensures Inv(After(db, ops)) && key in After(db, ops).outbox && Settled(After(db, ops).outbox[key])
    ensures !Due(After(db, ops), key)
    decreases |ops|
  {
    if ops != [] {
      hide Inv, Apply, After, Settled;
      OneMoreOp(db, ops);
      SettledIsNeverDue(db, key, ops[..|ops| - 1]);
      var mid := After(db, ops[..|ops| - 1]);
      SettledStep(mid, ops[|ops| - 1], key);
      StepSound(mid, ops[|ops| - 1]);
      SettledIsNotDue(After(db, ops), key);
    } else {
      SettledIsNotDue(db, key);
    }
  }

  lemma SettledIsNotDue(db: Db, key: OutboxKey)
    requires key in db.outbox && Settled(db.outbox[key])
    ensures !Due(db, key)
  {
  }

  /** Delivering settles the message, and a restart settles every open start message. */
  lemma WhatSettles(db: Db, order: seq<int>, key: OutboxKey)
    requires Inv(db) && key in db.outbox
    ensures Settled(MarkOutboxDelivered(db, key).outbox[key]) && key in InterruptStale(db, order).outbox
    ensures db.outbox[key].kind.TaskReadyMessage? ==> Settled(InterruptStale(db, order).outbox[key])
  {
    RestartRow(db, order, key);
    hide InterruptStale, Inv;
  }

  // ---- new messages -----------------------------------------------------------------------------------

  /** A message as it is first stored: of its run and kind, waiting, due at once. */
  predicate Fresh(row: OutboxRow, key: OutboxKey, now: int) {
    && row.status.Waiting? && row.attempts == 0 && row.claimedAt.None? && row.nextAttempt == now == row.created
    && (match key
        case RunEvent(run, _) => row.kind.EventAvailable? && row.run == run
        case TaskReady(run) => row.kind.TaskReadyMessage? && row.run == run
        case TaskResume(_) => row.kind.TaskReadyMessage?)
  }

  /** New messages announce events. */
  ghost predicate AddsEvents(db: Db, after: Db) {
    forall key :: key in after.outbox && key !in db.outbox ==> key.RunEvent?
  }

  ghost predicate AddsFresh(db: Db, after: Db) {
    forall key :: key in after.outbox && key !in db.outbox ==> Fresh(after.outbox[key], key, db.now)
  }

  lemma AdvanceAddsFresh(db: Db, base: Db, id: int, row: Run, evts: seq<EventType>)
    requires id in base.runs && row.lastSequence == base.runs[id].lastSequence && base.now == db.now
    requires AddsFresh(db, base)
    ensures AddsFresh(db, Advance(base, id, row, evts))
    ensures AddsEvents(db, base) ==> AddsEvents(db, Advance(base, id, row, evts))
  {
    AdvanceFields(base, id, row, evts);
    hide Advance;
  }

  lemma NothingNew(db: Db, after: Db)
    requires after.outbox.Keys <= db.outbox.Keys
    ensures AddsFresh(db, after) && AddsEvents(db, after)
  {
  }

  lemma StartAddsFresh(db: Db, op: Op)
    requires op.OpMarkRunning? || op.OpAppend? || op.OpSuspend? || op.OpSave?
    ensures AddsFresh(db, Apply(db, op))
  {
    NothingNew(db, db);
    hide Advance, ValidClaim, AddsFresh;
    match op
    case OpMarkRunning(id) =>
      if id in db.runs { AdvanceAddsFresh(db, db, id, db.runs[id].(status := Running), [RunStarted]); }
    case OpAppend(id, kind) => if id in db.runs { AdvanceAddsFresh(db, db, id, db.runs[id], [Semantic(kind)]); }
    case OpSuspend(id, status) =>
      if id in db.runs { AdvanceAddsFresh(db, db, id, db.runs[id].(status := status), [RunSuspended(status)]); }
    case OpSave(id, c, cp) =>
      var base := db.(checkpoints := db.checkpoints[id := cp]);
      NothingNew(db, base);
      if id in db.runs { AdvanceAddsFresh(db, base, id, db.runs[id], [CheckpointSaved]); }
  }

  lemma FailAddsFresh(db: Db, id: int, interrupted: bool)
    ensures AddsFresh(db, Fail(db, id, interrupted).db)
  {
    NothingNew(db, db);
    if id in db.runs {
      var row := db.runs[id];
      AdvanceAddsFresh(db, db, id, row.(status := Canceled, activeKey := None), [RunCanceled, Done]);
      AdvanceAddsFresh(db, db, id, row.(status := Recoverable), [RunSuspended(Recoverable)]);
      var failed := if interrupted then Interrupted else Failed;
      AdvanceAddsFresh(db, db, id, row.(status := failed, activeKey := None), [ErrorRaised, RunFailed(failed), Done]);
    }
    hide Advance, AddsFresh;
  }

  lemma StopAddsFresh(db: Db, id: int)
    requires id in db.runs
    ensures AddsFresh(db, Stop(db, id).db)
  {
    NothingNew(db, db);
    var row := db.runs[id];
    AdvanceAddsFresh(db, db, id, row.(status := Cancelling), [RunControl(Cancelling)]);
    AdvanceAddsFresh(db, db, id, row.(status := Canceled, activeKey := None), [RunControl(Canceled), Done]);
    hide Advance, AddsFresh;
  }

  lemma RequeueAddsFresh(db: Db, id: int, cp: Checkpoint)
    requires id in db.runs
    ensures AddsFresh(db, Requeue(db, id, cp).db)
  {
    NothingNew(db, db);
    assert AddsFresh(db, RequeueBase(db, id, cp));
    AdvanceAddsFresh(db, RequeueBase(db, id, cp), id,
        db.runs[id].(status := Pending, activeKey := Some(db.runs[id].request.app)), [RunControl(Pending)]);
    hide Advance, AddsFresh, KeyHeldByOther, RequeueBase;
  }

  lemma ControlAddsFresh(db: Db, id: int, user: int, action: Action)
    ensures AddsFresh(db, Control(db, id, user, action).db)
  {
    hide Stop, Requeue, Advance, AddsFresh;
    NothingNew(db, db);
    if id in db.runs {
      AdvanceAddsFresh(db, db, id, db.runs[id].(status := Pausing), [RunControl(Pausing)]);
      StopAddsFresh(db, id);
      if id in db.checkpoints {
        RequeueAddsFresh(db, id, db.checkpoints[id]);
        if action.Approve? { RequeueAddsFresh(db, id, db.checkpoints[id].(approvedHash := action.hash)); }
      }
    }
  }

  lemma CompleteAddsFresh(db: Db, id: int, c: Completion)
    ensures AddsFresh(db, Complete(db, id, c).db)
  {
    hide Complete, Advance, VersionRow, CompletionEvents;
    NothingNew(db, db);
    var apps := CompleteShape(db, id, c);
    if Complete(db, id, c).db != db {
      var base := Published(db, apps, VersionRow(db, id, c));
      NothingNew(db, base);
      hide AddsFresh;
      AdvanceAddsFresh(db, base, id, CompletedRow(db, id), CompletionEvents(db.nextId, c.description));
    }
  }

  lemma CreateAddsFresh(db: Db, req: StartRequest)
    ensures AddsFresh(db, Apply(db, OpCreate(req)))
  {
    hide HasRequest, HasActive;
  }

  lemma InterruptAddsFresh(db: Db, mid: Db, id: int)
    requires id in mid.runs && Stale(mid.runs[id].status) && mid.now == db.now
    requires AddsFresh(db, mid) && AddsEvents(db, mid)
    ensures AddsFresh(db, InterruptRun(mid, id)) && AddsEvents(db, InterruptRun(mid, id))
    ensures InterruptRun(mid, id).now == db.now
  {
    var row := mid.runs[id];
    AdvanceAddsFresh(db, mid, id, row.(status := Canceled, activeKey := None), [RunCanceled, Done]);
    AdvanceAddsFresh(db, mid, id, row.(status := Recoverable), [RunSuspended(Recoverable)]);
    AdvanceAddsFresh(db, mid, id, row.(status := Interrupted, activeKey := None),
        [ErrorRaised, RunFailed(Interrupted), Done]);
    AdvanceFields(mid, id, row.(status := Canceled, activeKey := None), [RunCanceled, Done]);
    AdvanceFields(mid, id, row.(status := Recoverable), [RunSuspended(Recoverable)]);
    AdvanceFields(mid, id, row.(status := Interrupted, activeKey := None), [ErrorRaised, RunFailed(Interrupted), Done]);
    hide Advance, AddsFresh, AddsEvents, AddEvents, AddMessages;
  }

  lemma {:induction false} InterruptRunsAddFresh(db: Db, order: seq<int>)
    ensures AddsFresh(db, InterruptRuns(db, order)) && AddsEvents(db, InterruptRuns(db, order))
    ensures InterruptRuns(db, order).now == db.now
    decreases |order|
  {
    hide AddsFresh, AddsEvents, InterruptRun;
    if order == [] {
      NothingNew(db, db);
    } else {
      var front, id := order[..|order| - 1], order[|order| - 1];
      InterruptRunsAddFresh(db, front);
      var mid := InterruptRuns(db, front);
      if id in mid.runs && Stale(mid.runs[id].status) { InterruptAddsFresh(db, mid, id); }
    }
  }

  lemma RestartAddsFresh(db: Db, order: seq<int>)
    ensures AddsFresh(db, InterruptStale(db, order))
  {
    InterruptRunsAddFresh(db, order);
    hide InterruptRuns;
  }

  lemma SideAddsNothing(db: Db, op: Op)
    requires op.OpBudget? || op.OpReclaimOutbox? || op.OpClaimOutbox? || op.OpDelivered? || op.OpRetry? || op.OpClaim?
      || op.OpRenew? || op.OpRelease? || op.OpPublish? || op.OpRestore? || op.OpRegister? || op.OpTick?
    ensures Apply(db, op).outbox.Keys <= db.outbox.Keys
  {
    if op.OpPublish? || op.OpRestore? {
      PublishKeepsOutbox(db, op);
      hide Apply;
    } else if op.OpClaim? || op.OpRenew? || op.OpRelease? {
      OwnershipKeepsOutbox(db, op);
      hide Apply;
    } else {
      hide ValidClaim, Due, RetryDelay, Reclaimed;
    }
  }

  /** Every message a transaction stores is of its run and kind and due at once. */
  lemma NewMessagesAreDueAtOnce(db: Db, op: Op, key: OutboxKey)
    requires key in Apply(db, op).outbox && key !in db.outbox
    ensures Fresh(Apply(db, op).outbox[key], key, db.now)
  {
    hide *;
    Applied(db, op);
    match op {
      case OpFail(id, interrupted) => FailAddsFresh(db, id, interrupted);
      case OpControl(id, user, action) => ControlAddsFresh(db, id, user, action);
      case OpComplete(id, c) => CompleteAddsFresh(db, id, c);
      case OpCreate(req) => CreateAddsFresh(db, req);
      case OpRestart(order) => RestartAddsFresh(db, order);
      case OpMarkRunning(_) => StartAddsFresh(db, op);
      case OpAppend(_, _) => StartAddsFresh(db, op);
      case OpSuspend(_, _) => StartAddsFresh(db, op);
      case OpSave(_, _, _) => StartAddsFresh(db, op);
      case _ => SideAddsNothing(db, op); NothingNew(db, Apply(db, op));
    }
    FreshIs(db, Apply(db, op), key);
  }

  lemma FreshIs(db: Db, after: Db, key: OutboxKey)
    requires AddsFresh(db, after) && key in after.outbox && key !in db.outbox
    ensures Fresh(after.outbox[key], key, db.now)
  {
    hide Fresh;
  }
}
