/** Event delivery inside the servers: subscriptions read the log at their own pace and sleep on a
    one-slot channel of their process; a dispatcher wakes those of its own process. Everything
    interleaves with everything the dispatchers and the store do. */
module Delivery {
  import opened TaskTypes
  import opened TaskTransactions
  import opened TaskInvariants
  import opened TaskHistory
  import Dispatch

  /** Where a subscription is in its loop: about to list events, about to read the run row, asleep,
      or closed by the end of the stream. */
  datatype Stage = Listing | Checking | Asleep | Ended

  /** `home` is the process it lives in, `start` the cursor it was opened with, `received` what it
      returned since. */
  datatype Subscriber = Subscriber(
    run: int, home: int, start: nat, after: nat, received: seq<EventType>, stage: Stage, token: bool)

  datatype World = World(sys: Dispatch.System, subs: map<int, Subscriber>)

  /** Dispatchers and direct notifications act in a process. */
  datatype Step =
    | Server(step: Dispatch.Step, process: int)
    | Subscribe(id: int, run: int, home: int, after: nat)
    | List(id: int)
    | Check(id: int)
    | Wake(id: int)
    | Heartbeat(id: int)
    | Notify(run: int, process: int)
    | Close(id: int)

  predicate Halted(s: Status) { Terminal(s) || Stopped(s) }

  ghost predicate Allowed(w: World, step: Step) {
    match step
    case Server(inner, _) => Dispatch.Allowed(w.sys, inner)
    case Subscribe(id, run, _, _) => id !in w.subs && run in w.sys.db.runs
    case List(id) => id in w.subs && w.subs[id].stage.Listing?
    case Check(id) => id in w.subs && w.subs[id].stage.Checking?
    case Wake(id) => id in w.subs && w.subs[id].stage.Asleep? && w.subs[id].token
    case Heartbeat(id) => id in w.subs && w.subs[id].stage.Asleep?
    case _ => true
  }

  /** A token for every subscriber of the run in the process; a full channel keeps its one. */
  function Woken(subs: map<int, Subscriber>, run: int, process: int): map<int, Subscriber> {
    map id | id in subs ::
      if subs[id].run == run && subs[id].home == process then subs[id].(token := true) else subs[id]
  }

  /** The run whose announcement the step looks at. */
  function Announces(s: Dispatch.System, step: Dispatch.Step): Option<int> {
    if step.Inspect? && step.slot in s.flights && s.flights[step.slot].key.RunEvent?
    then Some(s.flights[step.slot].key.run) else None
  }

  /** The first stored event after the cursor, as the ordered query returns it. */
  function Following(db: Db, run: int, after: int): Option<int> {
    if (run, after + 1) in db.events then Some(after + 1) else None
  }

  /** A sleeper that took its token. */
  function Awake(s: Subscriber): Subscriber {
    s.(token := false, stage := Listing)
  }

  function Next(w: World, step: Step): World {
    match step
    case Server(inner, process) =>
      var w', announced := w.(sys := Dispatch.Next(w.sys, inner)), Announces(w.sys, inner);
      if announced.Some? then w'.(subs := Woken(w.subs, announced.value, process)) else w'
    case Subscribe(id, run, home, after) =>
      w.(subs := w.subs[id := Subscriber(run, home, after, after, [], Listing, false)])
    case List(id) =>
      if id !in w.subs then w else
        var s, found := w.subs[id], Following(w.sys.db, w.subs[id].run, w.subs[id].after);
        if found.Some? && found.value >= 0
        then
          var event := w.sys.db.events[(s.run, found.value)];
          w.(subs := w.subs[id := s.(after := found.value, received := s.received + [event])])
        else w.(subs := w.subs[id := s.(stage := Checking)])
    case Check(id) =>
      if id !in w.subs || w.subs[id].run !in w.sys.db.runs then w else
        var s, row := w.subs[id], w.sys.db.runs[w.subs[id].run];
        var stage := if !Halted(row.status) then Asleep else if row.lastSequence > s.after then Listing else Ended;
        w.(subs := w.subs[id := s.(stage := stage)])
    case Wake(id) => if id !in w.subs then w else w.(subs := w.subs[id := Awake(w.subs[id])])
    case Heartbeat(id) => if id !in w.subs then w else w.(subs := w.subs[id := w.subs[id].(stage := Listing)])
    case Notify(run, process) => w.(subs := Woken(w.subs, run, process))
    case Close(id) => w.(subs := w.subs - {id})
  }

  // ---- the invariant --------------------------------------------------------------------------

  /** An announcement of the run that will still be delivered. */
  ghost predicate Announced(outbox: Dispatch.Outbox, flights: Dispatch.Flights, run: int, n: int) {
    && RunEvent(run, n) in outbox && Dispatch.Live(outbox[RunEvent(run, n)])
    && forall slot :: slot in flights && flights[slot].key == RunEvent(run, n) ==> !flights[slot].phase.Handled?
  }

  /** Asleep or about to sleep, with undelivered events and no token. */
  predicate Depends(s: Subscriber, last: int) {
    (s.stage.Checking? || s.stage.Asleep?) && s.after < last && !s.token
  }

  /** A subscriber that depends on an announcement has one. */
  ghost predicate Wakeful(outbox: Dispatch.Outbox, flights: Dispatch.Flights, last: int, s: Subscriber) {
    Depends(s, last) ==> exists n :: Announced(outbox, flights, s.run, n)
  }

  /** What was received is the log between the two cursors, without gap or duplicate. */
  ghost predicate Gapless(log: seq<EventType>, s: Subscriber) {
    && s.after >= s.start
    && (s.received == [] ==> s.after == s.start)
    && (s.received != [] ==> s.after <= |log| && s.received == log[s.start..s.after])
  }

  ghost predicate EventRows(outbox: Dispatch.Outbox) {
    forall key :: key in outbox && key.RunEvent? ==> outbox[key].kind.EventAvailable?
  }

  /** Announcements are dealt with as soon as they are looked at. */
  ghost predicate StartsNoEvent(flights: Dispatch.Flights) {
    forall slot :: slot in flights && flights[slot].phase.Starting? ==> !flights[slot].key.RunEvent?
  }

  ghost predicate Subscribed(db: Db, s: Subscriber)
    requires LogsNumbered(db.runs, db.events)
  {
    s.run in db.runs && Gapless(Log(db.runs, db.events, s.run), s)
  }

  ghost predicate WorldInv(w: World) {
    && Dispatch.SystemInv(w.sys) && EventRows(w.sys.db.outbox) && StartsNoEvent(w.sys.flights)
    && forall id :: id in w.subs ==> Subscribed(w.sys.db, w.subs[id])
  }

  ghost predicate AllWakeful(w: World) {
    forall id :: id in w.subs && w.subs[id].run in w.sys.db.runs ==>
      Wakeful(w.sys.db.outbox, w.sys.flights, w.sys.db.runs[w.subs[id].run].lastSequence, w.subs[id])
  }

  /** An announcement is looked at in the process of every subscriber that depends on it alone. */
  ghost predicate Harmless(w: World, step: Step) {
    step.Server? && Announces(w.sys, step.step).Some? ==>
      var key := w.sys.flights[step.step.slot].key;
      forall id :: id in w.subs && w.subs[id].run == key.run && key.run in w.sys.db.runs
                   && w.subs[id].home != step.process && Depends(w.subs[id], w.sys.db.runs[key.run].lastSequence) ==>
        exists n :: n != key.sequence && Announced(w.sys.db.outbox, w.sys.flights, key.run, n)
  }

  // ---- what transactions leave of announcements -------------------------------------------------

  /** Announcements stay live, and a log that grew has a new one for its last event. */
  ghost predicate Heard(db: Db, after: Db) {
    && (forall key :: key in db.outbox ==> key in after.outbox)
    && (forall key :: key in db.outbox && key.RunEvent? && Dispatch.Live(db.outbox[key]) && EventRows(db.outbox) ==>
         Dispatch.Live(after.outbox[key]))
    && (EventRows(db.outbox) ==> EventRows(after.outbox))
    && (forall r :: r in db.runs && r in after.runs && after.runs[r].lastSequence > db.runs[r].lastSequence ==>
          var key := RunEvent(r, after.runs[r].lastSequence);
          key in after.outbox && key !in db.outbox && Dispatch.Live(after.outbox[key]))
  }

  lemma StayHeard(db: Db)
    ensures Heard(db, db)
  {
  }

  lemma HeardTransitive(a: Db, b: Db, c: Db)
    requires Heard(a, b) && Heard(b, c) && EventRows(a.outbox)
    requires forall r :: r in a.runs ==> r in b.runs && a.runs[r].lastSequence <= b.runs[r].lastSequence
    requires forall r :: r in b.runs ==> r in c.runs && b.runs[r].lastSequence <= c.runs[r].lastSequence
    ensures Heard(a, c)
  {
  }

  lemma AdvanceHeard(db: Db, base: Db, id: int, row: Run, evts: seq<EventType>)
    requires IdsIssued(db.runs, db.versions, db.outbox, db.checkpoints, db.nextId)
    requires id in db.runs && row.lastSequence == db.runs[id].lastSequence
    requires base.runs == db.runs
    requires forall key :: key in db.outbox ==> key in base.outbox && base.outbox[key] == db.outbox[key]
    requires forall key :: key in base.outbox && key.RunEvent? ==> key in db.outbox
    ensures Heard(db, Advance(base, id, row, evts))
  {
    AdvanceFields(base, id, row, evts);
    hide Advance, AddEvents;
  }

  lemma MoveHeard(db: Db, id: int, row: Run, evts: seq<EventType>)
    requires IdsIssued(db.runs, db.versions, db.outbox, db.checkpoints, db.nextId)
    requires id in db.runs && row.lastSequence == db.runs[id].lastSequence
    ensures Heard(db, Advance(db, id, row, evts))
  {
    hide IdsIssued, Heard, Advance;
    AdvanceHeard(db, db, id, row, evts);
  }

  lemma InvIssued(db: Db)
    requires Inv(db)
    ensures IdsIssued(db.runs, db.versions, db.outbox, db.checkpoints, db.nextId)
  {
  }

  lemma CompleteHeard(db: Db, id: int, c: Completion)
    requires Inv(db)
    ensures Heard(db, Complete(db, id, c).db)
  {
    InvIssued(db);
    StayHeard(db);
    if Complete(db, id, c).db != db {
      hide Inv, Complete, Advance, CompletionEvents, Heard, IdsIssued, VersionRow;
      var apps := CompleteShape(db, id, c);
      AdvanceHeard(db, Published(db, apps, VersionRow(db, id, c)), id, CompletedRow(db, id),
          CompletionEvents(db.nextId, c.description));
    }
  }

  lemma FailHeard(db: Db, id: int, interrupted: bool)
    requires Inv(db)
    ensures Heard(db, Fail(db, id, interrupted).db)
  {
    hide Inv, Heard, IdsIssued, Advance;
    InvIssued(db);
    StayHeard(db);
    if id in db.runs {
      var row, status := db.runs[id], if interrupted then Interrupted else Failed;
      MoveHeard(db, id, row.(status := Canceled, activeKey := None), [RunCanceled, Done]);
      MoveHeard(db, id, row.(status := Recoverable), [RunSuspended(Recoverable)]);
      MoveHeard(db, id, row.(status := status, activeKey := None), [ErrorRaised, RunFailed(status), Done]);
    }
  }

  lemma StopHeard(db: Db, id: int)
    requires Inv(db) && id in db.runs
    ensures Heard(db, Stop(db, id).db)
  {
    hide Inv, Heard, IdsIssued, Advance;
    InvIssued(db);
    StayHeard(db);
    MoveHeard(db, id, db.runs[id].(status := Cancelling), [RunControl(Cancelling)]);
    MoveHeard(db, id, db.runs[id].(status := Canceled, activeKey := None), [RunControl(Canceled), Done]);
  }

  lemma RequeueHeard(db: Db, id: int, cp: Checkpoint)
    requires Inv(db) && id in db.runs
    ensures Heard(db, Requeue(db, id, cp).db)
  {
    InvIssued(db);
    StayHeard(db);
    var base := RequeueBase(db, id, cp);
    assert forall key :: key in db.outbox ==> key in base.outbox && base.outbox[key] == db.outbox[key];
    hide Inv, Heard, Advance, KeyHeldByOther;
    AdvanceHeard(db, base, id, db.runs[id].(status := Pending, activeKey := Some(db.runs[id].request.app)),
        [RunControl(Pending)]);
  }

  lemma ControlHeard(db: Db, id: int, user: int, action: Action)
    requires Inv(db)
    ensures Heard(db, Control(db, id, user, action).db)
  {
    hide Inv, Stop, Requeue, Advance, Heard, IdsIssued;
    InvIssued(db);
    StayHeard(db);
    if id in db.runs {
      match action {
        case Pause => MoveHeard(db, id, db.runs[id].(status := Pausing), [RunControl(Pausing)]);
        case Cancel => StopHeard(db, id);
        case Reject => StopHeard(db, id);
        case Approve(hash) =>
          if id in db.checkpoints { RequeueHeard(db, id, db.checkpoints[id].(approvedHash := hash)); }
        case Resume => if id in db.checkpoints { RequeueHeard(db, id, db.checkpoints[id]); }
        case Unknown =>
      }
    }
  }

  lemma RunStepHeard(db: Db, op: Op)
    requires Inv(db) && (op.OpMarkRunning? || op.OpAppend? || op.OpSuspend?)
    ensures Heard(db, Apply(db, op))
  {
    hide Inv, Heard, IdsIssued, Advance;
    InvIssued(db);
    StayHeard(db);
    if op.id in db.runs {
      match op {
        case OpMarkRunning(id) => MoveHeard(db, id, db.runs[id].(status := Running), [RunStarted]);
        case OpAppend(id, kind) => MoveHeard(db, id, db.runs[id], [Semantic(kind)]);
        case OpSuspend(id, status) => MoveHeard(db, id, db.runs[id].(status := status), [RunSuspended(status)]);
      }
    }
  }

  lemma SaveHeard(db: Db, id: int, c: Claim, cp: Checkpoint)
    requires Inv(db)
    ensures Heard(db, SaveCheckpoint(db, id, c, cp).db)
  {
    hide Inv, Heard, IdsIssued, Advance, ValidClaim;
    InvIssued(db);
    StayHeard(db);
    if id in db.runs {
      AdvanceHeard(db, db.(checkpoints := db.checkpoints[id := cp]), id, db.runs[id], [CheckpointSaved]);
    }
  }

  lemma CreateHeard(db: Db, req: StartRequest)
    requires Inv(db)
    ensures Heard(db, Apply(db, OpCreate(req)))
  {
    hide Inv, HasRequest, HasActive;
    InvIssued(db);
  }

  lemma SameLogsHeard(db: Db, after: Db)
    requires after.runs == db.runs && after.outbox == db.outbox
    ensures Heard(db, after)
  {
  }

  lemma PublishHeard(db: Db, p: Publication)
    ensures Heard(db, Publish(db, p).db)
  {
    hide ValidClaim, RunHasVersion, Heard;
    SameLogsHeard(db, Publish(db, p).db);
  }

  lemma ReclaimHeard(db: Db)
    ensures Heard(db, ReclaimOutbox(db))
  {
    hide LostAckMs;
  }

  lemma RetryHeard(db: Db, key: OutboxKey, attempts: int)
    ensures Heard(db, RetryOutbox(db, key, attempts))
  {
    hide RetryDelay;
  }

  lemma ClaimHeard(db: Db, key: OutboxKey)
    ensures Heard(db, ClaimOutboxRow(db, key))
  {
  }

  lemma OwnershipHeard(db: Db, op: Op)
    requires op.OpBudget? || op.OpClaim? || op.OpRenew? || op.OpRelease? || op.OpRegister? || op.OpTick?
    ensures Heard(db, Apply(db, op))
  {
    hide ValidClaim, Heard;
    assert Apply(db, op).runs == db.runs && Apply(db, op).outbox == db.outbox;
    hide Apply;
    SameLogsHeard(db, Apply(db, op));
  }

  /** Every transaction but a delivery announces what it logs, and silences no announcement. */
  lemma TransactionHeard(db: Db, op: Op)
    requires Inv(db) && !op.OpDelivered? && !op.OpRestart?
    ensures Heard(db, Apply(db, op))
  {
    hide Inv, Heard, AppendEvent, Complete, Fail, Suspend, Control, SaveCheckpoint, Publish;
    match op
    case OpCreate(req) => CreateHeard(db, req);
    case OpMarkRunning(_) => RunStepHeard(db, op);
    case OpAppend(_, _) => RunStepHeard(db, op);
    case OpSuspend(_, _) => RunStepHeard(db, op);
    case OpComplete(id, c) => CompleteHeard(db, id, c);
    case OpFail(id, interrupted) => FailHeard(db, id, interrupted);
    case OpControl(id, user, action) => ControlHeard(db, id, user, action);
    case OpSave(id, c, cp) => SaveHeard(db, id, c, cp);
    case OpPublish(p) => PublishHeard(db, p);
    case OpRestore(p) => StayHeard(db); PublishHeard(db, p);
    case OpReclaimOutbox => ReclaimHeard(db);
    case OpClaimOutbox(key) => ClaimHeard(db, key);
    case OpRetry(key, attempts) => RetryHeard(db, key, attempts);
    case OpBudget(_, _, _) => OwnershipHeard(db, op);
    case OpClaim(_, _, _) => OwnershipHeard(db, op);
    case OpRenew(_, _) => OwnershipHeard(db, op);
    case OpRelease(_) => OwnershipHeard(db, op);
    case OpRegister(_, _, _) => OwnershipHeard(db, op);
    case OpTick(_) => OwnershipHeard(db, op);
  }

  lemma InterruptHeard(db: Db, id: int)
    requires Inv(db) && id in db.runs && Stale(db.runs[id].status)
    ensures Heard(db, InterruptRun(db, id))
  {
    hide Inv, Heard, IdsIssued, Advance;
    InvIssued(db);
    var row := db.runs[id];
    MoveHeard(db, id, row.(status := Canceled, activeKey := None), [RunCanceled, Done]);
    MoveHeard(db, id, row.(status := Recoverable), [RunSuspended(Recoverable)]);
    MoveHeard(db, id, row.(status := Interrupted, activeKey := None), [ErrorRaised, RunFailed(Interrupted), Done]);
  }

  lemma {:induction false} InterruptRunsHeard(db: Db, order: seq<int>)
    requires Inv(db) && EventRows(db.outbox)
    ensures Heard(db, InterruptRuns(db, order))
    decreases |order|
  {
    if order == [] {
      StayHeard(db);
    } else {
      var front, id := order[..|order| - 1], order[|order| - 1];
      var rest := InterruptRuns(db, front);
      InterruptRunsHeard(db, front);
      InterruptRunsSound(db, front);
      if id in rest.runs && Stale(rest.runs[id].status) {
        hide Inv, InterruptRun, Heard, StoppedInOrder, EventRows;
        InterruptHeard(rest, id);
        InterruptSound(rest, id);
        HeardTransitive(db, rest, InterruptRun(rest, id));
      }
    }
  }

  lemma RestartHeard(db: Db, order: seq<int>)
    requires Inv(db) && EventRows(db.outbox)
    ensures Heard(db, InterruptStale(db, order))
  {
    InterruptRunsHeard(db, order);
    hide InterruptRuns, Inv;
  }

  // ---- every step keeps the promises ------------------------------------------------------------

  /** No announcement of the run falls silent, and new events are announced. */
  ghost predicate Carries(db: Db, flights: Dispatch.Flights, db': Db, flights': Dispatch.Flights, run: int) {
    && run in db.runs && run in db'.runs
    && (forall n :: Announced(db.outbox, flights, run, n) ==> Announced(db'.outbox, flights', run, n))
    && (db'.runs[run].lastSequence > db.runs[run].lastSequence ==> exists n :: Announced(db'.outbox, flights', run, n))
  }

  lemma SubscriberKept(db: Db, db': Db, s: Subscriber, s': Subscriber)
    requires Inv(db) && Inv(db') && Extends(db, db') && Subscribed(db, s)
    requires s' == s || s' == s.(token := true)
    ensures Subscribed(db', s')
  {
    hide Inv;
    Dispatch.LogGrows(db, db', s.run);
    InvNumbered(db);
    InvNumbered(db');
    hide Log, LogsNumbered;
  }

  lemma WakefulKept(db: Db, flights: Dispatch.Flights, db': Db, flights': Dispatch.Flights, s: Subscriber)
    requires Carries(db, flights, db', flights', s.run)
    requires Wakeful(db.outbox, flights, db.runs[s.run].lastSequence, s)
    ensures Wakeful(db'.outbox, flights', db'.runs[s.run].lastSequence, s)
  {
    hide Announced;
  }

  lemma InvNumbered(db: Db)
    requires Inv(db)
    ensures LogsNumbered(db.runs, db.events)
    ensures forall r :: r in db.runs ==> |Log(db.runs, db.events, r)| == db.runs[r].lastSequence
  {
  }

  /** Flights carry stored messages, so a fresh announcement has no flight. */
  ghost predicate FlightsStored(outbox: Dispatch.Outbox, flights: Dispatch.Flights) {
    forall slot :: slot in flights ==> flights[slot].key in outbox
  }

  lemma HeardCarries(db: Db, db': Db, flights: Dispatch.Flights, run: int)
    requires Heard(db, db') && EventRows(db.outbox) && FlightsStored(db.outbox, flights) && run in db.runs
    requires run in db'.runs
    ensures Carries(db, flights, db', flights, run)
  {
    forall n | Announced(db.outbox, flights, run, n) ensures Announced(db'.outbox, flights, run, n) { }
    if db'.runs[run].lastSequence > db.runs[run].lastSequence {
      assert Announced(db'.outbox, flights, run, db'.runs[run].lastSequence);
    }
  }

  lemma PhaseCarries(db: Db, flights: Dispatch.Flights, slot: int, phase: Dispatch.Phase, run: int)
    requires slot in flights && run in db.runs
    requires phase.Handled? ==> !flights[slot].key.RunEvent? || flights[slot].key.run != run
    ensures Carries(db, flights, db, flights[slot := flights[slot].(phase := phase)], run)
  {
    var flights' := flights[slot := flights[slot].(phase := phase)];
    forall n | Announced(db.outbox, flights, run, n) ensures Announced(db.outbox, flights', run, n) { }
  }

  lemma CarriesTransitive(a: Db, f: Dispatch.Flights, b: Db, g: Dispatch.Flights, c: Db, h: Dispatch.Flights, run: int)
    requires Carries(a, f, b, g, run) && Carries(b, g, c, h, run)
    ensures Carries(a, f, c, h, run)
  {
    hide Announced;
  }

  lemma SettleCarries(db: Db, flights: Dispatch.Flights, slot: int, row: OutboxRow, run: int)
    requires slot in flights && flights[slot].key in db.outbox && run in db.runs
    requires flights[slot].phase.Handled? || Dispatch.Live(row)
    ensures Carries(db, flights, db.(outbox := db.outbox[flights[slot].key := row]), flights - {slot}, run)
  {
    var db', flights' := db.(outbox := db.outbox[flights[slot].key := row]), flights - {slot};
    forall n | Announced(db.outbox, flights, run, n) ensures Announced(db'.outbox, flights', run, n) { }
  }

  lemma FlightAdded(db: Db, flights: Dispatch.Flights, slot: int, flight: Dispatch.Flight, run: int)
    requires slot !in flights && !flight.phase.Handled? && run in db.runs
    ensures Carries(db, flights, db, flights[slot := flight], run)
  {
    forall n | Announced(db.outbox, flights, run, n) ensures Announced(db.outbox, flights[slot := flight], run, n) { }
  }

  lemma FlightDropped(db: Db, flights: Dispatch.Flights, slot: int, run: int)
    requires run in db.runs
    ensures Carries(db, flights, db, flights - {slot}, run)
  {
    forall n | Announced(db.outbox, flights, run, n) ensures Announced(db.outbox, flights - {slot}, run, n) { }
  }

  lemma SystemFacts(s: Dispatch.System)
    requires Dispatch.SystemInv(s)
    ensures Inv(s.db) && FlightsStored(s.db.outbox, s.flights)
  {
    hide Inv, Dispatch.ExecutionsStarted;
  }

  /** What one server step does to a run's announcements. */
  lemma ServerCarries(w: World, step: Dispatch.Step, run: int)
    requires Dispatch.SystemInv(w.sys) && EventRows(w.sys.db.outbox) && StartsNoEvent(w.sys.flights)
    requires Dispatch.Allowed(w.sys, step) && run in w.sys.db.runs
    requires step.Inspect? && w.sys.flights[step.slot].key.RunEvent? ==> w.sys.flights[step.slot].key.run != run
    ensures var s' := Dispatch.Next(w.sys, step); Carries(w.sys.db, w.sys.flights, s'.db, s'.flights, run)
  {
    hide Dispatch.SystemInv, Inv;
    SystemFacts(w.sys);
    var s := w.sys;
    match step {
      case Transaction(op) =>
        hide Apply, Heard, EventRows, Carries, StartsNoEvent, FlightsStored;
        StepSound(s.db, op);
        ServerHeard(s.db, op);
        HeardCarries(s.db, Apply(s.db, op), s.flights, run);
      case Take(slot, key) => TakeCarries(s, slot, key, run);
      case Inspect(slot) =>
        hide EventRows, Carries, FlightsStored;
        PhaseCarries(s.db, s.flights, slot, Dispatch.Failing, run);
        PhaseCarries(s.db, s.flights, slot, Dispatch.Starting, run);
        PhaseCarries(s.db, s.flights, slot, Dispatch.Handled, run);
      case Refuse(slot) =>
        hide EventRows, Carries, FlightsStored;
        PhaseCarries(s.db, s.flights, slot, Dispatch.Failing, run);
      case Start(slot, reply) => StartCarries(s, slot, reply, run);
      case Acknowledge(slot) =>
        hide EventRows, Carries;
        SettleCarries(s.db, s.flights, slot, s.db.outbox[s.flights[slot].key].(status := Delivered), run);
      case Retry(slot, attempts) =>
        hide EventRows, Carries, RetryDelay;
        SettleCarries(s.db, s.flights, slot,
            RetryOutbox(s.db, s.flights[slot].key, attempts).outbox[s.flights[slot].key], run);
      case Vanish(slot) =>
        hide EventRows, Carries;
        FlightDropped(s.db, s.flights, slot, run);
    }
  }

  lemma ServerHeard(db: Db, op: Op)
    requires Inv(db) && EventRows(db.outbox) && !op.OpDelivered?
    ensures Heard(db, Apply(db, op))
  {
    hide Inv, EventRows, Heard, InterruptStale;
    if op.OpRestart? {
      RestartHeard(db, op.order);
    } else {
      hide Apply;
      TransactionHeard(db, op);
    }
  }

  lemma TakeCarries(s: Dispatch.System, slot: int, key: OutboxKey, run: int)
    requires Inv(s.db) && FlightsStored(s.db.outbox, s.flights) && EventRows(s.db.outbox)
    requires slot !in s.flights && Due(s.db, key) && run in s.db.runs
    ensures var s' := Dispatch.Next(s, Dispatch.Take(slot, key)); Carries(s.db, s.flights, s'.db, s'.flights, run)
  {
    hide Inv, Carries, Heard, EventRows, FlightsStored;
    var db := ClaimOutboxRow(s.db, key);
    ClaimHeard(s.db, key);
    assert db.runs == s.db.runs;
    HeardCarries(s.db, db, s.flights, run);
    FlightAdded(db, s.flights, slot, Dispatch.Flight(key, s.db.outbox[key].run, Dispatch.Taken), run);
    CarriesTransitive(s.db, s.flights, db, s.flights, db,
        s.flights[slot := Dispatch.Flight(key, s.db.outbox[key].run, Dispatch.Taken)], run);
  }

  lemma StartCarries(s: Dispatch.System, slot: int, reply: bool, run: int)
    requires Inv(s.db) && FlightsStored(s.db.outbox, s.flights) && EventRows(s.db.outbox)
    requires slot in s.flights && !s.flights[slot].key.RunEvent? && run in s.db.runs
    ensures var s' := Dispatch.Next(s, Dispatch.Start(slot, reply)); Carries(s.db, s.flights, s'.db, s'.flights, run)
  {
    hide Inv, Carries, Heard, EventRows, FlightsStored, MarkRunning, Extends, Moves;
    var db := MarkRunning(s.db, s.flights[slot].run).db;
    TransactionHeard(s.db, OpMarkRunning(s.flights[slot].run));
    StepSound(s.db, OpMarkRunning(s.flights[slot].run));
    StaysKnown(s.db, db, run);
    HeardCarries(s.db, db, s.flights, run);
    PhaseCarries(db, s.flights, slot, Dispatch.Handled, run);
    PhaseCarries(db, s.flights, slot, Dispatch.Failing, run);
    CarriesTransitive(s.db, s.flights, db, s.flights, db,
        s.flights[slot := s.flights[slot].(phase := Dispatch.Handled)], run);
    CarriesTransitive(s.db, s.flights, db, s.flights, db,
        s.flights[slot := s.flights[slot].(phase := Dispatch.Failing)], run);
  }

  lemma StaysKnown(db: Db, after: Db, run: int)
    requires Extends(db, after) && run in db.runs
    ensures run in after.runs
  {
  }

  lemma ServerRows(s: Dispatch.System, step: Dispatch.Step)
    requires Dispatch.SystemInv(s) && EventRows(s.db.outbox) && StartsNoEvent(s.flights) && Dispatch.Allowed(s, step)
    ensures var s' := Dispatch.Next(s, step); EventRows(s'.db.outbox) && StartsNoEvent(s'.flights)
    ensures Inv(s.db) && Inv(Dispatch.Next(s, step).db) && Extends(s.db, Dispatch.Next(s, step).db)
  {
    hide Dispatch.SystemInv, Inv, Extends, Moves, Heard, EventRows;
    SystemFacts(s);
    FrameSound(s.db, s.db) by { StoredIds(s.db); }
    match step
    case Transaction(op) =>
      hide Apply;
      StepSound(s.db, op);
      ServerHeard(s.db, op);
      HeardRows(s.db, Apply(s.db, op));
    case Take(slot, key) =>
      StepSound(s.db, OpClaimOutbox(key));
      ClaimHeard(s.db, key);
      HeardRows(s.db, ClaimOutboxRow(s.db, key));
    case Start(slot, reply) =>
      hide MarkRunning;
      StepSound(s.db, OpMarkRunning(s.flights[slot].run));
      TransactionHeard(s.db, OpMarkRunning(s.flights[slot].run));
      HeardRows(s.db, MarkRunning(s.db, s.flights[slot].run).db);
    case Acknowledge(slot) =>
      StepSound(s.db, OpDelivered(s.flights[slot].key));
      DeliveredRows(s.db, s.flights[slot].key);
    case Retry(slot, attempts) =>
      hide RetryOutbox;
      StepSound(s.db, OpRetry(s.flights[slot].key, attempts));
      RetryHeard(s.db, s.flights[slot].key, attempts);
      HeardRows(s.db, RetryOutbox(s.db, s.flights[slot].key, attempts));
    case Inspect(slot) =>
    case Refuse(slot) =>
    case Vanish(slot) =>
  }

  lemma StoredIds(db: Db)
    requires Inv(db)
    ensures forall k :: k in db.checkpoints ==> k in db.runs
  {
  }

  lemma HeardRows(db: Db, after: Db)
    requires Heard(db, after) && EventRows(db.outbox)
    ensures EventRows(after.outbox)
  {
  }

  lemma DeliveredRows(db: Db, key: OutboxKey)
    requires EventRows(db.outbox)
    ensures EventRows(MarkOutboxDelivered(db, key).outbox)
  {
  }

  lemma ServerKeeps(w: World, step: Dispatch.Step, process: int)
    requires WorldInv(w) && Dispatch.Allowed(w.sys, step)
    ensures WorldInv(Next(w, Server(step, process)))
  {
    var w' := Next(w, Server(step, process));
    hide Dispatch.SystemInv, Inv, EventRows, StartsNoEvent, Subscribed, Dispatch.Next, Dispatch.Allowed, Extends;
    Dispatch.NextKeeps(w.sys, step);
    ServerRows(w.sys, step);
    InvNumbered(w.sys.db);
    InvNumbered(w'.sys.db);
    hide LogsNumbered, Log;
    forall id | id in w'.subs
      ensures Subscribed(w'.sys.db, w'.subs[id])
    {
      assert Subscribed(w.sys.db, w.subs[id]);
      SubscriberKept(w.sys.db, w'.sys.db, w.subs[id], w'.subs[id]);
    }
  }

  lemma AllowedSlot(s: Dispatch.System, step: Dispatch.Step)
    requires Dispatch.Allowed(s, step)
    ensures step.Inspect? ==> step.slot in s.flights
  {
  }

  lemma SubscribedRun(w: World, id: int)
    requires WorldInv(w) && id in w.subs
    ensures w.subs[id].run in w.sys.db.runs
  {
    hide Dispatch.SystemInv, EventRows, Gapless, Log;
  }

  // ---- the subscribers' own steps ---------------------------------------------------------------

  /** The cursor's successor is the first stored event after it, or there is none. */
  lemma FollowingIsFirst(db: Db, run: int, after: nat)
    requires LogsNumbered(db.runs, db.events) && run in db.runs
    ensures match Following(db, run, after)
      case None => forall n :: n > after ==> (run, n) !in db.events
      case Some(first) =>
        first > after && (run, first) in db.events && forall n :: after < n < first ==> (run, n) !in db.events
  {
  }

  lemma ListKeeps(db: Db, s: Subscriber)
    requires Inv(db) && Subscribed(db, s)
    ensures match Following(db, s.run, s.after)
      case None => Subscribed(db, s.(stage := Checking)) && s.after >= db.runs[s.run].lastSequence
      case Some(n) =>
        n >= 0 && Subscribed(db, s.(after := n, received := s.received + [db.events[(s.run, n)]], stage := Listing))
  {
    hide LogsFit;
    var log := Log(db.runs, db.events, s.run);
    if (s.run, s.after + 1) in db.events {
      assert log[s.start..s.after + 1] == log[s.start..s.after] + [log[s.after]];
    }
  }

  lemma SubscriberStep(w: World, step: Step)
    requires WorldInv(w) && Allowed(w, step) && !step.Server?
    ensures WorldInv(Next(w, step))
  {
    hide Dispatch.SystemInv, Inv, EventRows, StartsNoEvent, Log;
    SystemFacts(w.sys);
    match step
    case List(id) =>
      hide Subscribed;
      ListKeeps(w.sys.db, w.subs[id]);
    case Subscribe(_, _, _, _) =>
    case Check(_) =>
    case Wake(_) =>
    case Heartbeat(_) =>
    case Notify(_, _) =>
    case Close(_) =>
  }

  lemma NextKeeps(w: World, step: Step)
    requires WorldInv(w) && Allowed(w, step)
    ensures WorldInv(Next(w, step))
  {
    if step.Server? {
      hide WorldInv, Next;
      ServerKeeps(w, step.step, step.process);
      assert step == Server(step.step, step.process);
    } else {
      hide WorldInv, Next, Allowed;
      SubscriberStep(w, step);
    }
  }

  // ---- wake-ups -----------------------------------------------------------------------------------

  /** Outside announcements a step leaves every subscriber that has its announcement with one. */
  lemma QuietWakeful(w: World, step: Dispatch.Step, process: int)
    requires WorldInv(w) && AllWakeful(w) && Dispatch.Allowed(w.sys, step) && Announces(w.sys, step).None?
    ensures AllWakeful(Next(w, Server(step, process)))
  {
    var w' := Next(w, Server(step, process));
    hide Dispatch.SystemInv, Dispatch.Allowed, EventRows, StartsNoEvent, Subscribed, Dispatch.Next, Carries, Wakeful;
    forall id | id in w'.subs && w'.subs[id].run in w'.sys.db.runs
      ensures Wakeful(w'.sys.db.outbox, w'.sys.flights, w'.sys.db.runs[w'.subs[id].run].lastSequence, w'.subs[id])
    {
      SubscribedRun(w, id);
      assert !(step.Inspect? && w.sys.flights[step.slot].key.RunEvent?) by { AllowedSlot(w.sys, step); }
      ServerCarries(w, step, w.subs[id].run);
      assert w.subs[id].run in w.sys.db.runs;
      WakefulKept(w.sys.db, w.sys.flights, w'.sys.db, w'.sys.flights, w.subs[id]);
    }
  }

  /** Looking at an announcement ends that one and no other. */
  lemma InspectedAnnouncement(s: Dispatch.System, slot: int, run: int, n: int)
    requires slot in s.flights && s.flights[slot].key.RunEvent?
    ensures var s' := Dispatch.Next(s, Dispatch.Inspect(slot));
      s'.db == s.db
      && (Announced(s'.db.outbox, s'.flights, run, n) <==>
            Announced(s.db.outbox, s.flights, run, n) && s.flights[slot].key != RunEvent(run, n))
  {
    var flights := Dispatch.Next(s, Dispatch.Inspect(slot)).flights;
    assert slot in flights && flights[slot] == s.flights[slot].(phase := Dispatch.Handled);
    assert forall other :: other in s.flights && other != slot ==>
        other in flights && flights[other] == s.flights[other];
    if Announced(s.db.outbox, flights, run, n) {
      forall other | other in s.flights && s.flights[other].key == RunEvent(run, n)
        ensures !s.flights[other].phase.Handled?
      {
        assert other in flights && flights[other].key == RunEvent(run, n);
      }
    }
  }

  lemma InspectWakeful(w: World, slot: int, process: int, id: int)
    requires AllWakeful(w) && slot in w.sys.flights && w.sys.flights[slot].key.RunEvent?
    requires id in w.subs && w.subs[id].run in w.sys.db.runs
    ensures var w', s, key := Next(w, Server(Dispatch.Inspect(slot), process)), w.subs[id], w.sys.flights[slot].key;
      Wakeful(w'.sys.db.outbox, w'.sys.flights, w'.sys.db.runs[s.run].lastSequence, w'.subs[id]) <==>
      (s.run == key.run && s.home != process && Depends(s, w.sys.db.runs[s.run].lastSequence) ==>
         exists n :: n != key.sequence && Announced(w.sys.db.outbox, w.sys.flights, key.run, n))
  {
    var w', s := Next(w, Server(Dispatch.Inspect(slot), process)), w.subs[id];
    var last := w.sys.db.runs[s.run].lastSequence;
    assert Wakeful(w.sys.db.outbox, w.sys.flights, last, s);
    forall n ensures Announced(w'.sys.db.outbox, w'.sys.flights, s.run, n) <==>
        Announced(w.sys.db.outbox, w.sys.flights, s.run, n) && w.sys.flights[slot].key != RunEvent(s.run, n)
    {
      InspectedAnnouncement(w.sys, slot, s.run, n);
    }
    assert w'.sys.db == w.sys.db;
    hide Announced, Dispatch.Next, AllWakeful;
  }

  lemma InspectAllWakeful(w: World, slot: int, process: int)
    requires WorldInv(w) && AllWakeful(w) && slot in w.sys.flights && w.sys.flights[slot].key.RunEvent?
    ensures AllWakeful(Next(w, Server(Dispatch.Inspect(slot), process))) <==>
            Harmless(w, Server(Dispatch.Inspect(slot), process))
  {
    var w' := Next(w, Server(Dispatch.Inspect(slot), process));
    InspectedAnnouncement(w.sys, slot, 0, 0);
    assert w'.subs.Keys == w.subs.Keys && w'.sys.db == w.sys.db;
    assert forall id :: id in w.subs ==> w'.subs[id].run == w.subs[id].run;
    forall id | id in w.subs
      ensures var s, key := w.subs[id], w.sys.flights[slot].key;
        s.run in w.sys.db.runs &&
        (Wakeful(w'.sys.db.outbox, w'.sys.flights, w'.sys.db.runs[s.run].lastSequence, w'.subs[id]) <==>
         (s.run == key.run && s.home != process && Depends(s, w.sys.db.runs[s.run].lastSequence) ==>
            exists n :: n != key.sequence && Announced(w.sys.db.outbox, w.sys.flights, key.run, n)))
    {
      hide WorldInv, Next, AllWakeful, Wakeful, Announced, Depends;
      SubscribedRun(w, id);
      InspectWakeful(w, slot, process, id);
    }
    hide Next, Wakeful, Announced, Depends, WorldInv;
  }

  /** One step keeps every subscriber's announcement if and only if it is harmless. */
  lemma ServerWakeful(w: World, step: Dispatch.Step, process: int)
    requires WorldInv(w) && AllWakeful(w) && Dispatch.Allowed(w.sys, step)
    ensures AllWakeful(Next(w, Server(step, process))) <==> Harmless(w, Server(step, process))
  {
    if Announces(w.sys, step).None? {
      assert Harmless(w, Server(step, process));
      hide Next, WorldInv, AllWakeful, Harmless;
      QuietWakeful(w, step, process);
    } else {
      hide Next, WorldInv, AllWakeful, Harmless;
      InspectAllWakeful(w, step.slot, process);
      assert step == Dispatch.Inspect(step.slot);
    }
  }

  lemma SubscriberWakeful(w: World, step: Step)
    requires WorldInv(w) && AllWakeful(w) && Allowed(w, step) && !step.Server?
    ensures AllWakeful(Next(w, step))
  {
    hide Dispatch.SystemInv, EventRows, StartsNoEvent, Announced, Gapless;
    match step
    case List(id) => ListWakeful(w, id);
    case _ =>
  }

  lemma ListWakeful(w: World, id: int)
    requires WorldInv(w) && AllWakeful(w) && Allowed(w, List(id))
    ensures AllWakeful(Next(w, List(id)))
  {
    hide Dispatch.SystemInv, EventRows, StartsNoEvent, Announced;
    SystemFacts(w.sys);
    hide Inv;
    ListKeeps(w.sys.db, w.subs[id]) by { assert Subscribed(w.sys.db, w.subs[id]); }
    hide Subscribed;
  }

  lemma NextWakeful(w: World, step: Step)
    requires WorldInv(w) && AllWakeful(w) && Allowed(w, step)
    ensures AllWakeful(Next(w, step)) <==> Harmless(w, step)
  {
    if step.Server? {
      hide WorldInv, AllWakeful, Next, Harmless;
      ServerWakeful(w, step.step, step.process);
      assert step == Server(step.step, step.process);
    } else {
      hide WorldInv, AllWakeful, Next, Allowed;
      SubscriberWakeful(w, step);
    }
  }

  const Boot := World(Dispatch.Boot, map[])

  function Reached(steps: seq<Step>): World {
    if steps == [] then Boot else Next(Reached(steps[..|steps| - 1]), steps[|steps| - 1])
  }

  ghost predicate Legal(steps: seq<Step>) {
    forall i :: 0 <= i < |steps| ==> Allowed(Reached(steps[..i]), steps[i])
  }

  lemma {:induction false} ReachedInv(steps: seq<Step>)
    requires Legal(steps)
    ensures WorldInv(Reached(steps))
    decreases |steps|
  {
    if steps == [] {
      EmptyIsSound();
    } else {
      var front, last := steps[..|steps| - 1], steps[|steps| - 1];
      assert forall i :: 0 <= i < |front| ==> front[..i] == steps[..i];
      hide WorldInv, Next;
      ReachedInv(front);
      NextKeeps(Reached(front), last);
    }
  }

  /** In order, exactly once: whatever happens, what a subscription has returned is the stretch of
      its run's log from the cursor it was opened with, without gap or duplicate. */
  lemma DeliveryIsGapless(steps: seq<Step>, id: int)
    requires Legal(steps) && id in Reached(steps).subs
    ensures var w, s := Reached(steps), Reached(steps).subs[id];
      && LogsNumbered(w.sys.db.runs, w.sys.db.events) && s.run in w.sys.db.runs
      && Gapless(Log(w.sys.db.runs, w.sys.db.events, s.run), s)
  {
    ReachedInv(steps);
    hide Reached, Log, Gapless, EventRows;
    SystemFacts(Reached(steps).sys);
    hide LogsFit;
  }

  ghost predicate AlwaysWakeful(steps: seq<Step>) {
    forall i :: 0 <= i <= |steps| ==> AllWakeful(Reached(steps[..i]))
  }

  ghost predicate AlwaysHarmless(steps: seq<Step>) {
    forall i :: 0 <= i < |steps| ==> Harmless(Reached(steps[..i]), steps[i])
  }

  lemma AlwaysUntil(steps: seq<Step>, n: nat)
    requires |steps| == n + 1
    ensures AlwaysWakeful(steps) <==> AlwaysWakeful(steps[..n]) && AllWakeful(Reached(steps))
    ensures AlwaysHarmless(steps) <==> AlwaysHarmless(steps[..n]) && Harmless(Reached(steps[..n]), steps[n])
    ensures AlwaysWakeful(steps) ==> AllWakeful(Reached(steps[..n]))
    ensures AlwaysWakeful(steps[..n]) ==> AllWakeful(Reached(steps[..n]))
  {
    hide AllWakeful, Harmless, Reached;
    assert forall i :: 0 <= i <= n ==> steps[..n][..i] == steps[..i];
    assert steps[..n + 1] == steps && steps[..n][..n] == steps[..n];
  }

  lemma LegalUntil(steps: seq<Step>, n: nat)
    requires |steps| == n + 1 && Legal(steps)
    ensures Legal(steps[..n]) && Allowed(Reached(steps[..n]), steps[n])
    ensures Reached(steps) == Next(Reached(steps[..n]), steps[n])
  {
    hide Allowed, Next;
    assert forall i :: 0 <= i < n ==> steps[..n][..i] == steps[..i];
  }

  /** No lost wake-up, exactly: in all states every subscription that sleeps or is about to, with
      undelivered events and without a token, has an announcement of its run still to be delivered, if
      and only if no announcement is looked at in another process while such a subscription has no other. */
  lemma {:induction false} NoLostWakeup(steps: seq<Step>)
    requires Legal(steps)
    ensures AlwaysWakeful(steps) <==> AlwaysHarmless(steps)
    decreases |steps|
  {
    if steps == [] {
      NobodySleeps();
    } else {
      var n := |steps| - 1;
      AlwaysUntil(steps, n);
      LegalUntil(steps, n);
      hide *;
      NoLostWakeup(steps[..n]);
      ReachedInv(steps[..n]);
      if AllWakeful(Reached(steps[..n])) { NextWakeful(Reached(steps[..n]), steps[n]); }
    }
  }

  lemma NobodySleeps()
    ensures AllWakeful(Boot)
  {
  }

  /** Subscriptions of a run live where its announcements are looked at. */
  ghost predicate OneHome(steps: seq<Step>, process: int) {
    && (forall i :: 0 <= i < |steps| && steps[i].Server? ==> steps[i].process == process)
    && (forall i :: 0 <= i < |steps| && steps[i].Subscribe? ==> steps[i].home == process)
  }

  lemma {:induction false} AllAtHome(steps: seq<Step>, process: int)
    requires OneHome(steps, process)
    ensures forall id :: id in Reached(steps).subs ==> Reached(steps).subs[id].home == process
    decreases |steps|
  {
    if steps != [] {
      var n := |steps| - 1;
      AllAtHome(steps[..n], process);
      StaysAtHome(Reached(steps[..n]), steps[n], process);
    }
  }

  lemma StaysAtHome(w: World, step: Step, process: int)
    requires forall id :: id in w.subs ==> w.subs[id].home == process
    requires step.Subscribe? ==> step.home == process
    ensures forall id :: id in Next(w, step).subs ==> Next(w, step).subs[id].home == process
  {
    hide Dispatch.Next;
  }

  /** With one process dispatching and serving, no wake-up is lost. */
  lemma OneProcessWakes(steps: seq<Step>, process: int)
    requires Legal(steps) && OneHome(steps, process)
    ensures AllWakeful(Reached(steps))
  {
    forall i | 0 <= i < |steps|
      ensures Harmless(Reached(steps[..i]), steps[i])
    {
      AllAtHome(steps[..i], process);
      hide Reached, Announced;
    }
    NoLostWakeup(steps);
    assert steps[..|steps|] == steps;
    hide Harmless, AllWakeful, Legal, OneHome, Reached;
  }

  // ---- a wake-up that goes to another process -------------------------------------------------------

  lemma Longer(steps: seq<Step>, step: Step)
    requires Legal(steps) && Allowed(Reached(steps), step)
    ensures Legal(steps + [step]) && Reached(steps + [step]) == Next(Reached(steps), step)
  {
    var more := steps + [step];
    assert more[..|steps|] == steps && forall i :: 0 <= i < |steps| ==> more[..i] == steps[..i];
    hide Allowed, Next;
  }

  /** A subscriber of process 1 that has seen the creation of run 1 and went to sleep. */
  const Sleeper := Subscriber(1, 1, 1, 1, [], Asleep, false)

  lemma CreatedWorld(req: StartRequest)
    ensures Next(Boot, Server(Dispatch.Transaction(OpCreate(req)), 2))
         == World(Dispatch.System(NewRun(EmptyDb, req), map[], map[]), map[])
  {
    assert !HasRequest(EmptyDb, req.requestId) && !HasActive(EmptyDb, req.app);
  }

  lemma GoesToSleep(sys: Dispatch.System)
    requires 1 in sys.db.runs && !Halted(sys.db.runs[1].status) && (1, 2) !in sys.db.events
    ensures var w := World(sys, map[]);
      var w1 := Next(w, Subscribe(0, 1, 1, 1));
      var w2 := Next(w1, List(0));
      && Allowed(w, Subscribe(0, 1, 1, 1)) && Allowed(w1, List(0)) && Allowed(w2, Check(0))
      && Next(w2, Check(0)) == World(sys, map[0 := Sleeper])
  {
    var s := Subscriber(1, 1, 1, 1, [], Listing, false);
    assert Next(World(sys, map[]), Subscribe(0, 1, 1, 1)) == World(sys, map[0 := s]);
    assert map[0 := s][0 := s.(stage := Checking)] == map[0 := s.(stage := Checking)];
    assert map[0 := s.(stage := Checking)][0 := Sleeper] == map[0 := Sleeper];
  }

  lemma FallAsleep(req: StartRequest) returns (steps: seq<Step>)
    ensures Legal(steps)
    ensures Reached(steps) == World(Dispatch.System(NewRun(EmptyDb, req), map[], map[]), map[0 := Sleeper])
  {
    var create := Server(Dispatch.Transaction(OpCreate(req)), 2);
    GoesToSleep(Dispatch.System(NewRun(EmptyDb, req), map[], map[]));
    CreatedWorld(req);
    assert Reached([]) == Boot && Legal([]) && Allowed(Boot, create);
    hide *;
    Longer([], create);
    Longer([create], Subscribe(0, 1, 1, 1));
    Longer([create] + [Subscribe(0, 1, 1, 1)], List(0));
    Longer([create] + [Subscribe(0, 1, 1, 1)] + [List(0)], Check(0));
    steps := [create] + [Subscribe(0, 1, 1, 1)] + [List(0)] + [Check(0)];
    assert [] + [create] == [create];
  }

  /** Only the start is announced, and process 2 has claimed that announcement. */
  ghost predicate StartAnnounced(w: World, slot: int) {
    && w.subs == map[0 := Sleeper] && 1 in w.sys.db.runs && w.sys.db.runs[1].lastSequence == 2
    && (forall key :: key in w.sys.db.outbox && key.RunEvent? ==> key == RunEvent(1, 2))
    && slot in w.sys.flights && w.sys.flights[slot] == Dispatch.Flight(RunEvent(1, 2), 1, Dispatch.Taken)
  }

  lemma FindPending(s: Dispatch.System, req: StartRequest)
    requires s == Dispatch.System(NewRun(EmptyDb, req), map[], map[])
    ensures var take, inspect := Dispatch.Take(0, TaskReady(1)), Dispatch.Inspect(0);
      && Dispatch.Allowed(s, take) && Dispatch.Allowed(Dispatch.Next(s, take), inspect)
      && var found := Dispatch.Next(Dispatch.Next(s, take), inspect);
      && found.db == ClaimOutboxRow(s.db, TaskReady(1)) && found.executions == map[]
      && found.flights == map[0 := Dispatch.Flight(TaskReady(1), 1, Dispatch.Starting)]
  {
  }

  lemma StartedTables(db: Db, req: StartRequest)
    requires db == ClaimOutboxRow(NewRun(EmptyDb, req), TaskReady(1))
    ensures MarkRunning(db, 1).outcome.Ok?
    ensures var after := MarkRunning(db, 1).db;
      && 1 in after.runs && after.runs[1].lastSequence == 2
      && (forall key :: key in after.outbox && key.RunEvent? ==> key == RunEvent(1, 2))
      && Due(after, RunEvent(1, 2)) && after.outbox[RunEvent(1, 2)].run == 1
  {
    AdvanceFields(db, 1, db.runs[1].(status := Running), [RunStarted]);
    hide Advance, AddEvents;
  }

  lemma StartIsAnnounced(s: Dispatch.System, req: StartRequest)
    requires s.db == ClaimOutboxRow(NewRun(EmptyDb, req), TaskReady(1))
    requires s.flights == map[0 := Dispatch.Flight(TaskReady(1), 1, Dispatch.Starting)]
    ensures Dispatch.Allowed(s, Dispatch.Start(0, true))
    ensures var started := Dispatch.Next(s, Dispatch.Start(0, true));
      && 1 in started.db.runs && started.db.runs[1].lastSequence == 2 && 1 !in started.flights
      && (forall key :: key in started.db.outbox && key.RunEvent? ==> key == RunEvent(1, 2))
      && Due(started.db, RunEvent(1, 2)) && started.db.outbox[RunEvent(1, 2)].run == 1
  {
    StartedTables(s.db, req);
    hide MarkRunning, NewRun, ClaimOutboxRow;
    assert Dispatch.Next(s, Dispatch.Start(0, true)).db == MarkRunning(s.db, 1).db;
  }

  lemma AnnouncementTaken(s: Dispatch.System)
    requires 1 in s.db.runs && s.db.runs[1].lastSequence == 2 && 1 !in s.flights
    requires forall key :: key in s.db.outbox && key.RunEvent? ==> key == RunEvent(1, 2)
    requires Due(s.db, RunEvent(1, 2)) && s.db.outbox[RunEvent(1, 2)].run == 1
    ensures var take := Dispatch.Take(1, RunEvent(1, 2));
      Dispatch.Allowed(s, take) && StartAnnounced(World(Dispatch.Next(s, take), map[0 := Sleeper]), 1)
  {
  }

  /** A server step that announces nothing leaves the subscribers alone. */
  lemma ServerLonger(steps: seq<Step>, step: Dispatch.Step, process: int)
    requires Legal(steps) && Dispatch.Allowed(Reached(steps).sys, step) && Announces(Reached(steps).sys, step).None?
    ensures Legal(steps + [Server(step, process)])
    ensures Reached(steps + [Server(step, process)])
         == Reached(steps).(sys := Dispatch.Next(Reached(steps).sys, step))
  {
    hide Dispatch.Next, Dispatch.Allowed, Reached, Legal;
    Longer(steps, Server(step, process));
  }

  lemma AnnouncedElsewhere(req: StartRequest) returns (steps: seq<Step>)
    ensures Legal(steps) && StartAnnounced(Reached(steps), 1)
  {
    steps := FallAsleep(req);
    var s := Dispatch.System(NewRun(EmptyDb, req), map[], map[]);
    FindPending(s, req);
    var take, inspect := Dispatch.Take(0, TaskReady(1)), Dispatch.Inspect(0);
    var found := Dispatch.Next(Dispatch.Next(s, take), inspect);
    assert Announces(Dispatch.Next(s, take), inspect).None?;
    StartIsAnnounced(found, req);
    AnnouncementTaken(Dispatch.Next(found, Dispatch.Start(0, true)));
    hide Dispatch.Next, Dispatch.Allowed, Reached, Legal;
    ServerLonger(steps, take, 2);
    ServerLonger(steps + [Server(take, 2)], inspect, 2);
    steps := steps + [Server(take, 2)] + [Server(inspect, 2)];
    var start, again := Dispatch.Start(0, true), Dispatch.Take(1, RunEvent(1, 2));
    ServerLonger(steps, start, 2);
    ServerLonger(steps + [Server(start, 2)], again, 2);
    steps := steps + [Server(start, 2)] + [Server(again, 2)];
  }

  lemma NotWoken(w: World)
    requires StartAnnounced(w, 1)
    ensures Allowed(w, Server(Dispatch.Inspect(1), 2))
    ensures var w' := Next(w, Server(Dispatch.Inspect(1), 2));
      !AllWakeful(w') && w'.subs == map[0 := Sleeper] && 1 in w'.sys.db.runs && w'.sys.db.runs[1].lastSequence == 2
  {
    var w' := Next(w, Server(Dispatch.Inspect(1), 2));
    forall n ensures !Announced(w'.sys.db.outbox, w'.sys.flights, 1, n) { InspectedAnnouncement(w.sys, 1, 1, n); }
    assert w'.subs == map[0 := Sleeper] && Depends(Sleeper, 2);
    assert 0 in w'.subs && w'.subs[0].run in w'.sys.db.runs;
    assert !Wakeful(w'.sys.db.outbox, w'.sys.flights, w'.sys.db.runs[1].lastSequence, w'.subs[0]);
    hide Announced, Wakeful;
  }

  /** From the empty system: a run is created in one process, where a subscriber falls asleep; the other
      starts the run and looks at the announcement of the start. The subscriber sleeps on, with an event it
      has not seen and nothing to wake it but its own timer. */
  lemma WokenElsewhere(req: StartRequest) returns (steps: seq<Step>)
    ensures Legal(steps) && !AllWakeful(Reached(steps)) && Reached(steps).subs == map[0 := Sleeper]
    ensures 1 in Reached(steps).sys.db.runs && Reached(steps).sys.db.runs[1].lastSequence > Sleeper.after
  {
    steps := AnnouncedElsewhere(req);
    NotWoken(Reached(steps));
    hide *;
    Longer(steps, Server(Dispatch.Inspect(1), 2));
    steps := steps + [Server(Dispatch.Inspect(1), 2)];
  }

  ghost predicate FullyDelivered(w: World, s: Subscriber) {
    && s.run in w.sys.db.runs && LogsNumbered(w.sys.db.runs, w.sys.db.events)
    && var row, log := w.sys.db.runs[s.run], Log(w.sys.db.runs, w.sys.db.events, s.run);
       && Halted(row.status)
       && (s.start <= |log| ==> s.received == log[s.start..])
       && (Terminal(row.status) && s.received != [] ==> s.received[|s.received| - 1] == Done)
  }

  lemma GaplessToTheEnd(log: seq<EventType>, row: Run, s: Subscriber)
    requires Gapless(log, s) && LogFits(log, row) && s.after >= |log|
    ensures s.start <= |log| ==> s.received == log[s.start..]
    ensures Terminal(row.status) && s.received != [] ==> s.received[|s.received| - 1] == Done
  {
    hide Path;
  }

  lemma CheckEnds(w: World, id: int)
    requires WorldInv(w) && Allowed(w, Check(id)) && Next(w, Check(id)).subs[id].stage.Ended?
    ensures FullyDelivered(w, w.subs[id])
  {
    hide Dispatch.SystemInv, EventRows, StartsNoEvent, LogFits, Gapless;
    SystemFacts(w.sys);
    var s := w.subs[id];
    assert Subscribed(w.sys.db, s);
    assert LogFits(Log(w.sys.db.runs, w.sys.db.events, s.run), w.sys.db.runs[s.run]);
    hide LogsNumbered, LogsFit;
    GaplessToTheEnd(Log(w.sys.db.runs, w.sys.db.events, s.run), w.sys.db.runs[s.run], s);
  }

  /** The end of the stream means the run has halted and everything was delivered; for a finished
      run that got anything, the last event is `done`. */
  lemma EndMeansAllDelivered(steps: seq<Step>, id: int)
    requires Legal(steps + [Check(id)]) && id in Reached(steps + [Check(id)]).subs
    requires Reached(steps + [Check(id)]).subs[id].stage.Ended?
    ensures id in Reached(steps).subs && FullyDelivered(Reached(steps), Reached(steps).subs[id])
  {
    var more := steps + [Check(id)];
    assert more[..|steps|] == steps && forall i :: 0 <= i < |steps| ==> more[..i] == steps[..i];
    assert Allowed(Reached(more[..|steps|]), more[|steps|]);
    hide WorldInv, Next, FullyDelivered;
    ReachedInv(steps);
    assert Reached(more) == Next(Reached(steps), Check(id));
    hide Reached;
    CheckEnds(Reached(steps), id);
  }

  // ---- a subscription that lists gets on --------------------------------------------------------------

  /** Listing n times. */
  function Listed(w: World, id: int, n: nat): World {
    if n == 0 then w else Next(Listed(w, id, n - 1), List(id))
  }

  lemma ListTakesNext(w: World, id: int)
    requires LogsNumbered(w.sys.db.runs, w.sys.db.events) && id in w.subs && w.subs[id].run in w.sys.db.runs
    ensures var s, db := w.subs[id], w.sys.db;
      var w' := Next(w, List(id));
      && w'.sys == w.sys && id in w'.subs
      && w'.subs[id] == if s.after < db.runs[s.run].lastSequence
           then s.(after := s.after + 1, received := s.received + [db.events[(s.run, s.after + 1)]])
           else s.(stage := Checking)
  {
  }

  /** Undisturbed, a subscription gets one event after the other to the end of the log, each time it lists, and
      only then looks whether the run has halted. */
  lemma {:induction false} ListingCatchesUp(w: World, id: int, n: nat)
    requires LogsNumbered(w.sys.db.runs, w.sys.db.events) && id in w.subs && w.subs[id].run in w.sys.db.runs
    requires w.subs[id].after + n <= w.sys.db.runs[w.subs[id].run].lastSequence
    ensures var s, log := w.subs[id], Log(w.sys.db.runs, w.sys.db.events, w.subs[id].run);
      var end := Listed(w, id, n);
      && end.sys == w.sys && id in end.subs
      && end.subs[id] == s.(after := s.after + n, received := s.received + log[s.after..s.after + n])
      && (s.after + n == |log| ==> Next(end, List(id)).subs[id].stage.Checking?)
    decreases n
  {
    hide Next, LogsNumbered;
    var s, log := w.subs[id], Log(w.sys.db.runs, w.sys.db.events, w.subs[id].run);
    if n == 0 {
      assert s.received + log[s.after..s.after] == s.received;
      ListTakesNext(w, id);
    } else {
      ListingCatchesUp(w, id, n - 1);
      var mid := Listed(w, id, n - 1);
      ListTakesNext(mid, id);
      assert log[s.after..s.after + n] == log[s.after..s.after + n - 1] + [log[s.after + n - 1]];
      ListTakesNext(Listed(w, id, n), id);
    }
  }
}
