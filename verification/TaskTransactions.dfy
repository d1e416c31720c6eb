/** What each transaction of the run store does to the database, stated as a function of the
    tables. GormStore proves that the statement-by-statement transactions compute these. */
module TaskTransactions {
  import opened TaskTypes

  /** The initial content of an outbox row that announces a stored event. */
  function EventMessage(id: int, now: int): OutboxRow {
    OutboxRow(id, EventAvailable, Waiting, 0, now, None, now)
  }

  function StartMessage(id: int, now: int): OutboxRow {
    OutboxRow(id, TaskReadyMessage, Waiting, 0, now, None, now)
  }

  /** One more event at the end of a run's log, with its outbox row. */
  function AppendOne(db: Db, id: int, e: EventType): Db
    requires id in db.runs
  {
    var n := db.runs[id].lastSequence + 1;
    db.(runs := db.runs[id := db.runs[id].(lastSequence := n)],
        events := db.events[(id, n) := e],
        outbox := db.outbox[RunEvent(id, n) := EventMessage(id, db.now)])
  }

  /** The event numbers a batch receives. */
  predicate Numbered(last: int, id: int, evts: seq<EventType>, key: (int, int)) {
    key.0 == id && last < key.1 <= last + |evts|
  }

  predicate Announces(last: int, id: int, evts: seq<EventType>, key: OutboxKey) {
    key.RunEvent? && Numbered(last, id, evts, (key.run, key.sequence))
  }

  function Numbers(last: int, id: int, evts: seq<EventType>): (keys: set<(int, int)>)
    ensures forall key :: key in keys <==> Numbered(last, id, evts, key)
  {
    set k | last < k <= last + |evts| :: (id, k)
  }

  function Announcements(last: int, id: int, evts: seq<EventType>): (keys: set<OutboxKey>)
    ensures forall key :: key in keys <==> Announces(last, id, evts, key)
  {
    set k | last < k <= last + |evts| :: RunEvent(id, k)
  }

  function AddEvents(
      events: map<(int, int), EventType>, last: int, id: int, evts: seq<EventType>): map<(int, int), EventType>
  {
    map key | key in events.Keys + Numbers(last, id, evts) ::
      if Numbered(last, id, evts, key) then evts[key.1 - last - 1] else events[key]
  }

  function AddMessages(
      outbox: map<OutboxKey, OutboxRow>, last: int, id: int, evts: seq<EventType>, now: int): map<OutboxKey, OutboxRow>
  {
    map key | key in outbox.Keys + Announcements(last, id, evts) ::
      if Announces(last, id, evts, key) then EventMessage(id, now) else outbox[key]
  }

  /** A batch of events at the end of a run's log: consecutive numbers after the last one, one
      outbox row each, nothing else touched. */
  function AppendAll(db: Db, id: int, evts: seq<EventType>): Db
    requires id in db.runs
  {
    var last := db.runs[id].lastSequence;
    db.(runs := db.runs[id := db.runs[id].(lastSequence := last + |evts|)],
        events := AddEvents(db.events, last, id, evts),
        outbox := AddMessages(db.outbox, last, id, evts, db.now))
  }

  lemma AddEventsExtends(events: map<(int, int), EventType>, last: int, id: int, evts: seq<EventType>, e: EventType)
    ensures AddEvents(events, last, id, evts)[(id, last + |evts| + 1) := e] == AddEvents(events, last, id, evts + [e])
  {
    var one, whole := AddEvents(events, last, id, evts)[(id, last + |evts| + 1) := e],
        AddEvents(events, last, id, evts + [e]);
    assert one.Keys == whole.Keys;
  }

  lemma AddMessagesExtends(outbox: map<OutboxKey, OutboxRow>, last: int, id: int, evts: seq<EventType>, e: EventType,
        now: int)
    ensures AddMessages(outbox, last, id, evts, now)[RunEvent(id, last + |evts| + 1) := EventMessage(id, now)]
         == AddMessages(outbox, last, id, evts + [e], now)
  {
    var one := AddMessages(outbox, last, id, evts, now)[RunEvent(id, last + |evts| + 1) := EventMessage(id, now)];
    var whole := AddMessages(outbox, last, id, evts + [e], now);
    assert one.Keys == whole.Keys;
  }

  /** Appending one at a time, with the run's sequence counter advanced in between, is the batch. */
  lemma AppendOneExtends(db: Db, id: int, evts: seq<EventType>, e: EventType)
    requires id in db.runs
    ensures AppendOne(AppendAll(db, id, evts), id, e) == AppendAll(db, id, evts + [e])
  {
    hide AddEvents, AddMessages;
    var row, n := db.runs[id], db.runs[id].lastSequence + |evts| + 1;
    AddEventsExtends(db.events, row.lastSequence, id, evts, e);
    AddMessagesExtends(db.outbox, row.lastSequence, id, evts, e, db.now);
    assert |evts + [e]| == |evts| + 1;
    assert AppendAll(db, id, evts).runs[id := row.(lastSequence := n)] == db.runs[id := row.(lastSequence := n)];
  }

  lemma AppendNone(db: Db, id: int)
    requires id in db.runs
    ensures AppendAll(db, id, []) == db
  {
    assert AddEvents(db.events, db.runs[id].lastSequence, id, []) == db.events;
    assert AddMessages(db.outbox, db.runs[id].lastSequence, id, [], db.now) == db.outbox;
  }

  /** A run row is updated and its events are appended. */
  function Advance(db: Db, id: int, row: Run, evts: seq<EventType>): Db
    requires id in db.runs && row.lastSequence == db.runs[id].lastSequence
  {
    AppendAll(db.(runs := db.runs[id := row]), id, evts)
  }

  // ---- creation -------------------------------------------------------------------------

  predicate HasRequest(db: Db, requestId: string) {
    exists r :: r in db.runs && db.runs[r].request.requestId == requestId
  }

  predicate HasActive(db: Db, app: int) {
    exists r :: r in db.runs && db.runs[r].activeKey == Some(app)
  }

  /** Replaying a request identifier returns the stored run, and only for an identical request. */
  function ReplayRun(db: Db, id: int, req: StartRequest): Outcome
    requires id in db.runs
  {
    if db.runs[id].request == req then Replayed(id) else RequestConflict
  }

  function NewRun(db: Db, req: StartRequest): Db {
    var id := db.nextId;
    db.(runs := db.runs[id := Run(req, Pending, Some(req.app), 1, None)],
        events := db.events[(id, 1) := RunCreated],
        outbox := db.outbox[TaskReady(id) := StartMessage(id, db.now)],
        nextId := id + 1)
  }

  /** `found` is the row a lookup by request identifier or by active key returns. */
  ghost predicate CreateRun(db: Db, req: StartRequest, r: Result) {
    if HasRequest(db, req.requestId) then
      exists id :: id in db.runs && db.runs[id].request.requestId == req.requestId
          && r == Result(db, ReplayRun(db, id, req))
    else if HasActive(db, req.app) then
      exists id :: id in db.runs && db.runs[id].activeKey == Some(req.app) && r == Result(db, ActiveRun(id))
    else r == Result(NewRun(db, req), Created(db.nextId))
  }

  // ---- execution ------------------------------------------------------------------------

  function MarkRunning(db: Db, id: int): Result {
    if id !in db.runs then Result(db, NotFound)
    else if !db.runs[id].status.Pending? then Result(db, Refused)
    else Result(Advance(db, id, db.runs[id].(status := Running), [RunStarted]), Ok)
  }

  predicate Executing(s: Status) { s.Running? || s.Pausing? }

  /** Handlers emit semantic progress events only. */
  function AppendEvent(db: Db, id: int, kind: string): Result {
    if id !in db.runs then Result(db, NotFound)
    else if !Executing(db.runs[id].status) then Result(db, Refused)
    else Result(Advance(db, id, db.runs[id], [Semantic(kind)]), Ok)
  }

  // ---- ownership and publication --------------------------------------------------------

  /** The fence: the claim is the current, unexpired ownership of its app. */
  predicate ValidClaim(db: Db, c: Claim) {
    && c.app in db.apps
    && db.apps[c.app].epoch == c.epoch
    && db.apps[c.app].owner == c.owner
    && db.apps[c.app].leaseUntil > db.now
  }

  function ClaimApp(db: Db, app: int, owner: string, ttl: int): Result {
    if app <= 0 || owner == "" || ttl <= 0 then Result(db, Refused) else
      var row := if app in db.apps then db.apps[app] else AppExecution(0, "", db.now, 0, "");
      if row.owner != "" && row.leaseUntil > db.now then Result(db, Busy) else
        Result(db.(apps := db.apps[app := row.(epoch := row.epoch + 1, owner := owner, leaseUntil := db.now + ttl)]),
               Granted(Claim(app, owner, row.epoch + 1, row.currentVersion, row.currentPath)))
  }

  function Renew(db: Db, c: Claim, ttl: int): Result {
    if ttl <= 0 then Result(db, Refused)
    else if !ValidClaim(db, c) then Result(db, Fenced)
    else Result(db.(apps := db.apps[c.app := db.apps[c.app].(leaseUntil := db.now + ttl)]), Ok)
  }

  function Release(db: Db, c: Claim): Result {
    if c.app in db.apps && db.apps[c.app].epoch == c.epoch && db.apps[c.app].owner == c.owner then
      Result(db.(apps := db.apps[c.app := db.apps[c.app].(owner := "", leaseUntil := db.now)]), Ok)
    else Result(db, Ok)
  }

  /** Compare-and-swap of the published version under the fence. */
  function PublishTx(db: Db, p: Publication, version: int, valid: bool): Result {
    if p.path == "" || version <= 0 || p.claim.owner == "" then Result(db, Refused)
    else if p.claim.app !in db.apps then Result(db, NotFound)
    else if !valid then Result(db, Refused)
    else if !ValidClaim(db, p.claim) || db.apps[p.claim.app].currentVersion != p.claim.baseVersion
        then Result(db, Fenced)
    else Result(db.(apps := db.apps[p.claim.app :=
                     db.apps[p.claim.app].(currentVersion := version, currentPath := p.path)]), Ok)
  }

  predicate RunHasVersion(db: Db, run: int) {
    exists v :: v in db.versions && db.versions[v].run == run
  }

  /** Publication outside a run. The synthetic run key of the version is its own identifier. */
  function Publish(db: Db, p: Publication): Result {
    var v := db.nextId;
    var moved := PublishTx(db, p, v, true);
    if !moved.outcome.Ok? then moved
    else if v in db.versions || RunHasVersion(db, v) then Result(db, Refused)
    else Result(moved.db.(versions := db.versions[v := Version(v, p.claim.app, p.path, p.contentHash, p.restoredFrom)],
                          nextId := v + 1), Ok)
  }

  function PublishRestoration(db: Db, p: Publication): Result {
    if HasActive(db, p.claim.app) then Result(db, Busy) else Publish(db, p)
  }

  function RegisterSnapshot(db: Db, c: Claim, path: string, hash: string): Result {
    if !ValidClaim(db, c) || db.apps[c.app].currentVersion != c.baseVersion then Result(db, Fenced)
    else if c.baseVersion in db.versions && db.versions[c.baseVersion].app == c.app
        && db.versions[c.baseVersion].contentHash == "" then
      Result(db.(versions := db.versions[c.baseVersion :=
          db.versions[c.baseVersion].(path := path, contentHash := hash)]), Ok)
    else Result(db, Ok)
  }

  // ---- finishing ------------------------------------------------------------------------

  /** The validator runs once before the publication and once inside it; each may fail. */
  datatype Completion = Completion(description: bool, valid: bool, stillValid: bool, publication: Option<Publication>)

  function VersionRow(db: Db, id: int, c: Completion): Version
    requires id in db.runs
  {
    var app := db.runs[id].request.app;
    match c.publication
    case None => Version(id, app, "", "", 0)
    case Some(p) => Version(id, app, p.path, p.contentHash, p.restoredFrom)
  }

  function CompletionEvents(v: int, description: bool): seq<EventType> {
    [CodeCompleted(v)] + (if description then [DescriptionCompleted] else []) + [RunCompleted, Done]
  }

  function Complete(db: Db, id: int, c: Completion): Result {
    if id !in db.runs then Result(db, NotFound)
    else if db.runs[id].status.Pausing? then Result(db, Suspended(Paused))
    else if !db.runs[id].status.Running? || !c.valid then Result(db, Refused)
    else if c.publication.Some? && c.publication.value.claim.app != db.runs[id].request.app then Result(db, Refused)
    else
      var v := db.nextId;
      var moved := if c.publication.None? then Result(db, Ok) else PublishTx(db, c.publication.value, v, c.stillValid);
      if !moved.outcome.Ok? then moved
      else if v in db.versions || RunHasVersion(db, id) then Result(db, Refused)
      else
        var base := moved.db.(versions := db.versions[v := VersionRow(db, id, c)], nextId := v + 1);
        Result(Advance(base, id, db.runs[id].(status := Completed, activeKey := None, version := Some(v)),
                       CompletionEvents(v, c.description)), Ok)
  }

  function Fail(db: Db, id: int, interrupted: bool): Result {
    if id !in db.runs then Result(db, NotFound) else
      var row := db.runs[id];
      if Terminal(row.status) || Stopped(row.status) then Result(db, Ok)
      else if row.status.Cancelling? then
        Result(Advance(db, id, row.(status := Canceled, activeKey := None), [RunCanceled, Done]), Ok)
      else if interrupted && id in db.checkpoints then
        Result(Advance(db, id, row.(status := Recoverable), [RunSuspended(Recoverable)]), Ok)
      else
        var status := if interrupted then Interrupted else Failed;
        Result(Advance(db, id, row.(status := status, activeKey := None), [ErrorRaised, RunFailed(status), Done]), Ok)
  }

  function Suspend(db: Db, id: int, status: Status): Result {
    if id !in db.runs then Result(db, NotFound)
    else if !Executing(db.runs[id].status) || !(status.Paused? || status.AwaitingApproval?)
        then Result(db, InvalidControl)
    else Result(Advance(db, id, db.runs[id].(status := status), [RunSuspended(status)]), Ok)
  }

  // ---- checkpoints ----------------------------------------------------------------------

  function SaveCheckpoint(db: Db, id: int, c: Claim, cp: Checkpoint): Result {
    if id !in db.runs then Result(db, NotFound)
    else if !Executing(db.runs[id].status) then Result(db, InvalidControl)
    else if c.app != db.runs[id].request.app || !ValidClaim(db, c) then Result(db, Fenced)
    else Result(Advance(db.(checkpoints := db.checkpoints[id := cp]), id, db.runs[id], [CheckpointSaved]), Ok)
  }

  /** Only resource accounting moves; the saved node and files stay. Without a checkpoint nothing is written. */
  function UpdateBudget(db: Db, id: int, c: Claim, used: Usage): Result {
    if id !in db.runs then Result(db, NotFound)
    else if !Executing(db.runs[id].status) then Result(db, InvalidControl)
    else if c.app != db.runs[id].request.app || !ValidClaim(db, c) then Result(db, Fenced)
    else if id !in db.checkpoints then Result(db, Ok)
    else Result(db.(checkpoints := db.checkpoints[id := db.checkpoints[id].(budget := used)]), Ok)
  }

  // ---- user control ---------------------------------------------------------------------

  datatype Action = Pause | Cancel | Reject | Approve(hash: Hash) | Resume | Unknown

  /** The unique index on active keys: another run of the same app is live. */
  predicate KeyHeldByOther(db: Db, id: int, app: int) {
    exists r :: r in db.runs && r != id && db.runs[r].activeKey == Some(app)
  }

  /** The stored checkpoint and the start message of a resumption. */
  function RequeueBase(db: Db, id: int, cp: Checkpoint): Db {
    db.(checkpoints := db.checkpoints[id := cp],
        outbox := db.outbox[TaskResume(db.nextId) := StartMessage(id, db.now)], nextId := db.nextId + 1)
  }

  /** Approve and resume put the run back to pending, with a start message of its own. */
  function Requeue(db: Db, id: int, cp: Checkpoint): Result
    requires id in db.runs
  {
    var row := db.runs[id];
    if cp.state == [] || cp.snapshotPath == "" then Result(db, InvalidControl)
    else if KeyHeldByOther(db, id, row.request.app) then Result(db, Refused)
    else
      Result(Advance(RequeueBase(db, id, cp), id, row.(status := Pending, activeKey := Some(row.request.app)),
          [RunControl(Pending)]), Ok)
  }

  function Control(db: Db, id: int, user: int, action: Action): Result {
    if id !in db.runs || db.runs[id].request.user != user then Result(db, NotFound) else
      var row := db.runs[id];
      match action
      case Pause =>
        if row.status.Pausing? || row.status.Paused? then Result(db, Ok)
        else if !row.status.Running? then Result(db, InvalidControl)
        else Result(Advance(db, id, row.(status := Pausing), [RunControl(Pausing)]), Ok)
      case Cancel => Stop(db, id)
      case Reject => Stop(db, id)
      case Approve(hash) =>
        if id !in db.checkpoints || hash.NoHash? || hash != db.checkpoints[id].planHash then Result(db, InvalidControl)
        else if (row.status.Pending? || row.status.Running?) && db.checkpoints[id].approvedHash == hash
            then Result(db, Ok)
        else if !row.status.AwaitingApproval? then Result(db, InvalidControl)
        else Requeue(db, id, db.checkpoints[id].(approvedHash := hash))
      case Resume =>
        if id !in db.checkpoints then Result(db, InvalidControl)
        else if row.status.Pending? then Result(db, Ok)
        else if !row.status.Paused? && !row.status.Recoverable? then Result(db, InvalidControl)
        else Requeue(db, id, db.checkpoints[id])
      case Unknown => Result(db, InvalidControl)
  }

  function Stop(db: Db, id: int): Result
    requires id in db.runs
  {
    var row := db.runs[id];
    if row.status.Canceled? || row.status.Cancelling? then Result(db, Ok)
    else if Terminal(row.status) then Result(db, InvalidControl)
    else if Executing(row.status) then
      Result(Advance(db, id, row.(status := Cancelling), [RunControl(Cancelling)]), Ok)
    else
      Result(Advance(db, id, row.(status := Canceled, activeKey := None), [RunControl(Canceled), Done]), Ok)
  }

  // ---- outbox ---------------------------------------------------------------------------

  const LostAckMs := 60000

  function Reclaimed(row: OutboxRow, now: int): OutboxRow {
    if row.status.Processing? && row.claimedAt.Some? && row.claimedAt.value < now - LostAckMs
    then row.(status := Waiting, claimedAt := None) else row
  }

  /** A lost delivery acknowledgement must not strand a row: stale claims return to the queue. */
  function ReclaimOutbox(db: Db): Db {
    db.(outbox := map key | key in db.outbox :: Reclaimed(db.outbox[key], db.now))
  }

  predicate Due(db: Db, key: OutboxKey) {
    key in db.outbox && db.outbox[key].status.Waiting? && db.outbox[key].nextAttempt <= db.now
  }

  function ClaimOutboxRow(db: Db, key: OutboxKey): Db {
    if !Due(db, key) then db
    else db.(outbox := db.outbox[key := db.outbox[key].(status := Processing, claimedAt := Some(db.now))])
  }

  function MarkOutboxDelivered(db: Db, key: OutboxKey): Db {
    if key !in db.outbox then db else db.(outbox := db.outbox[key := db.outbox[key].(status := Delivered)])
  }

  function RetryDelay(attempts: int): int {
    if attempts * attempts * 1000 > 60000 then 60000 else attempts * attempts * 1000
  }

  function RetryOutbox(db: Db, key: OutboxKey, attempts: int): Db {
    if key !in db.outbox then db
    else db.(outbox := db.outbox[key := db.outbox[key].(status := Waiting, attempts := attempts,
                                   nextAttempt := db.now + RetryDelay(attempts), claimedAt := None)])
  }

  // ---- restart --------------------------------------------------------------------------

  predicate Stale(s: Status) { s.Pending? || s.Running? || s.Pausing? || s.Cancelling? }

  function InterruptRun(db: Db, id: int): Db
    requires id in db.runs && Stale(db.runs[id].status)
  {
    var row := db.runs[id];
    if row.status.Cancelling? then
      Advance(db, id, row.(status := Canceled, activeKey := None), [RunCanceled, Done])
    else if id in db.checkpoints then
      Advance(db, id, row.(status := Recoverable), [RunSuspended(Recoverable)])
    else
      Advance(db, id, row.(status := Interrupted, activeKey := None), [ErrorRaised, RunFailed(Interrupted), Done])
  }

  /** `order` is the row order the query returned: the stale runs, each once. */
  ghost predicate StaleOrder(db: Db, order: seq<int>) {
    && (forall i, j :: 0 <= i < j < |order| ==> order[i] != order[j])
    && (forall r :: r in order <==> r in db.runs && Stale(db.runs[r].status))
  }

  function InterruptRuns(db: Db, order: seq<int>): Db
    decreases |order|
  {
    if order == [] then db else
      var rest := InterruptRuns(db, order[..|order| - 1]);
      var id := order[|order| - 1];
      if id in rest.runs && Stale(rest.runs[id].status) then InterruptRun(rest, id) else rest
  }

  function Abandoned(row: OutboxRow): OutboxRow {
    if row.kind.TaskReadyMessage? && (row.status.Waiting? || row.status.Processing?)
    then row.(status := Undeliverable) else row
  }

  function InterruptStale(db: Db, order: seq<int>): Db {
    var stopped := InterruptRuns(db, order);
    stopped.(outbox := map key | key in stopped.outbox :: Abandoned(stopped.outbox[key]))
  }
}
