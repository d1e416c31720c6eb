/** What every reachable database satisfies, whatever order the transactions arrive in. */
module TaskInvariants {
  import opened TaskTypes
  import opened TaskTransactions

  type Runs = map<int, Run>
  type Events = map<(int, int), EventType>

  // ---- the event log of a run -----------------------------------------------------------

  /** Events are numbered exactly 1..last_sequence, for existing runs only. */
  ghost predicate LogsNumbered(runs: Runs, events: Events) {
    && (forall r :: r in runs ==> runs[r].lastSequence >= 0)
    && (forall key :: key in events <==> key.0 in runs && 1 <= key.1 <= runs[key.0].lastSequence)
  }

  ghost function Log(runs: Runs, events: Events, r: int): seq<EventType>
    requires LogsNumbered(runs, events) && r in runs
  {
    seq(runs[r].lastSequence, i requires 0 <= i < runs[r].lastSequence => events[(r, i + 1)])
  }

  function StatusOf(e: EventType): Option<Status> {
    match e
    case RunCreated => Some(Pending)
    case RunStarted => Some(Running)
    case RunControl(s) => Some(s)
    case RunSuspended(s) => Some(s)
    case RunCompleted => Some(Completed)
    case RunFailed(s) => Some(s)
    case RunCanceled => Some(Canceled)
    case _ => None
  }

  /** The status a subscriber reconstructs by replaying the log. */
  function Replay(log: seq<EventType>): Option<Status> {
    if log == [] then None
    else if StatusOf(log[|log| - 1]).Some? then StatusOf(log[|log| - 1])
    else Replay(log[..|log| - 1])
  }

  lemma {:induction false} ReplayConcat(a: seq<EventType>, b: seq<EventType>)
    ensures Replay(a + b) == if Replay(b).Some? then Replay(b) else Replay(a)
    decreases |b|
  {
    if b == [] {
      assert a + b == a;
    } else {
      assert (a + b)[..|a + b| - 1] == a + b[..|b| - 1];
      ReplayConcat(a, b[..|b| - 1]);
    }
  }

  /** The edges of the eleven-status run machine. */
  predicate Successor(s: Status, t: Status) {
    match s
    case Pending => t.Running? || t.Recoverable? || t.Interrupted? || t.Failed? || t.Canceled?
    case Running => t.Pausing? || t.Paused? || t.AwaitingApproval? || t.Cancelling? || t.Completed? || t.Failed?
        || t.Interrupted? || t.Recoverable?
    case Pausing => t.Paused? || t.AwaitingApproval? || t.Cancelling? || t.Failed? || t.Interrupted? || t.Recoverable?
    case Cancelling => t.Canceled?
    case Paused => t.Pending? || t.Canceled?
    case AwaitingApproval => t.Pending? || t.Canceled?
    case Recoverable => t.Pending? || t.Canceled?
    case _ => false
  }

  /** The log is a path of the run machine: every status event follows an edge from the status
      replayed so far. */
  ghost predicate Path(log: seq<EventType>) {
    forall i :: 0 < i < |log| && StatusOf(log[i]).Some? ==>
      Replay(log[..i]).Some? && Successor(Replay(log[..i]).value, StatusOf(log[i]).value)
  }

  /** A run row agrees with its log. */
  ghost predicate LogFits(log: seq<EventType>, row: Run) {
    && log != [] && log[0].RunCreated?
    && Replay(log) == Some(row.status)
    && Path(log)
    && (forall i :: 0 <= i < |log| ==> (log[i].Done? <==> Terminal(row.status) && i == |log| - 1))
    && (row.version.Some? <==> row.status.Completed?)
    && (forall i :: 0 <= i < |log| && log[i].CodeCompleted? ==> row.version == Some(log[i].version))
    && (forall i, j :: 0 <= i < j < |log| ==> !(log[i].CodeCompleted? && log[j].CodeCompleted?))
    && (row.status.Completed? ==> exists i :: 0 <= i < |log| && log[i].CodeCompleted?)
    && row.activeKey == (if Terminal(row.status) then None else Some(row.request.app))
  }

  ghost predicate LogsFit(runs: Runs, events: Events)
    requires LogsNumbered(runs, events)
  {
    forall r :: r in runs ==> LogFits(Log(runs, events, r), runs[r])
  }

  /** The shape shared by every transaction that moves a live run: how a row update must agree
      with the events appended beside it. */
  ghost predicate LegalMove(before: Run, after: Run, evts: seq<EventType>) {
    && !Terminal(before.status)
    && after.request == before.request
    && after.lastSequence == before.lastSequence
    && (if Replay(evts).Some? then Replay(evts) == Some(after.status) else after.status == before.status)
    && (forall i :: 0 <= i < |evts| && StatusOf(evts[i]).Some? ==>
          Replay(evts[..i]).None? && StatusOf(evts[i]) == Some(after.status) && Successor(before.status, after.status))
    && (forall i :: 0 <= i < |evts| ==> (evts[i].Done? <==> Terminal(after.status) && i == |evts| - 1))
    && (Terminal(after.status) ==> evts != [])
    && (if after.status.Completed?
        then after.version.Some? && evts != [] && evts[0] == CodeCompleted(after.version.value)
             && forall i :: 0 < i < |evts| ==> !evts[i].CodeCompleted?
        else after.version == before.version && forall i :: 0 <= i < |evts| ==> !evts[i].CodeCompleted?)
    && after.activeKey == (if Terminal(after.status) then None else Some(after.request.app))
  }

  lemma PathExtends(log: seq<EventType>, before: Run, after: Run, evts: seq<EventType>)
    requires Path(log) && log != [] && Replay(log) == Some(before.status)
    requires forall i :: 0 <= i < |evts| && StatusOf(evts[i]).Some? ==>
      Replay(evts[..i]).None? && StatusOf(evts[i]) == Some(after.status) && Successor(before.status, after.status)
    ensures Path(log + evts)
  {
    var whole := log + evts;
    forall i | 0 < i < |whole| && StatusOf(whole[i]).Some?
      ensures Replay(whole[..i]).Some? && Successor(Replay(whole[..i]).value, StatusOf(whole[i]).value)
    {
      if i < |log| {
        assert whole[..i] == log[..i];
      } else {
        assert whole[..i] == log + evts[..i - |log|];
        ReplayConcat(log, evts[..i - |log|]);
      }
    }
  }

  lemma LegalMoveFits(log: seq<EventType>, before: Run, after: Run, evts: seq<EventType>)
    requires LogFits(log, before) && LegalMove(before, after, evts)
    ensures LogFits(log + evts, after.(lastSequence := after.lastSequence + |evts|))
  {
    ReplayConcat(log, evts);
    PathExtends(log, before, after, evts);
    hide Path;
    var whole := log + evts;
    assert forall i :: 0 <= i < |log| ==> whole[i] == log[i];
    assert forall i :: |log| <= i < |whole| ==> whole[i] == evts[i - |log|];
    assert forall i :: 0 <= i < |log| ==> !log[i].CodeCompleted?;
    if after.status.Completed? {
      assert whole[|log|].CodeCompleted?;
    }
  }

  function Moved(runs: Runs, id: int, row: Run, n: int): Runs {
    runs[id := row.(lastSequence := row.lastSequence + n)]
  }

  lemma AddEventsNumbers(runs: Runs, events: Events, id: int, row: Run, evts: seq<EventType>)
    requires LogsNumbered(runs, events) && id in runs && row.lastSequence == runs[id].lastSequence
    ensures LogsNumbered(Moved(runs, id, row, |evts|), AddEvents(events, row.lastSequence, id, evts))
  {
  }

  /** The batch lands at the end of its own log and leaves every other log alone. */
  lemma AddEventsLogs(runs: Runs, events: Events, id: int, row: Run, evts: seq<EventType>, r: int)
    requires LogsNumbered(runs, events) && id in runs && row.lastSequence == runs[id].lastSequence && r in runs
    ensures LogsNumbered(Moved(runs, id, row, |evts|), AddEvents(events, row.lastSequence, id, evts))
    ensures Log(Moved(runs, id, row, |evts|), AddEvents(events, row.lastSequence, id, evts), r)
         == Log(runs, events, r) + if r == id then evts else []
  {
    AddEventsNumbers(runs, events, id, row, evts);
  }

  lemma MoveKeepsLogs(runs: Runs, events: Events, id: int, row: Run, evts: seq<EventType>)
    requires LogsNumbered(runs, events) && LogsFit(runs, events) && id in runs && LegalMove(runs[id], row, evts)
    ensures LogsNumbered(Moved(runs, id, row, |evts|), AddEvents(events, row.lastSequence, id, evts))
    ensures LogsFit(Moved(runs, id, row, |evts|), AddEvents(events, row.lastSequence, id, evts))
  {
    hide LogFits;
    AddEventsNumbers(runs, events, id, row, evts);
    LegalMoveFits(Log(runs, events, id), runs[id], row, evts);
    var runs', events' := Moved(runs, id, row, |evts|), AddEvents(events, row.lastSequence, id, evts);
    hide AddEvents, LogsNumbered, Log, LegalMove;
    forall r | r in runs'
      ensures LogFits(Log(runs', events', r), runs'[r])
    {
      AddEventsLogs(runs, events, id, row, evts, r);
      assert LogFits(Log(runs, events, r), runs[r]);
      if r != id { assert Log(runs, events, r) + [] == Log(runs, events, r); }
    }
  }

  // ---- whole-database invariant -----------------------------------------------------------

  /** A completed run owns exactly the version its row names; versions outside runs carry their own key. */
  ghost predicate VersionsOwned(runs: Runs, versions: map<int, Version>) {
    && (forall r :: r in runs && runs[r].version.Some? ==>
          var v := runs[r].version.value;
          v in versions && versions[v].run == r && versions[v].app == runs[r].request.app)
    && (forall v :: v in versions && versions[v].run in runs ==> runs[versions[v].run].version == Some(v))
    && (forall v :: v in versions && versions[v].run !in runs ==> versions[v].run == v)
  }

  ghost predicate IdsIssued(
      runs: Runs, versions: map<int, Version>, outbox: map<OutboxKey, OutboxRow>,
      checkpoints: map<int, Checkpoint>, nextId: int)
  {
    && nextId >= 1
    && (forall r :: r in runs ==> 1 <= r < nextId)
    && (forall v :: v in versions ==> 1 <= v < nextId)
    && (forall k :: k in outbox && k.TaskResume? ==> k.nonce < nextId)
    && (forall k :: k in outbox && k.TaskReady? ==> k.run in runs)
    && (forall k :: k in outbox && k.RunEvent? ==> k.run in runs && k.sequence <= runs[k.run].lastSequence)
    && (forall k :: k in checkpoints ==> k in runs)
  }

  ghost predicate UniqueKeys(runs: Runs) {
    && (forall r, s :: r in runs && s in runs && runs[r].request.requestId == runs[s].request.requestId ==> r == s)
    && (forall r, s :: r in runs && s in runs && runs[r].activeKey.Some? && runs[r].activeKey == runs[s].activeKey ==>
         r == s)
  }

  ghost predicate Inv(db: Db) {
    && LogsNumbered(db.runs, db.events)
    && LogsFit(db.runs, db.events)
    && VersionsOwned(db.runs, db.versions)
    && IdsIssued(db.runs, db.versions, db.outbox, db.checkpoints, db.nextId)
    && UniqueKeys(db.runs)
  }

  lemma AdvanceFields(db: Db, id: int, row: Run, evts: seq<EventType>)
    requires id in db.runs && row.lastSequence == db.runs[id].lastSequence
    ensures Advance(db, id, row, evts) == db.(
              runs := Moved(db.runs, id, row, |evts|),
              events := AddEvents(db.events, row.lastSequence, id, evts),
              outbox := AddMessages(db.outbox, row.lastSequence, id, evts, db.now))
  {
    assert db.runs[id := row][id := row.(lastSequence := row.lastSequence + |evts|)] == Moved(db.runs, id, row, |evts|);
  }

  /** What a live row looks like, and what a legal move can do to its keys. */
  lemma MoveFacts(runs: Runs, events: Events, id: int, row: Run, evts: seq<EventType>)
    requires LogsNumbered(runs, events) && LogsFit(runs, events) && id in runs && LegalMove(runs[id], row, evts)
    ensures runs[id].version.None? && runs[id].activeKey == Some(runs[id].request.app)
    ensures row.request == runs[id].request && (row.activeKey == runs[id].activeKey || row.activeKey.None?)
    ensures !row.status.Completed? ==> row.version.None?
  {
    assert LogFits(Log(runs, events, id), runs[id]);
  }

  lemma MovedTables(runs: Runs, versions: map<int, Version>, id: int, row: Run, n: int)
    requires VersionsOwned(runs, versions) && UniqueKeys(runs) && id in runs
    requires row.request == runs[id].request && row.version == runs[id].version
    requires row.activeKey == runs[id].activeKey || row.activeKey.None?
    ensures VersionsOwned(Moved(runs, id, row, n), versions) && UniqueKeys(Moved(runs, id, row, n))
  {
  }

  lemma MovedIds(db: Db, id: int, row: Run, evts: seq<EventType>)
    requires IdsIssued(db.runs, db.versions, db.outbox, db.checkpoints, db.nextId) && id in db.runs
    requires row.lastSequence == db.runs[id].lastSequence
    ensures IdsIssued(Moved(db.runs, id, row, |evts|), db.versions,
                      AddMessages(db.outbox, row.lastSequence, id, evts, db.now), db.checkpoints, db.nextId)
  {
  }

  /** A legal move of one run, with the version table untouched, keeps the invariant. */
  lemma MoveKeepsInv(db: Db, id: int, row: Run, evts: seq<EventType>)
    requires Inv(db) && id in db.runs && LegalMove(db.runs[id], row, evts) && !row.status.Completed?
    ensures Inv(Advance(db, id, row, evts))
  {
    MoveKeepsLogs(db.runs, db.events, id, row, evts);
    MoveFacts(db.runs, db.events, id, row, evts);
    MovedTables(db.runs, db.versions, id, row, |evts|);
    assert row.lastSequence == db.runs[id].lastSequence;
    MovedIds(db, id, row, evts);
    AdvanceFields(db, id, row, evts);
    hide LogsNumbered, LogsFit, LegalMove, AddEvents, UniqueKeys, VersionsOwned, IdsIssued, AddMessages, Moved, Advance;
    hide AppendAll;
  }

  /** Tables outside the invariant may change freely. */
  lemma FrameKeepsInv(db: Db, after: Db)
    requires Inv(db)
    requires after.runs == db.runs && after.events == db.events
    requires after.versions.Keys == db.versions.Keys
    requires forall v :: v in db.versions ==>
        after.versions[v].run == db.versions[v].run && after.versions[v].app == db.versions[v].app
    requires after.nextId >= db.nextId && forall k :: k in after.checkpoints ==> k in db.runs
    requires forall k :: k in after.outbox ==> k in db.outbox || (k.TaskResume? && k.nonce < after.nextId)
    ensures Inv(after)
  {
    hide LogsNumbered, LogsFit;
  }

  lemma NewRunKeepsLogs(runs: Runs, events: Events, id: int, row: Run)
    requires LogsNumbered(runs, events) && LogsFit(runs, events) && id !in runs
    requires row.status.Pending? && row.version.None? && row.activeKey == Some(row.request.app) && row.lastSequence == 1
    ensures LogsNumbered(runs[id := row], events[(id, 1) := RunCreated])
    ensures LogsFit(runs[id := row], events[(id, 1) := RunCreated])
  {
    hide LogFits;
    var runs', events' := runs[id := row], events[(id, 1) := RunCreated];
    forall r | r in runs'
      ensures LogFits(Log(runs', events', r), runs'[r])
    {
      if r == id {
        assert Log(runs', events', id) == [RunCreated];
        FirstLogFits(row);
      } else {
        assert Log(runs', events', r) == Log(runs, events, r);
        assert LogFits(Log(runs, events, r), runs[r]);
      }
    }
  }

  lemma FirstLogFits(row: Run)
    requires row.status.Pending? && row.version.None? && row.activeKey == Some(row.request.app)
    ensures LogFits([RunCreated], row)
  {
    assert Replay([RunCreated]) == Some(Pending);
  }

  lemma NewRunKeepsKeys(db: Db, req: StartRequest)
    requires UniqueKeys(db.runs) && db.nextId !in db.runs && !HasRequest(db, req.requestId) && !HasActive(db, req.app)
    ensures UniqueKeys(NewRun(db, req).runs)
  {
    var runs := NewRun(db, req).runs;
    forall r, s | r in runs && s in runs && r != s
      ensures runs[r].request.requestId != runs[s].request.requestId
      ensures runs[r].activeKey.Some? ==> runs[r].activeKey != runs[s].activeKey
    {
      var prior := if r == db.nextId then s else r;
      assert db.runs[prior].request.requestId != req.requestId && db.runs[prior].activeKey != Some(req.app);
    }
  }

  lemma RunIssued(db: Db, row: Run, message: OutboxRow)
    requires IdsIssued(db.runs, db.versions, db.outbox, db.checkpoints, db.nextId)
    requires VersionsOwned(db.runs, db.versions) && row.version.None?
    ensures db.nextId !in db.runs
    ensures IdsIssued(db.runs[db.nextId := row], db.versions, db.outbox[TaskReady(db.nextId) := message],
        db.checkpoints, db.nextId + 1)
    ensures VersionsOwned(db.runs[db.nextId := row], db.versions)
  {
  }

  lemma VersionIssued(db: Db, version: Version)
    requires IdsIssued(db.runs, db.versions, db.outbox, db.checkpoints, db.nextId)
    ensures db.nextId !in db.versions && db.nextId !in db.runs
    ensures IdsIssued(db.runs, db.versions[db.nextId := version], db.outbox, db.checkpoints, db.nextId + 1)
  {
  }

  lemma NewRunKeepsInv(db: Db, req: StartRequest)
    requires Inv(db) && !HasRequest(db, req.requestId) && !HasActive(db, req.app)
    ensures Inv(NewRun(db, req))
  {
    hide LogsNumbered, LogsFit, UniqueKeys, VersionsOwned, IdsIssued;
    RunIssued(db, Run(req, Pending, Some(req.app), 1, None), StartMessage(db.nextId, db.now));
    NewRunKeepsLogs(db.runs, db.events, db.nextId, Run(req, Pending, Some(req.app), 1, None));
    NewRunKeepsKeys(db, req);
    hide HasRequest, HasActive, StartMessage;
  }

  lemma CompletionIsLegal(before: Run, v: int, description: bool)
    requires before.status.Running?
    ensures LegalMove(before, before.(status := Completed, activeKey := None, version := Some(v)),
        CompletionEvents(v, description))
  {
    var evts := CompletionEvents(v, description);
    assert StatusOf(evts[|evts| - 1]).None?;
    var front := evts[..|evts| - 1];
    assert front[|front| - 1] == RunCompleted;
    assert Replay(evts) == Replay(front) == Some(Completed);
    forall i | 0 <= i < |evts| && StatusOf(evts[i]).Some?
      ensures i == |evts| - 2 && Replay(evts[..i]).None?
    {
      assert evts[..i] == [CodeCompleted(v)] + if description then [DescriptionCompleted] else [];
      assert Replay([CodeCompleted(v)]).None?;
      if description { assert (evts[..i])[..1] == [CodeCompleted(v)]; }
    }
  }

  /** The tables a successful completion starts its log batch from. */
  function Published(db: Db, apps: map<int, AppExecution>, version: Version): Db {
    db.(apps := apps, versions := db.versions[db.nextId := version], nextId := db.nextId + 1)
  }

  lemma CompletedKeepsInv(db: Db, apps: map<int, AppExecution>, id: int, version: Version, row: Run,
        evts: seq<EventType>)
    requires Inv(db) && id in db.runs && version.run == id && version.app == db.runs[id].request.app
    requires row == db.runs[id].(status := Completed, activeKey := None, version := Some(db.nextId))
    requires LegalMove(db.runs[id], row, evts)
    ensures Inv(Advance(Published(db, apps, version), id, row, evts))
  {
    hide LogsNumbered, LogsFit, AddEvents, AddMessages, UniqueKeys, VersionsOwned, IdsIssued, LegalMove, Advance;
    var base := Published(db, apps, version);
    VersionIssued(db, version);
    MoveFacts(db.runs, db.events, id, row, evts);
    CompletedOwns(db.runs, db.versions, id, db.nextId, version, Moved(db.runs, id, row, |evts|));
    MoveKeepsLogs(db.runs, db.events, id, row, evts);
    MovedIds(base, id, row, evts);
    AdvanceFields(base, id, row, evts);
    hide Moved;
  }

  function CompletedRow(db: Db, id: int): Run
    requires id in db.runs
  {
    db.runs[id].(status := Completed, activeKey := None, version := Some(db.nextId))
  }

  /** A completion that commits is one log batch over the newly published tables. */
  lemma CompleteShape(db: Db, id: int, c: Completion) returns (apps: map<int, AppExecution>)
    ensures Complete(db, id, c).db != db ==>
      && id in db.runs && db.runs[id].status.Running?
      && Complete(db, id, c).db == Advance(Published(db, apps, VersionRow(db, id, c)), id, CompletedRow(db, id),
           CompletionEvents(db.nextId, c.description))
  {
    hide Advance, VersionRow, CompletionEvents, RunHasVersion;
    apps := if c.publication.None? then db.apps
        else PublishTx(db, c.publication.value, db.nextId, c.stillValid).db.apps;
  }

  /** Completing keeps the invariant: the new version belongs to this run alone. */
  lemma CompleteKeepsInv(db: Db, id: int, c: Completion)
    requires Inv(db)
    ensures Inv(Complete(db, id, c).db)
  {
    if Complete(db, id, c).db != db {
      hide Inv, Complete, Advance, CompletionEvents, LegalMove;
      var apps := CompleteShape(db, id, c);
      CompletionIsLegal(db.runs[id], db.nextId, c.description);
      CompletedKeepsInv(db, apps, id, VersionRow(db, id, c), CompletedRow(db, id),
          CompletionEvents(db.nextId, c.description));
    }
  }

  lemma CompletedOwns(runs: Runs, versions: map<int, Version>, id: int, v: int, version: Version, runs': Runs)
    requires VersionsOwned(runs, versions) && v !in versions && id in runs && runs[id].version.None?
    requires runs'.Keys == runs.Keys && (forall r :: r in runs && r != id ==> runs'[r] == runs[r])
    requires runs'[id].version == Some(v) && runs'[id].request == runs[id].request
    requires version.run == id && version.app == runs[id].request.app
    requires UniqueKeys(runs) && runs'[id].activeKey.None?
    ensures VersionsOwned(runs', versions[v := version]) && UniqueKeys(runs')
  {
  }
}
