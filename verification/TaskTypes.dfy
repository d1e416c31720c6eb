/** Rows and values of the detached-run database: runs, event log, outbox, checkpoints,
    execution leases and source versions. */
module TaskTypes {

  datatype Option<+T> = None | Some(value: T)

  /** Identifiers do not run out. */
  lemma {:induction false} Unused(keys: set<int>) returns (id: int)
    ensures forall k :: k in keys ==> k < id
    decreases |keys|
  {
    id := 0;
    if k :| k in keys {
      id := Unused(keys - {k});
      assert forall j :: j in keys ==> j == k || j in keys - {k};
      if k >= id { id := k + 1; }
    }
  }

  datatype Status =
    | Pending | Running | Pausing | Paused | AwaitingApproval | Cancelling | Recoverable
    | Completed | Failed | Interrupted | Canceled

  predicate Terminal(s: Status) {
    s.Completed? || s.Failed? || s.Interrupted? || s.Canceled?
  }

  /** A run that stopped at a safe point and waits for its user. */
  predicate Stopped(s: Status) {
    s.Paused? || s.AwaitingApproval? || s.Recoverable?
  }

  datatype EventType =
    | RunCreated | RunStarted | RunControl(status: Status) | RunSuspended(status: Status)
    | CheckpointSaved | CodeCompleted(version: int) | DescriptionCompleted
    | RunCompleted | RunFailed(status: Status) | RunCanceled | ErrorRaised | Done
    | Semantic(kind: string)

  datatype Todo = Todo(id: string, title: string, status: string)
  datatype Plan = Plan(
    goal: string, generationType: string, executionMode: string,
    constraints: seq<string>, acceptance: seq<string>, todos: seq<Todo>)

  /** SHA-256 over an injective encoding is modelled by the encoded value; NoHash is the empty string. */
  datatype Hash = NoHash | PlanDigest(plan: Plan, base: int)

  /** Consumption counters stored with a checkpoint. */
  datatype Usage = Usage(modelCalls: int, tokens: int, reserved: int)

  datatype Checkpoint = Checkpoint(
    nextNode: string, state: seq<int>, snapshotPath: string, baseVersion: int,
    budget: Usage, plan: Plan, planHash: Hash, approvedHash: Hash)

  datatype Claim = Claim(app: int, owner: string, epoch: int, baseVersion: int, basePath: string)

  datatype AppExecution = AppExecution(
    epoch: int, owner: string, leaseUntil: int, currentVersion: int, currentPath: string)

  datatype Version = Version(run: int, app: int, path: string, contentHash: string, restoredFrom: int)

  datatype Publication = Publication(claim: Claim, path: string, contentHash: string, restoredFrom: int)

  datatype StartRequest = StartRequest(app: int, user: int, requestId: string, kind: string, input: string)

  datatype Run = Run(
    request: StartRequest, status: Status, activeKey: Option<int>, lastSequence: int, version: Option<int>)

  datatype OutboxKey = RunEvent(run: int, sequence: int) | TaskReady(run: int) | TaskResume(nonce: int)
  datatype OutboxKind = TaskReadyMessage | EventAvailable
  datatype OutboxStatus = Waiting | Processing | Delivered | Undeliverable
  datatype OutboxRow = OutboxRow(
    run: int, kind: OutboxKind, status: OutboxStatus, attempts: int, nextAttempt: int, claimedAt: Option<int>,
    created: int)

  /** All tables, the identifier generator and the database clock. Outbox rows are keyed by
      their unique event_id column, events by the unique (run_id, sequence) pair. */
  datatype Db = Db(
    runs: map<int, Run>,
    events: map<(int, int), EventType>,
    outbox: map<OutboxKey, OutboxRow>,
    checkpoints: map<int, Checkpoint>,
    apps: map<int, AppExecution>,
    versions: map<int, Version>,
    nextId: int,
    now: int)

  const EmptyDb := Db(map[], map[], map[], map[], map[], map[], 1, 0)

  datatype Outcome =
    | Ok | Granted(claim: Claim) | Created(run: int) | Replayed(run: int) | ActiveRun(run: int)
    | RequestConflict | NotFound | InvalidControl | Fenced | Busy | Suspended(status: Status) | Refused

  datatype Result = Result(db: Db, outcome: Outcome)

  /** Todo progress changes while a plan executes and must not invalidate its approval. */
  function ClearProgress(p: Plan): Plan {
    p.(todos := seq(|p.todos|, i requires 0 <= i < |p.todos| => p.todos[i].(status := "")))
  }

  function PlanHash(p: Plan, base: int): Hash {
    PlanDigest(ClearProgress(p), base)
  }

  predicate SameHeader(p: Plan, q: Plan) {
    && p.goal == q.goal && p.generationType == q.generationType && p.executionMode == q.executionMode
    && p.constraints == q.constraints && p.acceptance == q.acceptance
  }

  /** Two plans hash alike exactly when they differ at most in todo progress and share the base. */
  lemma PlanHashIgnoresOnlyProgress(p: Plan, q: Plan, base: int, base': int)
    ensures PlanHash(p, base) == PlanHash(q, base') <==>
      && base == base' && SameHeader(p, q)
      && |p.todos| == |q.todos|
      && forall i :: 0 <= i < |p.todos| ==> p.todos[i].id == q.todos[i].id && p.todos[i].title == q.todos[i].title
  {
    var a, b := ClearProgress(p), ClearProgress(q);
    if PlanHash(p, base) == PlanHash(q, base') {
      forall i | 0 <= i < |p.todos|
        ensures p.todos[i].id == q.todos[i].id && p.todos[i].title == q.todos[i].title
      {
        assert a.todos[i] == b.todos[i];
      }
    } else if |p.todos| == |q.todos| && base == base' && SameHeader(p, q) {
      assert a.todos != b.todos;
    }
  }
}
