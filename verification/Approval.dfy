/** The plan approval gate: user approvals, the executor's safe points and restarts, over any
    interleaving with the store's transactions and with stale executors. */
module Approval {
  import opened TaskTypes
  import opened TaskTransactions
  import opened TaskInvariants
  import opened TaskHistory
  import GormStore

  /** A handler execution with its private copy of the last checkpoint it loaded or saved. */
  datatype Executor = Executor(run: int, claim: Claim, checkpoint: Option<Checkpoint>)

  /** A node is entered with the checkpoint that led to it. */
  datatype Entry = Entry(run: int, node: string, checkpoint: Option<Checkpoint>)

  /** `approvals` collects the hashes users approved, `entries` the nodes executors entered. */
  datatype System = System(db: Db, executors: map<int, Executor>, approvals: set<(int, Hash)>, entries: seq<Entry>)

  const CodeGenerator := "code_generator"

  /** The durable content a safe point collects. */
  datatype Saved = Saved(state: seq<int>, path: string, budget: Usage, plan: Plan)

  datatype Step =
    | Transaction(op: Op)
    | Load(x: int, run: int, claim: Claim)
    | Begin(x: int)
    | SafePoint(x: int, next: string, saved: Saved, reply: bool, pausing: bool)
    | Exit(x: int)

  /** Checkpoints are saved by safe points only. */
  predicate Allowed(s: System, step: Step) {
    match step
    case Transaction(op) => !op.OpSave?
    case Load(x, run, _) => x !in s.executors && run in s.db.runs
    case _ => step.x in s.executors
  }

  /** Whether the request stored with the run asks for plan approval. */
  predicate Gated(db: Db, run: int, asks: string -> bool) {
    run in db.runs && asks(db.runs[run].request.input)
  }

  function Checkpointed(e: Executor, next: string, saved: Saved): Checkpoint {
    Checkpoint(next, saved.state, saved.path, e.claim.baseVersion, saved.budget, saved.plan,
               PlanHash(saved.plan, e.claim.baseVersion),
               if e.checkpoint.Some? then e.checkpoint.value.approvedHash else NoHash)
  }

  function Leave(s: System, x: int): System {
    s.(executors := s.executors - {x})
  }

  function Enter(s: System, e: Executor, node: string): System {
    s.(entries := s.entries + [Entry(e.run, node, e.checkpoint)])
  }

  /** A safe point saves, then reads the status again, and stops for approval before a pause. `reply`
      tells whether both calls answered, `pausing` what the second one said. */
  function Next(s: System, step: Step, asks: string -> bool): System {
    match step
    case Transaction(op) =>
      var granted := if op.OpControl? && op.action.Approve? && Control(s.db, op.id, op.user, op.action).outcome.Ok?
                     then {(op.id, op.action.hash)} else {};
      s.(db := Apply(s.db, op), approvals := s.approvals + granted)
    case Load(x, run, claim) =>
      s.(executors := s.executors[x :=
          Executor(run, claim, if run in s.db.checkpoints then Some(s.db.checkpoints[run]) else None)])
    case Begin(x) =>
      if x !in s.executors then s else
        var e := s.executors[x];
        if e.checkpoint.None? then Enter(s, e, "router")
        else if Gated(s.db, e.run, asks) && e.checkpoint.value.nextNode == CodeGenerator
             && e.checkpoint.value.approvedHash != e.checkpoint.value.planHash then Leave(s, x)
        else Enter(s, e, e.checkpoint.value.nextNode)
    case SafePoint(x, next, saved, reply, pausing) =>
      if x !in s.executors then s else
        var cp := Checkpointed(s.executors[x], next, saved);
        var e := s.executors[x].(checkpoint := Some(cp));
        var written := SaveCheckpoint(s.db, e.run, e.claim, cp);
        var s' := s.(db := written.db);
        if !written.outcome.Ok? || !reply then Leave(s', x)
        else if Gated(s.db, e.run, asks) && next == CodeGenerator && cp.planHash != cp.approvedHash then Leave(s', x)
        else if pausing then Leave(s', x)
        else Enter(s'.(executors := s.executors[x := e]), e, next)
    case Exit(x) => Leave(s, x)
  }

  // ---- the invariant ------------------------------------------------------------------------

  /** A stored or remembered approval was given by a user, and hashes are those of their plans. */
  predicate Genuine(approvals: set<(int, Hash)>, run: int, cp: Checkpoint) {
    && cp.planHash == PlanHash(cp.plan, cp.baseVersion)
    && (cp.approvedHash.NoHash? || (run, cp.approvedHash) in approvals)
  }

  ghost predicate AllGenuine(
      approvals: set<(int, Hash)>, checkpoints: map<int, Checkpoint>, executors: map<int, Executor>)
  {
    && (forall r :: r in checkpoints ==> Genuine(approvals, r, checkpoints[r]))
    && (forall x :: x in executors && executors[x].checkpoint.Some? ==>
         Genuine(approvals, executors[x].run, executors[x].checkpoint.value))
  }

  /** What the gate promises of one entry. */
  predicate Approved(approvals: set<(int, Hash)>, e: Entry) {
    && e.checkpoint.Some?
    && e.checkpoint.value.planHash == e.checkpoint.value.approvedHash
         == PlanHash(e.checkpoint.value.plan, e.checkpoint.value.baseVersion)
    && (e.run, e.checkpoint.value.planHash) in approvals
  }

  ghost predicate EntriesApproved(s: System, asks: string -> bool) {
    && (forall i :: 0 <= i < |s.entries| ==> s.entries[i].run in s.db.runs)
    && (forall i :: 0 <= i < |s.entries| ==>
          (s.entries[i].node == CodeGenerator && Gated(s.db, s.entries[i].run, asks) ==>
             Approved(s.approvals, s.entries[i])))
  }

  ghost predicate Safe(s: System, asks: string -> bool) {
    && Inv(s.db)
    && AllGenuine(s.approvals, s.db.checkpoints, s.executors)
    && (forall x :: x in s.executors ==> s.executors[x].run in s.db.runs)
    && EntriesApproved(s, asks)
  }

  // ---- what transactions do to checkpoints ----------------------------------------------------

  /** Only accounting may differ. */
  ghost predicate SamePlans(before: map<int, Checkpoint>, after: map<int, Checkpoint>) {
    && after.Keys == before.Keys
    && forall r :: r in before ==> after[r] == before[r].(budget := after[r].budget)
  }

  lemma AdvanceKeepsPlans(db: Db, id: int, row: Run, evts: seq<EventType>)
    requires id in db.runs && row.lastSequence == db.runs[id].lastSequence
    ensures Advance(db, id, row, evts).checkpoints == db.checkpoints
  {
  }

  lemma InterruptKeepsPlans(db: Db, id: int)
    requires id in db.runs && Stale(db.runs[id].status)
    ensures InterruptRun(db, id).checkpoints == db.checkpoints
  {
    hide AddEvents, AddMessages;
  }

  lemma {:induction false} InterruptRunsKeepPlans(db: Db, order: seq<int>)
    ensures InterruptRuns(db, order).checkpoints == db.checkpoints
    decreases |order|
  {
    if order != [] {
      hide InterruptRun;
      var rest, id := InterruptRuns(db, order[..|order| - 1]), order[|order| - 1];
      InterruptRunsKeepPlans(db, order[..|order| - 1]);
      if id in rest.runs && Stale(rest.runs[id].status) { InterruptKeepsPlans(rest, id); }
    }
  }

  lemma CompleteKeepsPlans(db: Db, id: int, c: Completion)
    ensures Complete(db, id, c).db.checkpoints == db.checkpoints
  {
    if Complete(db, id, c).db != db {
      hide Complete, Advance, CompletionEvents, VersionRow;
      var apps := CompleteShape(db, id, c);
      AdvanceKeepsPlans(Published(db, apps, VersionRow(db, id, c)), id, CompletedRow(db, id),
          CompletionEvents(db.nextId, c.description));
    }
  }

  lemma FailKeepsPlans(db: Db, id: int, interrupted: bool)
    ensures Fail(db, id, interrupted).db.checkpoints == db.checkpoints
  {
    hide AddEvents, AddMessages;
  }

  lemma StartKeepsPlans(db: Db, id: int, kind: string, status: Status)
    ensures MarkRunning(db, id).db.checkpoints == AppendEvent(db, id, kind).db.checkpoints
        == Suspend(db, id, status).db.checkpoints == db.checkpoints
  {
    hide AddEvents, AddMessages;
  }

  lemma PublishKeepsPlans(db: Db, p: Publication)
    ensures Publish(db, p).db.checkpoints == db.checkpoints
  {
    hide ValidClaim, RunHasVersion;
  }

  lemma RetryKeepsPlans(db: Db, key: OutboxKey, attempts: int)
    ensures RetryOutbox(db, key, attempts).checkpoints == db.checkpoints
  {
    hide RetryDelay;
  }

  lemma OwnershipKeepsPlans(db: Db, c: Claim, ttl: int)
    ensures ClaimApp(db, c.app, c.owner, ttl).db.checkpoints == Renew(db, c, ttl).db.checkpoints
        == Release(db, c).db.checkpoints == db.checkpoints
  {
    hide ValidClaim;
  }

  lemma RunStepKeepsPlans(db: Db, op: Op)
    requires op.OpMarkRunning? || op.OpAppend? || op.OpSuspend? || op.OpComplete? || op.OpFail? || op.OpRestart?
    ensures Apply(db, op).checkpoints == db.checkpoints
  {
    hide Complete, Fail, MarkRunning, AppendEvent, Suspend, InterruptRuns;
    match op
    case OpMarkRunning(id) => StartKeepsPlans(db, id, "", Paused);
    case OpAppend(id, kind) => StartKeepsPlans(db, id, kind, Paused);
    case OpSuspend(id, status) => StartKeepsPlans(db, id, "", status);
    case OpComplete(id, c) => CompleteKeepsPlans(db, id, c);
    case OpFail(id, interrupted) => FailKeepsPlans(db, id, interrupted);
    case OpRestart(order) => InterruptRunsKeepPlans(db, order);
  }

  lemma SidePlansStay(db: Db, op: Op)
    requires op.OpCreate? || op.OpReclaimOutbox? || op.OpClaimOutbox? || op.OpDelivered? || op.OpRetry?
      || op.OpRegister? || op.OpTick?
    ensures Apply(db, op).checkpoints == db.checkpoints
  {
    hide HasRequest, HasActive, ValidClaim, RetryOutbox;
    if op.OpRetry? { RetryKeepsPlans(db, op.key, op.attempts); }
  }

  lemma BudgetKeepsPlans(db: Db, id: int, c: Claim, used: Usage)
    ensures SamePlans(db.checkpoints, UpdateBudget(db, id, c, used).db.checkpoints)
  {
    hide ValidClaim;
  }

  lemma OwnedPlansStay(db: Db, op: Op)
    requires op.OpClaim? || op.OpRenew? || op.OpRelease? || op.OpPublish? || op.OpRestore?
    ensures Apply(db, op).checkpoints == db.checkpoints
  {
    hide Publish, HasActive, ClaimApp, Renew, Release;
    match op
    case OpClaim(app, owner, ttl) => OwnershipKeepsPlans(db, Claim(app, owner, 0, 0, ""), ttl);
    case OpRenew(c, ttl) => OwnershipKeepsPlans(db, c, ttl);
    case OpRelease(c) => OwnershipKeepsPlans(db, c, 0);
    case OpPublish(p) => PublishKeepsPlans(db, p);
    case OpRestore(p) => PublishKeepsPlans(db, p);
  }

  /** No transaction but an approval and a safe point's save touches plans or their hashes. */
  lemma OtherStepKeepsPlans(db: Db, op: Op)
    requires !op.OpSave? && !op.OpControl?
    ensures SamePlans(db.checkpoints, Apply(db, op).checkpoints)
  {
    if op.OpBudget? {
      hide UpdateBudget;
      BudgetKeepsPlans(db, op.id, op.claim, op.used);
    } else if op.OpMarkRunning? || op.OpAppend? || op.OpSuspend? || op.OpComplete? || op.OpFail? || op.OpRestart? {
      hide Apply;
      RunStepKeepsPlans(db, op);
    } else if op.OpClaim? || op.OpRenew? || op.OpRelease? || op.OpPublish? || op.OpRestore? {
      hide Apply;
      OwnedPlansStay(db, op);
    } else {
      hide Apply;
      SidePlansStay(db, op);
    }
  }

  /** A control command changes a checkpoint only by approving exactly the plan stored there. */
  lemma ControlApproves(db: Db, id: int, user: int, action: Action)
    ensures var after := Control(db, id, user, action);
      || after.db.checkpoints == db.checkpoints
      || (&& action.Approve? && after.outcome.Ok? && id in db.runs && db.runs[id].request.user == user
          && id in db.checkpoints && action.hash == db.checkpoints[id].planHash && db.runs[id].status.AwaitingApproval?
          && after.db.checkpoints == db.checkpoints[id := db.checkpoints[id].(approvedHash := action.hash)])
  {
    hide AddEvents, AddMessages, KeyHeldByOther;
    if id in db.checkpoints {
      assert db.checkpoints[id := db.checkpoints[id]] == db.checkpoints;
    }
  }

  // ---- every step keeps the gate --------------------------------------------------------------

  lemma SamePlansGenuine(approvals: set<(int, Hash)>, before: map<int, Checkpoint>, after: map<int, Checkpoint>,
        executors: map<int, Executor>)
    requires AllGenuine(approvals, before, executors) && SamePlans(before, after)
    ensures AllGenuine(approvals, after, executors)
  {
  }

  lemma ApprovalGenuine(approvals: set<(int, Hash)>, checkpoints: map<int, Checkpoint>, executors: map<int, Executor>,
        id: int, hash: Hash)
    requires AllGenuine(approvals, checkpoints, executors) && id in checkpoints
    ensures AllGenuine(approvals + {(id, hash)}, checkpoints[id := checkpoints[id].(approvedHash := hash)], executors)
  {
    hide PlanHash;
  }

  lemma MoreApprovals(approvals: set<(int, Hash)>, more: set<(int, Hash)>, checkpoints: map<int, Checkpoint>,
        executors: map<int, Executor>)
    requires AllGenuine(approvals, checkpoints, executors)
    ensures AllGenuine(approvals + more, checkpoints, executors)
  {
    hide PlanHash;
  }

  lemma TransactionGenuine(s: System, op: Op, asks: string -> bool)
    requires AllGenuine(s.approvals, s.db.checkpoints, s.executors) && !op.OpSave?
    ensures var s' := Next(s, Transaction(op), asks);
      AllGenuine(s'.approvals, s'.db.checkpoints, s.executors) && s.approvals <= s'.approvals
  {
    hide AllGenuine, Control;
    var s' := Next(s, Transaction(op), asks);
    if op.OpControl? {
      ControlApproves(s.db, op.id, op.user, op.action);
      if s'.db.checkpoints != s.db.checkpoints {
        ApprovalGenuine(s.approvals, s.db.checkpoints, s.executors, op.id, op.action.hash);
      } else {
        MoreApprovals(s.approvals, s'.approvals - s.approvals, s.db.checkpoints, s.executors);
        assert s.approvals + (s'.approvals - s.approvals) == s'.approvals;
      }
    } else {
      OtherStepKeepsPlans(s.db, op);
      hide Apply, SamePlans;
      SamePlansGenuine(s.approvals, s.db.checkpoints, Apply(s.db, op).checkpoints, s.executors);
      assert s.approvals + {} == s.approvals;
    }
  }

  /** Gating is decided by the stored request, which never changes. */
  lemma EntriesStayApproved(s: System, s': System, asks: string -> bool)
    requires EntriesApproved(s, asks) && Extends(s.db, s'.db) && s'.entries == s.entries && s.approvals <= s'.approvals
    ensures EntriesApproved(s', asks)
  {
    hide PlanHash;
  }

  lemma TransactionKeeps(s: System, op: Op, asks: string -> bool)
    requires Safe(s, asks) && !op.OpSave?
    ensures Safe(Next(s, Transaction(op), asks), asks)
  {
    hide Inv, AllGenuine, EntriesApproved, Moves;
    StepSound(s.db, op);
    TransactionGenuine(s, op, asks);
    var s' := Next(s, Transaction(op), asks);
    assert s'.db == Apply(s.db, op) && s'.executors == s.executors && s'.entries == s.entries;
    hide Next, Apply;
    EntriesStayApproved(s, s', asks);
  }

  lemma LoadKeeps(s: System, x: int, run: int, claim: Claim, asks: string -> bool)
    requires Safe(s, asks) && run in s.db.runs
    ensures Safe(Next(s, Load(x, run, claim), asks), asks)
  {
    hide Inv, EntriesApproved, PlanHash;
    var s' := Next(s, Load(x, run, claim), asks);
    assert EntriesApproved(s', asks) by { EntriesStayApproved(s, s', asks); }
  }

  lemma LeaveKeeps(s: System, x: int, asks: string -> bool)
    requires Safe(s, asks)
    ensures Safe(Leave(s, x), asks)
  {
    hide Inv, EntriesApproved, PlanHash, Genuine;
    EntriesStayApproved(s, Leave(s, x), asks);
  }

  lemma EnterKeeps(s: System, e: Executor, node: string, asks: string -> bool)
    requires Safe(s, asks) && e.run in s.db.runs
    requires e.checkpoint.Some? ==> Genuine(s.approvals, e.run, e.checkpoint.value)
    requires node == CodeGenerator && Gated(s.db, e.run, asks) ==>
      e.checkpoint.Some? && e.checkpoint.value.planHash == e.checkpoint.value.approvedHash
    ensures Safe(Enter(s, e, node), asks)
  {
    hide Inv, AllGenuine;
    assert node == CodeGenerator && Gated(s.db, e.run, asks) ==>
        Approved(s.approvals, Entry(e.run, node, e.checkpoint));
    hide Gated, Approved, Genuine;
  }

  lemma BeginKeeps(s: System, x: int, asks: string -> bool)
    requires Safe(s, asks) && x in s.executors
    ensures Safe(Next(s, Begin(x), asks), asks)
  {
    var e := s.executors[x];
    LeaveKeeps(s, x, asks);
    assert e.checkpoint.Some? ==> Genuine(s.approvals, e.run, e.checkpoint.value);
    assert "router" != CodeGenerator;
    hide Safe, Inv, Genuine;
    if e.checkpoint.None? {
      EnterKeeps(s, e, "router", asks);
    } else if !(Gated(s.db, e.run, asks) && e.checkpoint.value.nextNode == CodeGenerator
                && e.checkpoint.value.approvedHash != e.checkpoint.value.planHash) {
      EnterKeeps(s, e, e.checkpoint.value.nextNode, asks);
    }
  }

  /** A committed save: the row's checkpoint is the one written, with the executor's own approval. */
  lemma SaveSets(db: Db, id: int, c: Claim, cp: Checkpoint)
    ensures var written := SaveCheckpoint(db, id, c, cp);
      written.db.checkpoints == (if written.outcome.Ok? then db.checkpoints[id := cp] else db.checkpoints)
  {
    hide ValidClaim, AddEvents, AddMessages;
  }

  lemma SavedGenuine(s: System, x: int, next: string, saved: Saved)
    requires AllGenuine(s.approvals, s.db.checkpoints, s.executors) && x in s.executors
    ensures var e, cp := s.executors[x], Checkpointed(s.executors[x], next, saved);
      && Genuine(s.approvals, e.run, cp)
      && AllGenuine(s.approvals, SaveCheckpoint(s.db, e.run, e.claim, cp).db.checkpoints, s.executors)
      && AllGenuine(s.approvals, SaveCheckpoint(s.db, e.run, e.claim, cp).db.checkpoints,
           s.executors[x := e.(checkpoint := Some(cp))])
  {
    var e, cp := s.executors[x], Checkpointed(s.executors[x], next, saved);
    SaveSets(s.db, e.run, e.claim, cp);
    hide SaveCheckpoint;
    assert Genuine(s.approvals, e.run, cp);
    hide PlanHash, Checkpointed, Genuine;
  }

  lemma SavedKeeps(s: System, x: int, next: string, saved: Saved, asks: string -> bool)
    requires Safe(s, asks) && x in s.executors
    ensures var e, cp := s.executors[x], Checkpointed(s.executors[x], next, saved);
      var after := s.(db := SaveCheckpoint(s.db, e.run, e.claim, cp).db);
      Safe(after, asks) && Safe(after.(executors := s.executors[x := e.(checkpoint := Some(cp))]), asks)
  {
    var e, cp := s.executors[x], Checkpointed(s.executors[x], next, saved);
    SavedGenuine(s, x, next, saved);
    hide Inv, AllGenuine, EntriesApproved, SaveCheckpoint, Checkpointed, Genuine, Moves;
    SaveSound(s.db, e.run, e.claim, cp);
    var after := s.(db := SaveCheckpoint(s.db, e.run, e.claim, cp).db);
    EntriesStayApproved(s, after, asks);
    EntriesStayApproved(s, after.(executors := s.executors[x := e.(checkpoint := Some(cp))]), asks);
  }

  lemma SafePointKeeps(s: System, x: int, next: string, saved: Saved, reply: bool, pausing: bool, asks: string -> bool)
    requires Safe(s, asks) && x in s.executors
    ensures Safe(Next(s, SafePoint(x, next, saved, reply, pausing), asks), asks)
  {
    var e, cp := s.executors[x], Checkpointed(s.executors[x], next, saved);
    var db := SaveCheckpoint(s.db, e.run, e.claim, cp).db;
    var after := s.(db := db, executors := s.executors[x := e.(checkpoint := Some(cp))]);
    SavedKeeps(s, x, next, saved, asks);
    LeaveKeeps(s.(db := db), x, asks);
    assert Genuine(s.approvals, e.run, cp) by { SavedGenuine(s, x, next, saved); }
    assert Gated(db, e.run, asks) == Gated(s.db, e.run, asks) && e.run in db.runs by {
      hide Inv, SaveCheckpoint;
      SaveSound(s.db, e.run, e.claim, cp);
    }
    hide Safe, Inv, Genuine, SaveCheckpoint, Gated, Checkpointed;
    if !(Gated(s.db, e.run, asks) && next == CodeGenerator && cp.planHash != cp.approvedHash) {
      EnterKeeps(after, e.(checkpoint := Some(cp)), next, asks);
    }
  }

  lemma NextKeeps(s: System, step: Step, asks: string -> bool)
    requires Safe(s, asks) && Allowed(s, step)
    ensures Safe(Next(s, step, asks), asks)
  {
    hide Safe;
    assert step.Exit? ==> Next(s, step, asks) == Leave(s, step.x);
    hide Next;
    match step
    case Transaction(op) => TransactionKeeps(s, op, asks);
    case Load(x, run, claim) => LoadKeeps(s, x, run, claim, asks);
    case Begin(x) => BeginKeeps(s, x, asks);
    case SafePoint(x, next, saved, reply, pausing) => SafePointKeeps(s, x, next, saved, reply, pausing, asks);
    case Exit(x) => LeaveKeeps(s, x, asks);
  }

  const Boot := System(EmptyDb, map[], {}, [])

  function Reached(steps: seq<Step>, asks: string -> bool): System {
    if steps == [] then Boot else Next(Reached(steps[..|steps| - 1], asks), steps[|steps| - 1], asks)
  }

  ghost predicate Legal(steps: seq<Step>, asks: string -> bool) {
    forall i :: 0 <= i < |steps| ==> Allowed(Reached(steps[..i], asks), steps[i])
  }

  lemma {:induction false} ReachedSafe(steps: seq<Step>, asks: string -> bool)
    requires Legal(steps, asks)
    ensures Safe(Reached(steps, asks), asks)
    decreases |steps|
  {
    if steps == [] {
      EmptyIsSound();
    } else {
      var front := steps[..|steps| - 1];
      assert forall i :: 0 <= i < |front| ==> front[..i] == steps[..i];
      hide Safe, Next;
      ReachedSafe(front, asks);
      NextKeeps(Reached(front, asks), steps[|steps| - 1], asks);
    }
  }

  /** The gate: in a run that asks for approval, every entry to the code generator, on the first
      attempt, after a restart or in a retry, follows a saved checkpoint whose plan hash is a hash
      the user supplied in a successful approval of that run. Nothing stored was forged. */
  lemma CodeIsGeneratedFromApprovedPlans(steps: seq<Step>, asks: string -> bool, i: int)
    requires Legal(steps, asks) && 0 <= i < |Reached(steps, asks).entries|
    requires Reached(steps, asks).entries[i].node == CodeGenerator
    requires Gated(Reached(steps, asks).db, Reached(steps, asks).entries[i].run, asks)
    ensures Approved(Reached(steps, asks).approvals, Reached(steps, asks).entries[i])
    ensures forall r :: r in Reached(steps, asks).db.checkpoints ==>
      Genuine(Reached(steps, asks).approvals, r, Reached(steps, asks).db.checkpoints[r])
  {
    ReachedSafe(steps, asks);
    hide Reached, Inv, Genuine, Approved;
  }

  /** The recorded approvals are exactly the successful approve commands of the history. */
  lemma {:induction false} ApprovalsAreCommands(steps: seq<Step>, asks: string -> bool, run: int, hash: Hash)
    ensures (run, hash) in Reached(steps, asks).approvals <==>
      exists i, user :: 0 <= i < |steps| && steps[i] == Transaction(OpControl(run, user, Approve(hash)))
        && Control(Reached(steps[..i], asks).db, run, user, Approve(hash)).outcome.Ok?
    decreases |steps|
  {
    hide Apply, Control, SaveCheckpoint, Gated;
    if steps != [] {
      var front, last := steps[..|steps| - 1], steps[|steps| - 1];
      assert forall i :: 0 <= i <= |front| ==> front[..i] == steps[..i];
      assert forall i :: 0 <= i < |front| ==> front[i] == steps[i];
      ApprovalsAreCommands(front, asks, run, hash);
      var s := Reached(front, asks);
      assert (run, hash) in Next(s, last, asks).approvals <==>
        ((run, hash) in s.approvals
         || (exists user :: last == Transaction(OpControl(run, user, Approve(hash)))
              && Control(s.db, run, user, Approve(hash)).outcome.Ok?));
      hide Next;
      if (run, hash) in Next(s, last, asks).approvals && (run, hash) !in s.approvals {
        assert steps[|front|] == last;
      }
    }
  }

  /** Progress on the todos, a retry or a restart does not ask again, a new base version does. */
  lemma ApprovalFollowsThePlan(e: Executor, next: string, saved: Saved)
    requires e.checkpoint.Some?
    requires e.checkpoint.value.approvedHash == PlanHash(e.checkpoint.value.plan, e.checkpoint.value.baseVersion)
    ensures var cp := Checkpointed(e, next, saved);
      cp.planHash == cp.approvedHash <==>
      && e.claim.baseVersion == e.checkpoint.value.baseVersion && SameHeader(saved.plan, e.checkpoint.value.plan)
      && |saved.plan.todos| == |e.checkpoint.value.plan.todos|
      && forall i :: 0 <= i < |saved.plan.todos| ==>
           saved.plan.todos[i].id == e.checkpoint.value.plan.todos[i].id
               && saved.plan.todos[i].title == e.checkpoint.value.plan.todos[i].title
  {
    PlanHashIgnoresOnlyProgress(saved.plan, e.checkpoint.value.plan, e.claim.baseVersion,
        e.checkpoint.value.baseVersion);
    hide PlanHash, SameHeader;
  }

  lemma SavedRequest(db: Db, id: int, c: Claim, cp: Checkpoint)
    requires SaveCheckpoint(db, id, c, cp).outcome.Ok?
    ensures var after := SaveCheckpoint(db, id, c, cp).db;
      id in db.runs && id in after.runs && after.runs[id].request == db.runs[id].request
  {
    hide AddEvents, AddMessages, ValidClaim;
  }

  /** A handler's attempt at a safe point: when it is not even ready for it, its executor is gone. */
  function Attempt(
      s: System, x: int, next: string, saved: Saved, ready: bool, reply: bool, stops: bool,
      asks: string -> bool): System
  {
    if ready then Next(s, SafePoint(x, next, saved, reply, stops), asks) else Next(s, Exit(x), asks)
  }

  /** The executor is still there exactly if the handler goes on, and then with this state at this node. */
  predicate Stands(s: System, s': System, x: int, db: Db, goesOn: bool, e: Executor, next: string) {
    && s'.db == db && (goesOn <==> x in s'.executors)
    && (goesOn ==> s'.executors[x] == e && s'.entries == s.entries + [Entry(e.run, next, e.checkpoint)])
  }

  lemma NotReady(
      s: System, x: int, next: string, saved: Saved, reply: bool, stops: bool, asks: string -> bool, e: Executor)
    ensures Stands(s, Attempt(s, x, next, saved, false, reply, stops, asks), x, s.db, false, e, next)
  {
  }

  lemma SafePointEffect(s: System, x: int, next: string, saved: Saved, reply: bool, stops: bool, asks: string -> bool)
    requires x in s.executors
    ensures var e, cp := s.executors[x], Checkpointed(s.executors[x], next, saved);
      var written := SaveCheckpoint(s.db, e.run, e.claim, cp);
      var gated := Gated(s.db, e.run, asks) && next == CodeGenerator && cp.planHash != cp.approvedHash;
      Stands(s, Attempt(s, x, next, saved, true, reply, stops, asks), x, written.db,
             written.outcome.Ok? && reply && !stops && !gated, e.(checkpoint := Some(cp)), next)
  {
    hide SaveCheckpoint, Checkpointed, Gated;
  }

  lemma StandsAlone(s: System, s': System, x: int, db: Db, e: Executor, e': Executor, next: string)
    requires Stands(s, s', x, db, false, e, next)
    ensures Stands(s, s', x, db, false, e', next)
  {
  }

  /** The handler's own object: the checkpoint variable its safe-point hook reassigns. */
  class GraphRun {
    const store: GormStore.Store
    const run: int
    const claim: Claim
    var checkpoint: Option<Checkpoint>

    constructor (store: GormStore.Store, run: int, claim: Claim)
      ensures this.store == store && this.run == run && this.claim == claim
      ensures checkpoint == if run in store.db.tables.checkpoints then Some(store.db.tables.checkpoints[run]) else None
    {
      this.store, this.run, this.claim := store, run, claim;
      this.checkpoint := if run in store.db.tables.checkpoints then Some(store.db.tables.checkpoints[run]) else None;
    }

    /** True when the workflow goes on to `next`; otherwise the handler stops here. `ready` tells whether the
        budget is valid and the snapshot, the frozen files and their identifier could be made, `reply` whether
        both store calls answer, `canceled` whether the handler's context is cancelled in the end. It does
        to the system what the safe-point step of its executor does. */
    method SafePoint(next: string, saved: Saved, asks: string -> bool, ready: bool, reply: bool, canceled: bool,
                     ghost s: System, ghost x: int)
      returns (goesOn: bool, ghost pausing: bool)
      requires store.Valid() && s.db == store.db.tables
      requires x in s.executors && s.executors[x] == Executor(run, claim, checkpoint)
      modifies this, store.db
      ensures store.Valid()
      ensures Stands(s, Attempt(s, x, next, saved, ready, reply, pausing || canceled, asks), x, store.db.tables,
                     goesOn, Executor(run, claim, checkpoint), next)
    {
      pausing := false;
      hide Inv, SaveCheckpoint, PlanHash, Attempt, Stands;
      if !ready {
        NotReady(s, x, next, saved, reply, canceled, asks, Executor(run, claim, checkpoint));
        return false, false;
      }
      var hash := PlanHash(saved.plan, claim.baseVersion);
      var cp := Checkpoint(next, saved.state, saved.path, claim.baseVersion, saved.budget, saved.plan, hash, NoHash);
      if checkpoint.Some? {
        cp := cp.(approvedHash := checkpoint.value.approvedHash);
      }
      assert cp == Checkpointed(s.executors[x], next, saved);
      hide Checkpointed;
      ghost var saving := Executor(run, claim, Some(cp));
      var outcome := store.SaveCheckpoint(run, claim, cp);
      if outcome != Ok || !reply {
        SafePointEffect(s, x, next, saved, reply, canceled, asks);
        StandsAlone(s, Attempt(s, x, next, saved, true, reply, canceled, asks), x, store.db.tables,
                    saving, Executor(run, claim, checkpoint), next);
        return false, false;
      }
      SavedRequest(s.db, run, claim, cp);
      checkpoint := Some(cp);
      var current := store.db.tables.runs[run];
      pausing := current.status.Pausing?;
      SafePointEffect(s, x, next, saved, reply, pausing || canceled, asks);
      if asks(current.request.input) && next == CodeGenerator && hash != cp.approvedHash { return false, pausing; }
      if current.status.Pausing? { return false, pausing; }
      return !canceled, pausing;
    }
  }
}
