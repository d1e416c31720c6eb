/** The life of an executor, from launch to suspension: whether its private copy of the checkpoint can
    be out of date while it may still save. Executors of a process that lost the runtime may linger. */
module Executors {
  import opened TaskTypes
  import opened TaskTransactions
  import opened TaskInvariants
  import opened TaskHistory
  import Approval
  import Fencing
  import Causes

  /** Started, with the checkpoint loaded, owning the app, about to stop, stopped with the app released, or
      about to fail the run because suspending it did not succeed, or seemed not to. */
  datatype Phase =
    | Started | Loaded | Owning(claim: Claim) | Stopping(held: Option<Claim>, status: Status) | Released(status: Status)
    | Failing

  /** `checkpoint` is the handler's copy of the last checkpoint it loaded or saved. */
  datatype Worker = Worker(run: int, checkpoint: Option<Checkpoint>, phase: Phase)

  datatype System = System(db: Db, workers: map<int, Worker>)

  datatype Step =
    | Transaction(op: Op)
    | Restart(order: seq<int>)
    | Launch(x: int, run: int)
    | Load(x: int)
    | Own(x: int, owner: string, ttl: int)
    | SafePoint(x: int, next: string, saved: Approval.Saved)
    | Stop(x: int, status: Status)
    | Release(x: int)
    | Suspend(x: int, reply: bool)
    | Fail(x: int, interrupted: bool)
    | Vanish(x: int)

  /** An executor that holds a checkpoint copy and may still save one: it has yet to claim the app, or its
      claim is valid. */
  predicate Able(db: Db, w: Worker) {
    w.phase.Loaded? || (w.phase.Owning? && ValidClaim(db, w.phase.claim))
  }

  /** Starting, saving, suspending and failing runs belong to executors, restarting to processes. When
      an executor at work stops, and for what, is the gate's business (Approval). */
  ghost predicate Allowed(s: System, step: Step) {
    match step
    case Transaction(op) =>
      && !op.OpMarkRunning? && !op.OpSave? && !op.OpSuspend? && !op.OpFail? && !op.OpRestart?
      && (op.OpCreate? ==> op.request.app > 0)
    case Restart(order) => StaleOrder(s.db, order)
    case Launch(x, run) => x !in s.workers && run in s.db.runs && s.db.runs[run].status.Pending?
    case Load(x) => x in s.workers && s.workers[x].phase.Started?
    case Own(x, _, _) => x in s.workers && s.workers[x].phase.Loaded? && s.workers[x].run in s.db.runs
    case SafePoint(x, _, _) => x in s.workers && s.workers[x].phase.Owning?
    case Stop(x, status) =>
      && x in s.workers && (s.workers[x].phase.Loaded? || s.workers[x].phase.Owning?)
      && (status.Paused? || status.AwaitingApproval?)
    case Release(x) => x in s.workers && s.workers[x].phase.Stopping?
    case Suspend(x, _) => x in s.workers && s.workers[x].phase.Released?
    case Fail(x, interrupted) =>
      x in s.workers && (interrupted ==> !s.workers[x].phase.Released? && !s.workers[x].phase.Failing?)
    case Vanish(x) => x in s.workers
  }

  function Become(s: System, x: int, phase: Phase): System
    requires x in s.workers
  {
    s.(workers := s.workers[x := s.workers[x].(phase := phase)])
  }

  function Stored(db: Db, run: int): Option<Checkpoint> {
    if run in db.checkpoints then Some(db.checkpoints[run]) else None
  }

  function Next(s: System, step: Step): System {
    match step
    case Transaction(op) => s.(db := Apply(s.db, op))
    case Restart(order) => s.(db := Apply(s.db, OpRestart(order)))
    case Launch(x, run) =>
      s.(db := Apply(s.db, OpMarkRunning(run)), workers := s.workers[x := Worker(run, None, Started)])
    case Load(x) =>
      if x !in s.workers then s
      else s.(workers := s.workers[x := Worker(s.workers[x].run, Stored(s.db, s.workers[x].run), Loaded)])
    case Own(x, owner, ttl) =>
      if x !in s.workers || s.workers[x].run !in s.db.runs then s
      else
        var claimed := ClaimApp(s.db, s.db.runs[s.workers[x].run].request.app, owner, ttl);
        if claimed.outcome.Granted? then Become(s, x, Owning(claimed.outcome.claim)).(db := claimed.db) else s
    case SafePoint(x, next, saved) =>
      if x !in s.workers || !s.workers[x].phase.Owning? then s
      else
        var w := s.workers[x];
        var cp := Approval.Checkpointed(Approval.Executor(w.run, w.phase.claim, w.checkpoint), next, saved);
        var written := SaveCheckpoint(s.db, w.run, w.phase.claim, cp);
        if written.outcome.Ok? then System(written.db, s.workers[x := w.(checkpoint := Some(cp))]) else s
    case Stop(x, status) =>
      if x !in s.workers then s
      else
        var claim := if s.workers[x].phase.Owning? then Some(s.workers[x].phase.claim) else None;
        Become(s, x, Stopping(claim, status))
    case Release(x) =>
      if x !in s.workers || !s.workers[x].phase.Stopping? then s
      else
        var phase := s.workers[x].phase;
        Become(s, x, Released(phase.status)).(
          db := if phase.held.Some? then Apply(s.db, OpRelease(phase.held.value)) else s.db)
    case Suspend(x, reply) =>
      if x !in s.workers || !s.workers[x].phase.Released? then s
      else
        var stopped := TaskTransactions.Suspend(s.db, s.workers[x].run, s.workers[x].phase.status);
        if stopped.outcome.Ok? && reply then System(stopped.db, s.workers - {x})
        else Become(s, x, Failing).(db := stopped.db)
    case Fail(x, interrupted) =>
      if x !in s.workers then s
      else System(Apply(s.db, OpFail(s.workers[x].run, interrupted)), s.workers - {x})
    case Vanish(x) => s.(workers := s.workers - {x})
  }

  const Boot := System(EmptyDb, map[])

  function Reached(steps: seq<Step>): System {
    if steps == [] then Boot else Next(Reached(steps[..|steps| - 1]), steps[|steps| - 1])
  }

  ghost predicate Legal(steps: seq<Step>) {
    forall i :: 0 <= i < |steps| ==> Allowed(Reached(steps[..i]), steps[i])
  }

  // ---- copies of the approval -------------------------------------------------------------------

  function Approved(cp: Option<Checkpoint>): Hash {
    if cp.Some? then cp.value.approvedHash else NoHash
  }

  /** The approvals stored for all runs are those of the other database. */
  ghost predicate SameApprovals(db: Db, after: Db) {
    forall r :: Approved(Stored(after, r)) == Approved(Stored(db, r))
  }

  /** Every executor that may still save carries the stored approval of its run. */
  ghost predicate Current(s: System) {
    forall x :: x in s.workers && Able(s.db, s.workers[x]) ==>
      Approved(s.workers[x].checkpoint) == Approved(Stored(s.db, s.workers[x].run))
  }

  /** The step is a command that changes the stored approval of the run. */
  predicate Approves(s: System, step: Step, run: int) {
    && step.Transaction? && step.op.OpControl? && step.op.action.Approve? && step.op.id == run
    && Control(s.db, run, step.op.user, step.op.action).outcome.Ok?
    && Approved(Stored(s.db, run)) != step.op.action.hash
  }

  /** An approval finds no executor of its run that may still save. */
  ghost predicate Clear(s: System, step: Step) {
    forall x :: x in s.workers && Able(s.db, s.workers[x]) ==> !Approves(s, step, s.workers[x].run)
  }

  lemma OtherKeepsApprovals(db: Db, op: Op)
    requires !op.OpSave? && !op.OpControl?
    ensures SameApprovals(db, Apply(db, op))
  {
    Approval.OtherStepKeepsPlans(db, op);
    hide Apply;
  }

  /** A control command changes an approval only by approving, on the commanded run, the hash given. */
  lemma ControlChangesApproval(s: System, op: Op, r: int)
    requires op.OpControl?
    ensures Approved(Stored(Apply(s.db, op), r))
         == if Approves(s, Transaction(op), r) then op.action.hash else Approved(Stored(s.db, r))
  {
    Approval.ControlApproves(s.db, op.id, op.user, op.action);
    if op.action.Approve? && Control(s.db, op.id, op.user, op.action).outcome.Ok? { ApprovedIsStored(s.db, op); }
    hide Control;
  }

  lemma ApprovedIsStored(db: Db, op: Op)
    requires op.OpControl? && op.action.Approve? && Control(db, op.id, op.user, op.action).outcome.Ok?
    ensures Approved(Stored(Control(db, op.id, op.user, op.action).db, op.id)) == op.action.hash
  {
    hide AddEvents, AddMessages, KeyHeldByOther;
  }

  lemma SavedApproval(db: Db, id: int, c: Claim, cp: Checkpoint, r: int)
    ensures var written := SaveCheckpoint(db, id, c, cp);
      Approved(Stored(written.db, r)) == if written.outcome.Ok? && r == id then cp.approvedHash
          else Approved(Stored(db, r))
  {
    Approval.SaveSets(db, id, c, cp);
    hide SaveCheckpoint;
  }

  /** What a step other than a command or a save leaves of approvals. */
  lemma QuietStep(s: System, step: Step)
    requires Allowed(s, step) && !step.SafePoint? && !(step.Transaction? && step.op.OpControl?)
    ensures SameApprovals(s.db, Next(s, step).db)
  {
    OtherKeepsApprovals(s.db, OpTick(0));
    match step
    case Transaction(op) => OtherKeepsApprovals(s.db, op);
    case Restart(order) => OtherKeepsApprovals(s.db, OpRestart(order));
    case Launch(_, run) => OtherKeepsApprovals(s.db, OpMarkRunning(run));
    case Own(x, owner, ttl) => OtherKeepsApprovals(s.db, OpClaim(s.db.runs[s.workers[x].run].request.app, owner, ttl));
    case Release(x) =>
      if s.workers[x].phase.held.Some? { OtherKeepsApprovals(s.db, OpRelease(s.workers[x].phase.held.value)); }
    case Suspend(x, _) => OtherKeepsApprovals(s.db, OpSuspend(s.workers[x].run, s.workers[x].phase.status));
    case Fail(x, interrupted) => OtherKeepsApprovals(s.db, OpFail(s.workers[x].run, interrupted));
    case _ =>
    hide MarkRunning, TaskTransactions.Suspend, TaskTransactions.Fail, InterruptStale, ClaimApp;
    hide TaskTransactions.Release;
  }

  // ---- steps as transactions --------------------------------------------------------------------------

  /** What a step does to the database, as a transaction. */
  function StepOp(s: System, step: Step): Option<Op> {
    match step
    case Transaction(op) => Some(op)
    case Restart(order) => Some(OpRestart(order))
    case Launch(_, run) => Some(OpMarkRunning(run))
    case Own(x, owner, ttl) =>
      if x in s.workers && s.workers[x].run in s.db.runs
      then Some(OpClaim(s.db.runs[s.workers[x].run].request.app, owner, ttl))
      else None
    case SafePoint(x, next, saved) =>
      if x !in s.workers || !s.workers[x].phase.Owning? then None
      else
        var w := s.workers[x];
        var cp := Approval.Checkpointed(Approval.Executor(w.run, w.phase.claim, w.checkpoint), next, saved);
        Some(OpSave(w.run, w.phase.claim, cp))
    case Release(x) =>
      if x in s.workers && s.workers[x].phase.Stopping? && s.workers[x].phase.held.Some?
      then Some(OpRelease(s.workers[x].phase.held.value)) else None
    case Suspend(x, _) =>
      if x in s.workers && s.workers[x].phase.Released?
      then Some(OpSuspend(s.workers[x].run, s.workers[x].phase.status)) else None
    case Fail(x, interrupted) => if x in s.workers then Some(OpFail(s.workers[x].run, interrupted)) else None
    case _ => None
  }

  lemma RefusedClaim(db: Db, app: int, owner: string, ttl: int)
    ensures !ClaimApp(db, app, owner, ttl).outcome.Granted? ==> ClaimApp(db, app, owner, ttl).db == db
  {
  }

  lemma RefusedSuspend(db: Db, id: int, status: Status)
    ensures !TaskTransactions.Suspend(db, id, status).outcome.Ok? ==> TaskTransactions.Suspend(db, id, status).db == db
  {
    hide Advance;
  }

  lemma RefusedSave(db: Db, id: int, c: Claim, cp: Checkpoint)
    ensures !SaveCheckpoint(db, id, c, cp).outcome.Ok? ==> SaveCheckpoint(db, id, c, cp).db == db
  {
    hide Advance, ValidClaim;
  }

  lemma StepIsOp(s: System, step: Step)
    requires Allowed(s, step)
    ensures Next(s, step).db == if StepOp(s, step).Some? then Apply(s.db, StepOp(s, step).value) else s.db
  {
    var op := StepOp(s, step);
    if step.Own? { RefusedClaim(s.db, op.value.app, op.value.owner, op.value.ttl); }
    if step.Suspend? { RefusedSuspend(s.db, op.value.id, op.value.status); }
    if step.SafePoint? { RefusedSave(s.db, op.value.id, op.value.claim, op.value.checkpoint); }
    hide ClaimApp, SaveCheckpoint, TaskTransactions.Suspend, MarkRunning, TaskTransactions.Fail, InterruptStale;
    hide TaskTransactions.Release, Approval.Checkpointed;
  }

  lemma AppliedSave(db: Db, op: Op)
    requires op.OpSave?
    ensures Apply(db, op) == SaveCheckpoint(db, op.id, op.claim, op.checkpoint).db
  {
    hide SaveCheckpoint;
  }

  // ---- claims of executors ----------------------------------------------------------------------

  /** The executor's claim was granted, for the app of its run. */
  predicate HoldsGrant(db: Db, w: Worker)
    requires w.phase.Owning?
  {
    var c := w.phase.claim;
    w.run in db.runs && c.app == db.runs[w.run].request.app && c.app in db.apps && c.epoch <= db.apps[c.app].epoch
  }

  ghost predicate ClaimsGranted(s: System) {
    && Inv(s.db)
    && forall x :: x in s.workers && s.workers[x].phase.Owning? ==> HoldsGrant(s.db, s.workers[x])
  }

  /** Requests and epochs as the invariant needs them. */
  lemma StepAges(s: System, step: Step)
    requires Inv(s.db) && Allowed(s, step)
    ensures var db, after := s.db, Next(s, step).db;
      && Inv(after) && Fencing.AppsAge(db, after)
      && forall r :: r in db.runs ==> r in after.runs && after.runs[r].request == db.runs[r].request
  {
    StepIsOp(s, step);
    hide Inv, Apply, Next, StepOp, Moves, Allowed;
    if StepOp(s, step).Some? {
      StepSound(s.db, StepOp(s, step).value);
      Fencing.StepAges(s.db, StepOp(s, step).value);
    }
  }

  lemma GrantAges(db: Db, after: Db, w: Worker)
    requires w.phase.Owning? && HoldsGrant(db, w) && Fencing.AppsAge(db, after)
    requires forall r :: r in db.runs ==> r in after.runs && after.runs[r].request == db.runs[r].request
    ensures HoldsGrant(after, w)
    ensures ValidClaim(after, w.phase.claim) ==> ValidClaim(db, w.phase.claim)
  {
  }

  /** An executor that owns after a step owned before, or was just granted the app. */
  lemma OwnersBefore(s: System, step: Step, y: int)
    requires Allowed(s, step) && y in Next(s, step).workers && Next(s, step).workers[y].phase.Owning?
    ensures y in s.workers && s.workers[y].run == Next(s, step).workers[y].run
    ensures s.workers[y].phase == Next(s, step).workers[y].phase
      || (step.Own? && step.x == y && s.workers[y].phase.Loaded?
          && HoldsGrant(Next(s, step).db, Next(s, step).workers[y]))
    ensures s.workers[y].checkpoint == Next(s, step).workers[y].checkpoint || step.SafePoint?
  {
    hide Apply, SaveCheckpoint, TaskTransactions.Suspend, Approval.Checkpointed;
  }

  lemma ClaimsStayGranted(s: System, step: Step)
    requires ClaimsGranted(s) && Allowed(s, step)
    ensures ClaimsGranted(Next(s, step))
  {
    StepAges(s, step);
    var s' := Next(s, step);
    hide Next, Inv, Allowed, HoldsGrant, Fencing.AppsAge;
    forall y | y in s'.workers && s'.workers[y].phase.Owning? ensures HoldsGrant(s'.db, s'.workers[y]) {
      OwnersBefore(s, step, y);
      if s.workers[y].phase == s'.workers[y].phase {
        GrantAges(s.db, s'.db, s.workers[y]);
        SameHolder(s'.db, s.workers[y], s'.workers[y]);
      }
    }
  }

  lemma SameHolder(db: Db, w: Worker, w': Worker)
    requires w.phase.Owning? && HoldsGrant(db, w) && w'.phase == w.phase && w'.run == w.run
    ensures HoldsGrant(db, w')
  {
  }

  lemma {:induction false} ReachedGranted(steps: seq<Step>)
    requires Legal(steps)
    ensures ClaimsGranted(Reached(steps))
    decreases |steps|
  {
    hide Next, ClaimsGranted, Allowed;
    if steps == [] {
      NothingGranted();
    } else {
      var n := |steps| - 1;
      var front := steps[..n];
      assert forall i :: 0 <= i < n ==> front[..i] == steps[..i];
      ReachedGranted(front);
      assert Allowed(Reached(steps[..n]), steps[n]);
      ClaimsStayGranted(Reached(front), steps[n]);
    }
  }

  lemma NothingGranted()
    ensures ClaimsGranted(Boot)
  {
    EmptyIsSound();
  }

  // ---- what keeps the copies current ----------------------------------------------------------------

  /** An executor after a quiet step: as able as before, or just loaded, or no longer able. A lost claim is
      never valid again. */
  lemma QuietWorkers(s: System, step: Step, y: int)
    requires ClaimsGranted(s) && Allowed(s, step) && !step.SafePoint?
    requires y in Next(s, step).workers && Able(Next(s, step).db, Next(s, step).workers[y])
    ensures var w := Next(s, step).workers[y];
      || (step.Load? && y == step.x && w.checkpoint == Stored(s.db, w.run) && Next(s, step).db == s.db)
      || (y in s.workers && Able(s.db, s.workers[y]) && s.workers[y].run == w.run
          && s.workers[y].checkpoint == w.checkpoint)
  {
    if Next(s, step).workers[y].phase.Owning? {
      OwnersBefore(s, step, y);
      StepAges(s, step);
      hide Next, Inv, Allowed;
      if s.workers[y].phase.Owning? { GrantAges(s.db, Next(s, step).db, s.workers[y]); }
    } else {
      hide Apply, ClaimApp, TaskTransactions.Suspend, ValidClaim, Inv, HoldsGrant;
    }
  }

  lemma QuietKeeps(s: System, step: Step)
    requires ClaimsGranted(s) && Current(s) && Allowed(s, step)
    requires !step.SafePoint? && !(step.Transaction? && step.op.OpControl?)
    ensures Current(Next(s, step))
  {
    QuietStep(s, step);
    var s' := Next(s, step);
    forall y | y in s'.workers && Able(s'.db, s'.workers[y])
      ensures Approved(s'.workers[y].checkpoint) == Approved(Stored(s'.db, s'.workers[y].run))
    {
      QuietWorkers(s, step, y);
      hide Next, Stored, Approved, ClaimsGranted, Able;
    }
  }

  /** A safe point that succeeds had a valid claim, and leaves ownership alone. */
  lemma SafePointIs(s: System, x: int, next: string, saved: Approval.Saved)
    requires Allowed(s, SafePoint(x, next, saved))
    ensures var s', w := Next(s, SafePoint(x, next, saved)), s.workers[x];
      var cp := Approval.Checkpointed(Approval.Executor(w.run, w.phase.claim, w.checkpoint), next, saved);
      && s'.db == SaveCheckpoint(s.db, w.run, w.phase.claim, cp).db && cp.approvedHash == Approved(w.checkpoint)
      && s'.db.apps == s.db.apps && s'.db.now == s.db.now
      && (if SaveCheckpoint(s.db, w.run, w.phase.claim, cp).outcome.Ok?
          then ValidClaim(s.db, w.phase.claim) && s'.workers == s.workers[x := w.(checkpoint := Some(cp))]
          else s' == s)
  {
    var w := s.workers[x];
    var cp := Approval.Checkpointed(Approval.Executor(w.run, w.phase.claim, w.checkpoint), next, saved);
    assert cp.approvedHash == Approved(w.checkpoint);
    hide Approval.Checkpointed;
    var written := SaveCheckpoint(s.db, w.run, w.phase.claim, cp);
    assert written.outcome.Ok? ==> ValidClaim(s.db, w.phase.claim) by { hide Advance; }
    assert !written.outcome.Ok? ==> written.db == s.db by { RefusedSave(s.db, w.run, w.phase.claim, cp); }
    AppliedSave(s.db, OpSave(w.run, w.phase.claim, cp));
    Fencing.RunOpKeepsApps(s.db, OpSave(w.run, w.phase.claim, cp));
    hide SaveCheckpoint, ValidClaim, Apply;
  }

  /** A safe point saves its copy's approval; while that is the stored one, no approval changes. */
  lemma SaveKeeps(s: System, x: int, next: string, saved: Approval.Saved)
    requires Current(s) && Allowed(s, SafePoint(x, next, saved))
    ensures Current(Next(s, SafePoint(x, next, saved))) && SameApprovals(s.db, Next(s, SafePoint(x, next, saved)).db)
  {
    var w := s.workers[x];
    var cp := Approval.Checkpointed(Approval.Executor(w.run, w.phase.claim, w.checkpoint), next, saved);
    SafePointIs(s, x, next, saved);
    hide Next, SaveCheckpoint, Approval.Checkpointed, Stored;
    forall r ensures Approved(Stored(Next(s, SafePoint(x, next, saved)).db, r)) == Approved(Stored(s.db, r)) {
      SavedApproval(s.db, w.run, w.phase.claim, cp, r);
    }
  }

  lemma ControlStep(s: System, op: Op)
    requires Current(s) && op.OpControl?
    ensures Current(Next(s, Transaction(op))) <==> Clear(s, Transaction(op))
  {
    var s' := Next(s, Transaction(op));
    Fencing.ControlKeepsApps(s.db, op.id, op.user, op.action);
    assert s'.db.apps == s.db.apps && s'.db.now == s.db.now && s'.workers == s.workers by { hide Control; }
    forall x | x in s.workers
      ensures Approved(Stored(s'.db, s.workers[x].run)) == if Approves(s, Transaction(op), s.workers[x].run)
                then op.action.hash else Approved(Stored(s.db, s.workers[x].run))
    {
      ControlChangesApproval(s, op, s.workers[x].run);
    }
    hide Next, Apply, Control, Stored;
  }

  /** One step keeps the copies current if and only if it is no approval that finds one in use. */
  lemma StepKeeps(s: System, step: Step)
    requires ClaimsGranted(s) && Current(s) && Allowed(s, step)
    ensures Current(Next(s, step)) <==> Clear(s, step)
  {
    if step.Transaction? && step.op.OpControl? {
      ControlStep(s, step.op);
    } else {
      assert Clear(s, step);
      hide Next, Current, Clear, Allowed, ClaimsGranted;
      if step.SafePoint? { SaveKeeps(s, step.x, step.next, step.saved); } else { QuietKeeps(s, step); }
    }
  }

  /** All approvals after the first n steps are clear. */
  ghost predicate ClearFrom(steps: seq<Step>, n: nat) {
    forall i :: n <= i < |steps| ==> Clear(Reached(steps[..i]), steps[i])
  }

  ghost predicate CurrentFrom(steps: seq<Step>, n: nat) {
    forall i :: n <= i <= |steps| ==> Current(Reached(steps[..i]))
  }

  lemma OneMoreState(steps: seq<Step>, n: nat)
    requires n < |steps|
    ensures var k := |steps| - 1;
      && (CurrentFrom(steps, n) <==> CurrentFrom(steps[..k], n) && Current(Reached(steps)))
      && (ClearFrom(steps, n) <==> ClearFrom(steps[..k], n) && Clear(Reached(steps[..k]), steps[k]))
  {
    hide Reached, Current, Clear;
    var k := |steps| - 1;
    var front := steps[..k];
    assert steps[..k + 1] == steps && front[..k] == front;
    forall i | 0 <= i <= k
      ensures Current(Reached(front[..i])) <==> Current(Reached(steps[..i]))
      ensures i < k ==> (Clear(Reached(front[..i]), front[i]) <==> Clear(Reached(steps[..i]), steps[i]))
    {
      assert front[..i] == steps[..i];
    }
  }

  lemma LegalFront(steps: seq<Step>, n: nat)
    requires n <= |steps| && Legal(steps)
    ensures Legal(steps[..n])
    ensures n < |steps| ==> Allowed(Reached(steps[..n]), steps[n])
  {
    hide Allowed, Reached;
    var front := steps[..n];
    forall i | 0 <= i < n ensures Allowed(Reached(front[..i]), front[i]) { assert front[..i] == steps[..i]; }
  }

  lemma Longer(steps: seq<Step>, step: Step)
    requires Legal(steps) && Allowed(Reached(steps), step)
    ensures Legal(steps + [step]) && Reached(steps + [step]) == Next(Reached(steps), step)
  {
    hide Allowed, Next;
    var more := steps + [step];
    forall i | 0 <= i < |more| ensures Allowed(Reached(more[..i]), more[i]) {
      assert more[..i] == if i < |steps| then steps[..i] else steps;
    }
    assert more[..|steps|] == steps;
  }

  /** The exact condition, over all histories and from any state in which it holds: every executor that may
      still save carries the stored approval in all later states if and only if every later approval that
      changes the stored one finds no executor of its run that may still save. */
  lemma {:induction false} CopiesStayCurrent(steps: seq<Step>, n: nat)
    requires Legal(steps) && n <= |steps| && Current(Reached(steps[..n]))
    ensures CurrentFrom(steps, n) <==> ClearFrom(steps, n)
    decreases |steps|
  {
    hide *;
    if |steps| == n {
      assert steps[..n] == steps;
      NoMoreStates(steps);
    } else {
      var k := |steps| - 1;
      var front := steps[..k];
      LegalFront(steps, k);
      assert front[..n] == steps[..n];
      CopiesStayCurrent(front, n);
      OneMoreState(steps, n);
      ReachedGranted(front);
      assert Reached(steps) == Next(Reached(front), steps[k]) by { ReachedStep(steps); }
      if CurrentFrom(front, n) {
        LastIsCurrent(front, n);
        StepKeeps(Reached(front), steps[k]);
      }
    }
  }

  lemma ReachedStep(steps: seq<Step>)
    requires steps != []
    ensures Reached(steps) == Next(Reached(steps[..|steps| - 1]), steps[|steps| - 1])
  {
    hide Next;
  }

  lemma LastIsCurrent(steps: seq<Step>, n: nat)
    requires n <= |steps| && CurrentFrom(steps, n)
    ensures Current(Reached(steps))
  {
    assert steps[..|steps|] == steps;
    hide Current, Reached;
  }

  lemma NoMoreStates(steps: seq<Step>)
    requires Current(Reached(steps))
    ensures CurrentFrom(steps, |steps|) && ClearFrom(steps, |steps|)
  {
    assert steps[..|steps|] == steps;
    hide Current, Reached;
  }

  lemma NobodyWorks()
    ensures Current(Boot)
  {
  }

  /** While later approvals are clear, no save of a handler changes a stored approval. */
  lemma SavesKeepApprovals(steps: seq<Step>, n: nat, i: nat)
    requires Legal(steps) && n <= i < |steps| && steps[i].SafePoint?
    requires Current(Reached(steps[..n])) && ClearFrom(steps, n)
    ensures SameApprovals(Reached(steps[..i]).db, Reached(steps[..i + 1]).db)
  {
    CopiesStayCurrent(steps, n);
    assert Current(Reached(steps[..i])) && Allowed(Reached(steps[..i]), steps[i]);
    assert steps[..i + 1][..i] == steps[..i];
    hide Current, ClearFrom, Allowed, Next, SameApprovals, Legal;
    SaveKeeps(Reached(steps[..i]), steps[i].x, steps[i].next, steps[i].saved);
  }

  // ---- one process at a time ------------------------------------------------------------------------

  /** No process starts while executors of the one before are still alive. */
  ghost predicate OneProcess(steps: seq<Step>) {
    forall i :: 0 <= i < |steps| && steps[i].Restart? ==> Reached(steps[..i]).workers == map[]
  }

  /** Statuses in which a run has no executor. */
  predicate Detached(s: Status) {
    s.Pending? || Stopped(s)
  }

  /** The run has an executor's status, and keeps one. */
  ghost predicate Attached(db: Db, r: int) {
    r in db.runs && !Detached(db.runs[r].status)
  }

  /** An executor that only has its run left to fail does not count. */
  predicate AtWork(w: Worker) {
    !w.phase.Failing?
  }

  ghost predicate Distinct(workers: map<int, Worker>) {
    forall x, y :: x in workers && y in workers && x != y && AtWork(workers[x]) && AtWork(workers[y]) ==>
      workers[x].run != workers[y].run
  }

  ghost predicate OneWorker(s: System) {
    && Inv(s.db)
    && Distinct(s.workers)
    && forall x :: x in s.workers && AtWork(s.workers[x]) ==> Attached(s.db, s.workers[x].run)
  }

  lemma AdvanceAttached(base: Db, id: int, row: Run, evts: seq<EventType>, r: int)
    requires id in base.runs && row.lastSequence == base.runs[id].lastSequence && Attached(base, r)
    requires r == id ==> !Detached(row.status)
    ensures Attached(Advance(base, id, row, evts), r)
  {
    AdvanceFields(base, id, row, evts);
    hide Advance, AddEvents, AddMessages;
  }

  lemma CompleteAttached(db: Db, id: int, c: Completion, r: int)
    requires Attached(db, r)
    ensures Attached(Complete(db, id, c).db, r)
  {
    if Complete(db, id, c).db != db {
      hide Complete, Advance, CompletionEvents;
      var apps := CompleteShape(db, id, c);
      AdvanceAttached(Published(db, apps, VersionRow(db, id, c)), id, CompletedRow(db, id),
          CompletionEvents(db.nextId, c.description), r);
    }
  }

  lemma StopAttached(db: Db, id: int, r: int)
    requires Attached(db, r) && id in db.runs
    ensures Attached(TaskTransactions.Stop(db, id).db, r)
  {
    var row := db.runs[id];
    AdvanceAttached(db, id, row.(status := Cancelling), [RunControl(Cancelling)], r);
    AdvanceAttached(db, id, row.(status := Canceled, activeKey := None), [RunControl(Canceled), Done], r);
    hide Advance, Attached;
  }

  lemma ControlAttached(db: Db, id: int, user: int, action: Action, r: int)
    requires Attached(db, r)
    ensures Attached(Control(db, id, user, action).db, r)
  {
    if id in db.runs {
      var row := db.runs[id];
      AdvanceAttached(db, id, row.(status := Pausing), [RunControl(Pausing)], r);
      StopAttached(db, id, r);
      if id in db.checkpoints && id != r {
        RequeueAttached(db, id, db.checkpoints[id], r);
        if action.Approve? { RequeueAttached(db, id, db.checkpoints[id].(approvedHash := action.hash), r); }
      }
    }
    hide Advance, RequeueBase, Requeue, TaskTransactions.Stop, Attached;
  }

  lemma RequeueAttached(db: Db, id: int, cp: Checkpoint, r: int)
    requires Attached(db, r) && id in db.runs && id != r
    ensures Attached(Requeue(db, id, cp).db, r)
  {
    var row := db.runs[id].(status := Pending, activeKey := Some(db.runs[id].request.app));
    AdvanceAttached(RequeueBase(db, id, cp), id, row, [RunControl(Pending)], r);
    hide Advance, KeyHeldByOther, Attached;
  }

  lemma CreateAttached(db: Db, req: StartRequest, r: int)
    requires Inv(db) && Attached(db, r)
    ensures Attached(Apply(db, OpCreate(req)), r)
  {
    assert db.nextId !in db.runs;
    hide Inv, HasRequest, HasActive;
  }

  lemma AppendAttached(db: Db, id: int, kind: string, r: int)
    requires Attached(db, r)
    ensures Attached(AppendEvent(db, id, kind).db, r)
  {
    if id in db.runs { AdvanceAttached(db, id, db.runs[id], [Semantic(kind)], r); }
    hide Advance, Attached;
  }

  /** No transaction of anyone but the executor takes a run away from it. */
  lemma TransactionAttached(db: Db, op: Op, r: int)
    requires Inv(db) && Attached(db, r)
    requires !op.OpMarkRunning? && !op.OpSave? && !op.OpSuspend? && !op.OpFail? && !op.OpRestart?
    ensures Attached(Apply(db, op), r)
  {
    if op.OpCreate? {
      CreateAttached(db, op.request, r);
      hide *;
    } else {
      hide Inv, NewRun, Control, Complete, AppendEvent, Publish, PublishRestoration, UpdateBudget, RegisterSnapshot;
      hide ReclaimOutbox, ClaimOutboxRow, MarkOutboxDelivered, RetryOutbox, ClaimApp, Renew, TaskTransactions.Release;
      match op
      case OpControl(id, user, action) => ControlAttached(db, id, user, action, r);
      case OpComplete(id, c) => CompleteAttached(db, id, c, r);
      case OpAppend(id, kind) => AppendAttached(db, id, kind, r);
      case _ => Causes.SideStatus(db, op);
    }
  }

  lemma SuspendAttached(db: Db, id: int, status: Status, r: int)
    requires Attached(db, r) && id != r
    ensures Attached(Apply(db, OpSuspend(id, status)), r)
  {
    if id in db.runs && (status.Paused? || status.AwaitingApproval?) {
      AdvanceAttached(db, id, db.runs[id].(status := status), [RunSuspended(status)], r);
    }
    hide Advance, Attached;
  }

  /** Failing a run never detaches another one, and its own only as interrupted. */
  lemma FailAttached(db: Db, id: int, interrupted: bool, r: int)
    requires Attached(db, r) && (id != r || !interrupted)
    ensures Attached(Apply(db, OpFail(id, interrupted)), r)
  {
    if id in db.runs {
      var row := db.runs[id];
      AdvanceAttached(db, id, row.(status := Canceled, activeKey := None), [RunCanceled, Done], r);
      if interrupted { AdvanceAttached(db, id, row.(status := Recoverable), [RunSuspended(Recoverable)], r); }
      var failed := if interrupted then Interrupted else Failed;
      AdvanceAttached(db, id, row.(status := failed, activeKey := None), [ErrorRaised, RunFailed(failed), Done], r);
    }
    hide Advance, Attached;
  }

  lemma LaunchAttached(db: Db, id: int, r: int)
    requires id in db.runs && db.runs[id].status.Pending? && (Attached(db, r) || r == id)
    ensures Attached(Apply(db, OpMarkRunning(id)), r)
  {
    AdvanceFields(db, id, db.runs[id].(status := Running), [RunStarted]);
    hide Advance, AddEvents, AddMessages;
  }

  lemma SaveAttached(db: Db, id: int, c: Claim, cp: Checkpoint, r: int)
    requires Attached(db, r)
    ensures Attached(SaveCheckpoint(db, id, c, cp).db, r)
  {
    if id in db.runs {
      AdvanceAttached(db.(checkpoints := db.checkpoints[id := cp]), id, db.runs[id], [CheckpointSaved], r);
    }
    hide Advance, ValidClaim, Attached;
  }

  /** Who is at work after a step: those before, of whom suspending, failing and vanishing take one away
      and launching adds one. */
  lemma StepWorkers(s: System, step: Step)
    requires Allowed(s, step)
    ensures var s' := Next(s, step);
      && (forall x :: x in s'.workers ==>
            (step.Launch? && x == step.x && s'.workers[x].run == step.run)
            || (&& x in s.workers && s'.workers[x].run == s.workers[x].run
                && (AtWork(s'.workers[x]) ==> AtWork(s.workers[x]))))
      && (step.Fail? ==> step.x !in s'.workers)
      && (step.Suspend? ==> step.x !in s'.workers || !AtWork(s'.workers[step.x]))
  {
    hide Apply, ClaimApp, SaveCheckpoint, TaskTransactions.Suspend, Approval.Checkpointed;
  }

  lemma StepAttached(s: System, step: Step, x: int)
    requires OneWorker(s) && Allowed(s, step) && (step.Restart? ==> s.workers == map[])
    requires x in Next(s, step).workers && AtWork(Next(s, step).workers[x])
    ensures Attached(Next(s, step).db, Next(s, step).workers[x].run)
  {
    StepIsOp(s, step);
    StepWorkers(s, step);
    var r := Next(s, step).workers[x].run;
    hide Next, Inv, Apply, SaveCheckpoint;
    if step.Launch? {
      assert x == step.x || Attached(s.db, r);
      LaunchAttached(s.db, step.run, r);
    } else {
      assert Attached(s.db, r) && s.workers[x].run == r;
      hide Attached;
      match step
      case Transaction(op) => TransactionAttached(s.db, op, r);
      case SafePoint(_, _, _) =>
        var op := StepOp(s, step).value;
        SaveAttached(s.db, op.id, op.claim, op.checkpoint, r);
        AppliedSave(s.db, op);
      case Suspend(y, _) => SuspendAttached(s.db, s.workers[y].run, s.workers[y].phase.status, r);
      case Fail(y, interrupted) => FailAttached(s.db, s.workers[y].run, interrupted, r);
      case Own(_, _, _) => ClaimAttached(s.db, StepOp(s, step).value, r);
      case Release(_) => if StepOp(s, step).Some? { ClaimAttached(s.db, StepOp(s, step).value, r); }
      case _ =>
    }
  }

  lemma ClaimAttached(db: Db, op: Op, r: int)
    requires Attached(db, r) && (op.OpClaim? || op.OpRelease?)
    ensures Attached(Apply(db, op), r)
  {
    Causes.SideStatus(db, op);
    hide Apply;
  }

  lemma DistinctStays(s: System, step: Step)
    requires OneWorker(s) && Allowed(s, step)
    ensures Distinct(Next(s, step).workers)
  {
    StepWorkers(s, step);
    hide Next, Inv;
    assert step.Launch? ==> forall x :: x in s.workers && AtWork(s.workers[x]) ==> s.workers[x].run != step.run;
  }

  lemma InvStays(s: System, step: Step)
    requires Inv(s.db) && Allowed(s, step)
    ensures Inv(Next(s, step).db)
  {
    StepIsOp(s, step);
    hide Inv, Apply, Next, StepOp, Extends, Moves;
    if StepOp(s, step).Some? { StepSound(s.db, StepOp(s, step).value); }
  }

  lemma OneWorkerStays(s: System, step: Step)
    requires OneWorker(s) && Allowed(s, step) && (step.Restart? ==> s.workers == map[])
    ensures OneWorker(Next(s, step))
  {
    var s' := Next(s, step);
    assert Inv(s.db);
    InvStays(s, step);
    DistinctStays(s, step);
    hide Next, Inv, Allowed;
    forall x | x in s'.workers && AtWork(s'.workers[x]) ensures Attached(s'.db, s'.workers[x].run) {
      StepAttached(s, step, x);
    }
  }

  /** An approval is a command to a run that waits for it, or repeats what is stored. */
  lemma ApprovedRunWaits(s: System, step: Step, run: int)
    requires Approves(s, step, run)
    ensures run in s.db.runs && s.db.runs[run].status.AwaitingApproval?
  {
    hide Requeue, TaskTransactions.Stop, Advance;
  }

  lemma OneWorkerIsClear(s: System, step: Step)
    requires OneWorker(s)
    ensures Clear(s, step)
  {
    forall x | x in s.workers && Able(s.db, s.workers[x])
      ensures !Approves(s, step, s.workers[x].run)
    {
      if Approves(s, step, s.workers[x].run) { ApprovedRunWaits(s, step, s.workers[x].run); }
    }
    hide Inv, Approves;
  }

  lemma {:induction false} OneProcessKeepsOne(steps: seq<Step>)
    requires Legal(steps) && OneProcess(steps)
    ensures OneWorker(Reached(steps))
    decreases |steps|
  {
    hide Next, OneWorker, Allowed;
    if steps == [] {
      NobodyAtBoot();
    } else {
      var n := |steps| - 1;
      var front := steps[..n];
      assert forall i :: 0 <= i < n ==> front[..i] == steps[..i];
      OneProcessKeepsOne(front);
      assert Allowed(Reached(steps[..n]), steps[n]);
      OneWorkerStays(Reached(front), steps[n]);
    }
  }

  lemma NobodyAtBoot()
    ensures OneWorker(Boot)
  {
    EmptyIsSound();
  }

  lemma OneProcessFront(steps: seq<Step>, n: nat)
    requires n <= |steps| && OneProcess(steps)
    ensures OneProcess(steps[..n])
  {
    assert forall i :: 0 <= i < n ==> steps[..n][..i] == steps[..i];
    hide Reached;
  }

  lemma NothingReached(steps: seq<Step>)
    ensures Reached(steps[..0]) == Boot
  {
  }

  /** Where every process starts after the executors of the one before are gone, approvals are safe: no
      executor that may still save ever has an outdated copy, and no save changes a stored approval. */
  lemma OneProcessKeepsApprovals(steps: seq<Step>)
    requires Legal(steps) && OneProcess(steps)
    ensures forall i :: 0 <= i <= |steps| ==> Current(Reached(steps[..i]))
    ensures forall i :: 0 <= i < |steps| && steps[i].SafePoint? ==>
              SameApprovals(Reached(steps[..i]).db, Reached(steps[..i + 1]).db)
  {
    hide Clear, Current, SameApprovals, Legal, OneProcess, Reached, OneWorker;
    forall i | 0 <= i < |steps| ensures Clear(Reached(steps[..i]), steps[i]) {
      LegalFront(steps, i);
      OneProcessFront(steps, i);
      OneProcessKeepsOne(steps[..i]);
      OneWorkerIsClear(Reached(steps[..i]), steps[i]);
    }
    assert Current(Reached(steps[..0])) by { NobodyWorks(); NothingReached(steps); }
    assert ClearFrom(steps, 0);
    CopiesStayCurrent(steps, 0);
    forall i | 0 <= i < |steps| && steps[i].SafePoint?
      ensures SameApprovals(Reached(steps[..i]).db, Reached(steps[..i + 1]).db)
    {
      SavesKeepApprovals(steps, 0, i);
    }
  }
}
