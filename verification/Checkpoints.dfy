/** What a stored checkpoint holds, and where a resumed run goes on, said in terms of the history alone: by
    the safe points that were saved, the budgets that were written and the approvals that were given. */
module Checkpoints {
  import opened TaskTypes
  import opened TaskTransactions
  import opened TaskInvariants
  import opened TaskHistory
  import opened Approval

  /** What a safe point was called with, and the base version of its executor's claim. */
  datatype Named = Named(next: string, saved: Saved, base: int)

  /** The run may be written to under the claim. */
  predicate Writable(db: Db, run: int, c: Claim) {
    && run in db.runs && Executing(db.runs[run].status)
    && c.app == db.runs[run].request.app && ValidClaim(db, c)
  }

  /** The safe point's save commits. */
  predicate Commits(s: System, step: Step) {
    && step.SafePoint? && step.x in s.executors
    && Writable(s.db, s.executors[step.x].run, s.executors[step.x].claim)
  }

  function NamedBy(s: System, step: Step): Named
    requires Commits(s, step)
  {
    Named(step.next, step.saved, s.executors[step.x].claim.baseVersion)
  }

  /** The last safe point of the run that was saved. */
  function LastSaved(steps: seq<Step>, asks: string -> bool, run: int): Option<Named> {
    if steps == [] then None
    else
      var front, step := steps[..|steps| - 1], steps[|steps| - 1];
      var s := Reached(front, asks);
      if Commits(s, step) && s.executors[step.x].run == run then Some(NamedBy(s, step)) else LastSaved(front, asks, run)
  }

  /** The one an executor carries on from: its own last one, or the run's last one when it loaded. */
  function LastHeld(steps: seq<Step>, asks: string -> bool, x: int): Option<Named> {
    if steps == [] then None
    else
      var front, step := steps[..|steps| - 1], steps[|steps| - 1];
      var s := Reached(front, asks);
      if step.Load? && step.x == x then LastSaved(front, asks, step.run)
      else if Commits(s, step) && step.x == x then Some(NamedBy(s, step))
      else LastHeld(front, asks, x)
  }

  predicate GivesApproval(s: System, step: Step, run: int) {
    && step.Transaction? && step.op.OpControl? && step.op.action.Approve? && step.op.id == run
    && Control(s.db, run, step.op.user, step.op.action).outcome.Ok?
  }

  /** The approval stored for the run: the last one given, unless a later save put back the older one its
      executor carried. */
  function LastApproval(steps: seq<Step>, asks: string -> bool, run: int): Hash
    decreases |steps|
  {
    if steps == [] then NoHash
    else
      var front, step := steps[..|steps| - 1], steps[|steps| - 1];
      var s := Reached(front, asks);
      if Commits(s, step) && s.executors[step.x].run == run then HeldApproval(front, asks, step.x)
      else if GivesApproval(s, step, run) then step.op.action.hash
      else LastApproval(front, asks, run)
  }

  /** The approval an executor carries is the one it loaded. */
  function HeldApproval(steps: seq<Step>, asks: string -> bool, x: int): Hash
    decreases |steps|
  {
    if steps == [] then NoHash
    else
      var front, step := steps[..|steps| - 1], steps[|steps| - 1];
      if step.Load? && step.x == x then LastApproval(front, asks, step.run) else HeldApproval(front, asks, x)
  }

  /** The accounting stored for the run: of its last save, or written since. */
  function LastBudget(steps: seq<Step>, asks: string -> bool, run: int): Usage {
    if steps == [] then Usage(0, 0, 0)
    else
      var front, step := steps[..|steps| - 1], steps[|steps| - 1];
      var s := Reached(front, asks);
      if Commits(s, step) && s.executors[step.x].run == run then step.saved.budget
      else if step.Transaction? && step.op.OpBudget? && step.op.id == run && Writable(s.db, run, step.op.claim)
      then step.op.used
      else LastBudget(front, asks, run)
  }

  /** The checkpoint is that of the safe point, with the approval. */
  predicate Holds(cp: Option<Checkpoint>, named: Option<Named>, approval: Hash) {
    if named.None? then cp.None? && approval == NoHash
    else
      && cp.Some? && cp.value.nextNode == named.value.next
      && cp.value.state == named.value.saved.state && cp.value.snapshotPath == named.value.saved.path
      && cp.value.plan == named.value.saved.plan && cp.value.baseVersion == named.value.base
      && cp.value.planHash == PlanHash(named.value.saved.plan, named.value.base)
      && cp.value.approvedHash == approval
  }

  function StoredOf(db: Db, run: int): Option<Checkpoint> {
    if run in db.checkpoints then Some(db.checkpoints[run]) else None
  }

  ghost predicate StoreTells(steps: seq<Step>, asks: string -> bool, run: int) {
    var cp := StoredOf(Reached(steps, asks).db, run);
    && Holds(cp, LastSaved(steps, asks, run), LastApproval(steps, asks, run))
    && (cp.Some? ==> cp.value.budget == LastBudget(steps, asks, run))
  }

  ghost predicate CopyTells(steps: seq<Step>, asks: string -> bool, x: int) {
    x in Reached(steps, asks).executors ==>
      Holds(Reached(steps, asks).executors[x].checkpoint, LastHeld(steps, asks, x), HeldApproval(steps, asks, x))
  }

  // ---- what transactions leave of checkpoints -------------------------------------------------------

  lemma SaveCommits(db: Db, run: int, c: Claim, cp: Checkpoint)
    ensures SaveCheckpoint(db, run, c, cp).outcome.Ok? <==> Writable(db, run, c)
  {
    hide Advance, ValidClaim;
  }

  lemma BudgetSets(db: Db, run: int, c: Claim, used: Usage)
    ensures UpdateBudget(db, run, c, used).db.checkpoints ==
            if Writable(db, run, c) && run in db.checkpoints
            then db.checkpoints[run := db.checkpoints[run].(budget := used)] else db.checkpoints
  {
    hide ValidClaim;
  }

  lemma OtherKeepsCheckpoints(db: Db, op: Op)
    requires !op.OpSave? && !op.OpControl? && !op.OpBudget?
    ensures Apply(db, op).checkpoints == db.checkpoints
  {
    hide *;
    if op.OpMarkRunning? || op.OpAppend? || op.OpSuspend? || op.OpComplete? || op.OpFail? || op.OpRestart? {
      RunStepKeepsPlans(db, op);
    } else if op.OpClaim? || op.OpRenew? || op.OpRelease? || op.OpPublish? || op.OpRestore? {
      OwnedPlansStay(db, op);
    } else {
      SidePlansStay(db, op);
    }
  }

  lemma ControlSets(db: Db, op: Op, run: int)
    requires op.OpControl?
    ensures var given := op.action.Approve? && op.id == run && Control(db, run, op.user, op.action).outcome.Ok?;
      StoredOf(Apply(db, op), run) == if given && run in db.checkpoints
          then Some(db.checkpoints[run].(approvedHash := op.action.hash)) else StoredOf(db, run)
    ensures op.action.Approve? && Control(db, op.id, op.user, op.action).outcome.Ok? ==> op.id in db.checkpoints
  {
    ControlApproves(db, op.id, op.user, op.action);
    if op.action.Approve? && Control(db, op.id, op.user, op.action).outcome.Ok? { ApprovedThen(db, op); }
    hide Control;
  }

  lemma ApprovedThen(db: Db, op: Op)
    requires op.OpControl? && op.action.Approve? && Control(db, op.id, op.user, op.action).outcome.Ok?
    ensures op.id in db.checkpoints
    ensures Control(db, op.id, op.user, op.action).db.checkpoints
         == db.checkpoints[op.id := db.checkpoints[op.id].(approvedHash := op.action.hash)]
  {
    hide AddEvents, AddMessages, KeyHeldByOther;
    assert db.checkpoints[op.id := db.checkpoints[op.id]] == db.checkpoints;
  }

  // ---- one step -------------------------------------------------------------------------------------

  lemma Unfolds(front: seq<Step>, step: Step, asks: string -> bool)
    ensures Reached(front + [step], asks) == Next(Reached(front, asks), step, asks)
  {
    assert (front + [step])[..|front|] == front;
    hide Next;
  }

  lemma NamesUnfold(front: seq<Step>, step: Step, asks: string -> bool, run: int)
    ensures var s, steps := Reached(front, asks), front + [step];
      var saves := Commits(s, step) && s.executors[step.x].run == run;
      && LastSaved(steps, asks, run) == (if saves then Some(NamedBy(s, step)) else LastSaved(front, asks, run))
      && LastApproval(steps, asks, run)
         == (if saves then HeldApproval(front, asks, step.x)
             else if GivesApproval(s, step, run) then step.op.action.hash else LastApproval(front, asks, run))
      && LastBudget(steps, asks, run)
         == (if saves then step.saved.budget
             else if step.Transaction? && step.op.OpBudget? && step.op.id == run && Writable(s.db, run, step.op.claim)
             then step.op.used else LastBudget(front, asks, run))
  {
    assert (front + [step])[..|front|] == front;
    hide Reached, Commits, Control, Writable;
  }

  lemma HeldUnfolds(front: seq<Step>, step: Step, asks: string -> bool, x: int)
    ensures var s, steps := Reached(front, asks), front + [step];
      var loads := step.Load? && step.x == x;
      && LastHeld(steps, asks, x)
         == (if loads then LastSaved(front, asks, step.run)
             else if Commits(s, step) && step.x == x then Some(NamedBy(s, step)) else LastHeld(front, asks, x))
      && HeldApproval(steps, asks, x)
         == (if loads then LastApproval(front, asks, step.run) else HeldApproval(front, asks, x))
  {
    assert (front + [step])[..|front|] == front;
    hide Reached, Commits;
  }

  /** What a safe point's save writes. */
  lemma SafePointSaves(s: System, step: Step, asks: string -> bool, run: int)
    requires step.SafePoint? && step.x in s.executors
    ensures var e := s.executors[step.x];
      var cp := Checkpointed(e, step.next, step.saved);
      && Next(s, step, asks).db == SaveCheckpoint(s.db, e.run, e.claim, cp).db
      && StoredOf(Next(s, step, asks).db, run) == if Commits(s, step) && e.run == run then Some(cp)
           else StoredOf(s.db, run)
  {
    var e := s.executors[step.x];
    var cp := Checkpointed(e, step.next, step.saved);
    SaveSets(s.db, e.run, e.claim, cp);
    SaveCommits(s.db, e.run, e.claim, cp);
    hide SaveCheckpoint, Checkpointed, Gated, Writable;
  }

  lemma CheckpointedHolds(s: System, step: Step)
    requires Commits(s, step)
    ensures var e := s.executors[step.x];
      var cp := Checkpointed(e, step.next, step.saved);
      && Holds(Some(cp), Some(NamedBy(s, step)), if e.checkpoint.Some? then e.checkpoint.value.approvedHash else NoHash)
      && cp.budget == step.saved.budget
  {
    hide Writable, PlanHash;
  }

  lemma HoldsApproval(cp: Option<Checkpoint>, named: Option<Named>, approval: Hash)
    requires Holds(cp, named, approval)
    ensures approval == if cp.Some? then cp.value.approvedHash else NoHash
    ensures cp.Some? <==> named.Some?
  {
  }

  /** A given approval changes the approval alone, and accounting nothing else. */
  lemma HoldsStays(cp: Checkpoint, named: Option<Named>, approval: Hash, hash: Hash, used: Usage)
    requires Holds(Some(cp), named, approval)
    ensures Holds(Some(cp.(approvedHash := hash)), named, hash) && Holds(Some(cp.(budget := used)), named, approval)
  {
  }

  lemma ControlTells(front: seq<Step>, op: Op, asks: string -> bool, run: int)
    requires StoreTells(front, asks, run) && op.OpControl?
    ensures StoreTells(front + [Transaction(op)], asks, run)
  {
    hide Control, Holds, PlanHash;
    var s, step := Reached(front, asks), Transaction(op);
    Unfolds(front, step, asks);
    NamesUnfold(front, step, asks, run);
    ControlSets(s.db, op, run);
    if run in s.db.checkpoints && GivesApproval(s, step, run) {
      HoldsStays(s.db.checkpoints[run], LastSaved(front, asks, run), LastApproval(front, asks, run), op.action.hash,
          Usage(0, 0, 0));
    }
    hide Reached, LastSaved, LastApproval, LastBudget;
  }

  lemma TransactionTells(front: seq<Step>, op: Op, asks: string -> bool, run: int)
    requires StoreTells(front, asks, run) && !op.OpSave?
    ensures StoreTells(front + [Transaction(op)], asks, run)
  {
    if op.OpControl? {
      ControlTells(front, op, asks, run);
    } else {
      hide Apply, Holds, PlanHash, Writable;
      var s, step := Reached(front, asks), Transaction(op);
      Unfolds(front, step, asks);
      NamesUnfold(front, step, asks, run);
      if op.OpBudget? {
        BudgetSets(s.db, op.id, op.claim, op.used);
        assert Apply(s.db, op) == UpdateBudget(s.db, op.id, op.claim, op.used).db by { AppliedBudget(s.db, op); }
        hide UpdateBudget;
        if run in s.db.checkpoints {
          HoldsStays(s.db.checkpoints[run], LastSaved(front, asks, run), LastApproval(front, asks, run), NoHash,
              op.used);
        }
      } else {
        OtherKeepsCheckpoints(s.db, op);
      }
      hide Reached, LastSaved, LastApproval, LastBudget;
    }
  }

  lemma AppliedBudget(db: Db, op: Op)
    requires op.OpBudget?
    ensures Apply(db, op) == UpdateBudget(db, op.id, op.claim, op.used).db
  {
    hide UpdateBudget;
  }

  lemma SafePointTells(front: seq<Step>, step: Step, asks: string -> bool, run: int)
    requires StoreTells(front, asks, run) && step.SafePoint? && step.x in Reached(front, asks).executors
    requires CopyTells(front, asks, step.x)
    ensures StoreTells(front + [step], asks, run)
  {
    var s := Reached(front, asks);
    Unfolds(front, step, asks);
    NamesUnfold(front, step, asks, run);
    SafePointSaves(s, step, asks, run);
    hide Holds, PlanHash, Next, Writable, Checkpointed, Reached, LastSaved, LastApproval, LastBudget;
    if Commits(s, step) && s.executors[step.x].run == run {
      CheckpointedHolds(s, step);
      HoldsApproval(s.executors[step.x].checkpoint, LastHeld(front, asks, step.x), HeldApproval(front, asks, step.x));
    }
  }

  lemma StoreStep(front: seq<Step>, step: Step, asks: string -> bool, run: int)
    requires StoreTells(front, asks, run) && Allowed(Reached(front, asks), step)
    requires step.SafePoint? ==> CopyTells(front, asks, step.x)
    ensures StoreTells(front + [step], asks, run)
  {
    match step
    case Transaction(op) => TransactionTells(front, op, asks, run); hide *;
    case SafePoint(_, _, _, _, _) => SafePointTells(front, step, asks, run); hide *;
    case _ =>
      Unfolds(front, step, asks);
      NamesUnfold(front, step, asks, run);
      hide Reached, Holds, Gated, LastSaved, LastApproval, LastBudget, PlanHash;
  }

  /** An executor that did not load is one that was there, and its copy is the old one or the saved one. */
  lemma CopyMoves(s: System, step: Step, asks: string -> bool, x: int)
    requires Allowed(s, step) && x in Next(s, step, asks).executors
    ensures var e := Next(s, step, asks).executors[x];
      if step.Load? && step.x == x then e.checkpoint == StoredOf(s.db, step.run)
      else
        && x in s.executors
        && (if step.SafePoint? && step.x == x
            then Commits(s, step) && e.checkpoint == Some(Checkpointed(s.executors[x], step.next, step.saved))
            else e.checkpoint == s.executors[x].checkpoint)
  {
    if step.SafePoint? && step.x == x {
      var e := s.executors[x];
      SaveCommits(s.db, e.run, e.claim, Checkpointed(e, step.next, step.saved));
    }
    hide SaveCheckpoint, Checkpointed, Gated, Writable, Apply, Control;
  }

  lemma CopyStep(front: seq<Step>, step: Step, asks: string -> bool, x: int)
    requires CopyTells(front, asks, x) && Allowed(Reached(front, asks), step)
    requires step.Load? ==> StoreTells(front, asks, step.run)
    ensures CopyTells(front + [step], asks, x)
  {
    var s := Reached(front, asks);
    Unfolds(front, step, asks);
    HeldUnfolds(front, step, asks, x);
    if x in Next(s, step, asks).executors {
      CopyMoves(s, step, asks, x);
      if step.SafePoint? && step.x == x {
        CheckpointedHolds(s, step);
        assert CopyTells(front, asks, x);
        HoldsApproval(s.executors[x].checkpoint, LastHeld(front, asks, x), HeldApproval(front, asks, x));
      }
    }
    hide Reached, Holds, Next, LastHeld, HeldApproval, LastSaved, LastApproval, LastBudget, PlanHash, Checkpointed;
    hide Writable, Allowed;
  }

  lemma {:induction false} HistoryTells(steps: seq<Step>, asks: string -> bool, run: int, x: int)
    requires Legal(steps, asks)
    ensures StoreTells(steps, asks, run) && CopyTells(steps, asks, x)
    decreases |steps|
  {
    hide *;
    if steps == [] {
      NothingYet(asks, run, x);
    } else {
      var front, step := steps[..|steps| - 1], steps[|steps| - 1];
      assert steps == front + [step];
      LegalFront(steps, asks);
      HistoryTells(front, asks, run, x);
      if step.SafePoint? { HistoryTells(front, asks, run, step.x); }
      if step.Load? { HistoryTells(front, asks, step.run, x); }
      StoreStep(front, step, asks, run);
      CopyStep(front, step, asks, x);
    }
  }

  lemma NothingYet(asks: string -> bool, run: int, x: int)
    ensures StoreTells([], asks, run) && CopyTells([], asks, x)
  {
  }

  lemma LegalFront(steps: seq<Step>, asks: string -> bool)
    requires steps != [] && Legal(steps, asks)
    ensures var front := steps[..|steps| - 1];
      Legal(front, asks) && Allowed(Reached(front, asks), steps[|steps| - 1])
  {
    hide Allowed, Reached;
    var front := steps[..|steps| - 1];
    forall i | 0 <= i < |front| ensures Allowed(Reached(front[..i], asks), front[i]) {
      assert front[..i] == steps[..i];
    }
  }

  /** The stored checkpoint of a run, after any history: the next node, state, files, plan and base version are
      those of the last safe point of the run that was saved, the accounting is what was saved or written
      last, the approval what was given last or put back by a save. There is none before the first save. */
  lemma CheckpointIsTheLastSafePoint(steps: seq<Step>, asks: string -> bool, run: int)
    requires Legal(steps, asks)
    ensures var db, named := Reached(steps, asks).db, LastSaved(steps, asks, run);
      if named.None? then run !in db.checkpoints
      else
        && run in db.checkpoints
        && db.checkpoints[run] == Checkpoint(named.value.next, named.value.saved.state, named.value.saved.path,
             named.value.base, LastBudget(steps, asks, run), named.value.saved.plan,
             PlanHash(named.value.saved.plan, named.value.base), LastApproval(steps, asks, run))
  {
    HistoryTells(steps, asks, run, 0);
    hide Reached, LastSaved, LastBudget, LastApproval, PlanHash, Legal;
  }

  // ---- where runs go on -----------------------------------------------------------------------------

  /** The gate holds the run before code generation: it asks for approval, and the plan is not the approved one. */
  predicate Held(s: System, run: int, named: Named, approval: Hash, asks: string -> bool) {
    Gated(s.db, run, asks) && named.next == CodeGenerator && approval != PlanHash(named.saved.plan, named.base)
  }

  /** An executor that begins enters the node named by the safe point it carries on from, the router if there
      is none, unless the gate holds it. */
  lemma BeginsWhereItStopped(steps: seq<Step>, asks: string -> bool, x: int)
    requires Legal(steps, asks) && x in Reached(steps, asks).executors
    ensures var s, s' := Reached(steps, asks), Reached(steps + [Begin(x)], asks);
      var e, named := s.executors[x], LastHeld(steps, asks, x);
      if named.None? then s' == s.(entries := s.entries + [Entry(e.run, "router", None)])
      else if Held(s, e.run, named.value, HeldApproval(steps, asks, x), asks)
      then s' == s.(executors := s.executors - {x})
      else s' == s.(entries := s.entries + [Entry(e.run, named.value.next, e.checkpoint)])
  {
    HistoryTells(steps, asks, 0, x);
    Unfolds(steps, Begin(x), asks);
    hide Reached, LastHeld, HeldApproval, Gated, PlanHash, Legal;
  }

  /** After a safe point the executor goes on to the node it names if the save committed and answered, no
      stop was asked for and the gate does not hold it; otherwise it is gone. */
  lemma GoesOnAsNamed(steps: seq<Step>, asks: string -> bool, step: Step)
    requires Legal(steps, asks) && step.SafePoint? && step.x in Reached(steps, asks).executors
    ensures var s, s' := Reached(steps, asks), Reached(steps + [step], asks);
      var e := s.executors[step.x];
      var named := Named(step.next, step.saved, e.claim.baseVersion);
      var held := Held(s, e.run, named, HeldApproval(steps, asks, step.x), asks);
      if Commits(s, step) && step.reply && !step.pausing && !held
      then
        && step.x in s'.executors
        && s'.entries == s.entries + [Entry(e.run, step.next, s'.executors[step.x].checkpoint)]
      else step.x !in s'.executors && s'.entries == s.entries
  {
    var s := Reached(steps, asks);
    var e := s.executors[step.x];
    HistoryTells(steps, asks, 0, step.x);
    HoldsApproval(e.checkpoint, LastHeld(steps, asks, step.x), HeldApproval(steps, asks, step.x));
    Unfolds(steps, step, asks);
    SaveCommits(s.db, e.run, e.claim, Checkpointed(e, step.next, step.saved));
    hide Reached, LastHeld, HeldApproval, Gated, PlanHash, SaveCheckpoint, Writable, Legal, Holds;
  }
}
