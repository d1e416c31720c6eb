/** When exactly a user's approval can be overwritten by an executor's outdated copy of the checkpoint. */
module Overwriting {
  import opened TaskTypes
  import opened TaskTransactions
  import opened TaskInvariants
  import opened TaskHistory
  import opened Executors
  import Causes
  import Approval
  import Fencing

  // ---- runs belong to apps ------------------------------------------------------------------------

  ghost predicate RunsHaveApps(db: Db) {
    forall r :: r in db.runs ==> db.runs[r].request.app > 0
  }

  lemma RunsKeepApps(s: System, step: Step)
    requires Inv(s.db) && RunsHaveApps(s.db) && Allowed(s, step)
    ensures RunsHaveApps(Next(s, step).db)
  {
    StepAges(s, step);
    StepIsOp(s, step);
    assert StepOp(s, step).Some? && StepOp(s, step).value.OpCreate? ==> StepOp(s, step).value.request.app > 0;
    hide Next, Inv, Apply, StepOp, Allowed;
    forall r | r in Next(s, step).db.runs ensures Next(s, step).db.runs[r].request.app > 0 {
      if r !in s.db.runs { Causes.RunsStay(s.db, StepOp(s, step).value, r); }
    }
  }

  lemma {:induction false} ReachedHaveApps(steps: seq<Step>)
    requires Legal(steps)
    ensures RunsHaveApps(Reached(steps).db)
    decreases |steps|
  {
    hide *;
    if steps == [] {
      NoRuns();
    } else {
      var front := steps[..|steps| - 1];
      LegalFront(steps, |steps| - 1);
      ReachedHaveApps(front);
      ReachedInv(front);
      ReachedStep(steps);
      RunsKeepApps(Reached(front), steps[|steps| - 1]);
    }
  }

  lemma NoRuns()
    ensures RunsHaveApps(Reached([]).db)
  {
  }

  lemma ReachedInv(steps: seq<Step>)
    requires Legal(steps)
    ensures Inv(Reached(steps).db)
  {
    ReachedGranted(steps);
    hide Inv, Reached;
  }

  // ---- no overwriting where the approval is clear -----------------------------------------------------

  /** The continuation is legal, its approvals are clear, and its last step is a save that changes the
      approval stored for the run. */
  ghost predicate Overwrites(steps: seq<Step>, more: seq<Step>, run: int) {
    var all, n := steps + more, |steps + more| - 1;
    && more != [] && Legal(all) && ClearFrom(all, |steps|)
    && all[n].SafePoint? && Approved(Stored(Reached(all).db, run)) != Approved(Stored(Reached(all[..n]).db, run))
  }

  lemma OverwritesIs(steps: seq<Step>, more: seq<Step>, run: int)
    requires Overwrites(steps, more, run)
    ensures var all, n := steps + more, |steps + more| - 1;
      && n >= |steps| && all[..|steps|] == steps && Legal(all) && ClearFrom(all, |steps|) && all[n].SafePoint?
      && !SameApprovals(Reached(all[..n]).db, Reached(all[..n + 1]).db)
  {
    hide Reached, Legal, ClearFrom, Stored, Approved;
    var all := steps + more;
    assert all[..|all| - 1 + 1] == all;
  }

  lemma CurrentIsNotOverwritten(steps: seq<Step>, more: seq<Step>, run: int)
    requires Current(Reached(steps))
    ensures !Overwrites(steps, more, run)
  {
    hide *;
    if Overwrites(steps, more, run) {
      OverwritesIs(steps, more, run);
      SavesKeepApprovals(steps + more, |steps|, |steps + more| - 1);
    }
  }

  // ---- overwriting where it is not --------------------------------------------------------------------

  /** What approving leaves: the run waits for an executor, with the new approval, and nothing else moved. */
  lemma ApprovedState(s: System, op: Op, run: int)
    requires Approves(s, Transaction(op), run)
    ensures var s' := Next(s, Transaction(op));
      && run in s.db.runs && run in s'.db.runs && s'.db.runs[run].status.Pending?
      && s'.db.runs[run].request == s.db.runs[run].request
      && Approved(Stored(s'.db, run)) == op.action.hash
      && s'.db.apps == s.db.apps && s'.db.now == s.db.now && s'.workers == s.workers
  {
    ControlChangesApproval(s, op, run);
    Fencing.ControlKeepsApps(s.db, run, op.user, op.action);
    ApprovedRow(s.db, run, op.user, op.action);
    hide Control, Stored, Approved;
  }

  lemma ApprovedRow(db: Db, id: int, user: int, action: Action)
    requires action.Approve? && Control(db, id, user, action).outcome.Ok?
    requires Approved(Stored(db, id)) != action.hash
    ensures var after := Control(db, id, user, action).db;
      && id in db.runs && id in after.runs && after.runs[id].status.Pending?
      && after.runs[id].request == db.runs[id].request
  {
    hide AddEvents, AddMessages, KeyHeldByOther;
  }

  /** The run with its checkpoint and one of its executors, as overwriting needs them. */
  ghost predicate Watched(s: System, run: int, y: int, stored: Hash, copy: Hash) {
    && run in s.db.runs && s.db.runs[run].request.app > 0 && Approved(Stored(s.db, run)) == stored
    && y in s.workers && s.workers[y].run == run && Approved(s.workers[y].checkpoint) == copy
  }

  /** The executor owns the app of its run. */
  predicate Owns(s: System, run: int, y: int)
    requires run in s.db.runs && y in s.workers
  {
    var phase := s.workers[y].phase;
    phase.Owning? && ValidClaim(s.db, phase.claim) && phase.claim.app == s.db.runs[run].request.app
  }

  /** Launching another executor makes the run running, and no difference to the first. */
  lemma LaunchWatched(s: System, run: int, y: int, stored: Hash, copy: Hash, x: int)
    requires Watched(s, run, y, stored, copy) && s.db.runs[run].status.Pending? && x !in s.workers
    ensures Allowed(s, Launch(x, run))
    ensures var s' := Next(s, Launch(x, run));
      && Watched(s', run, y, stored, copy) && s'.db.runs[run].status.Running?
      && s'.workers[y] == s.workers[y] && (Owns(s, run, y) ==> Owns(s', run, y))
  {
    AdvanceFields(s.db, run, s.db.runs[run].(status := Running), [RunStarted]);
    hide Advance, AddEvents, AddMessages;
  }

  /** Waiting changes nothing but the clock. */
  lemma TickWatched(s: System, run: int, y: int, stored: Hash, copy: Hash, elapsed: nat)
    requires Watched(s, run, y, stored, copy)
    ensures Allowed(s, Transaction(OpTick(elapsed)))
    ensures var s' := Next(s, Transaction(OpTick(elapsed)));
      && Watched(s', run, y, stored, copy) && s'.db == s.db.(now := s.db.now + elapsed) && s'.workers == s.workers
  {
  }

  predicate Leased(db: Db, app: int) {
    app in db.apps && db.apps[app].owner != "" && db.apps[app].leaseUntil > db.now
  }

  lemma FreeAppIsGranted(db: Db, app: int, owner: string)
    requires app > 0 && owner != "" && !Leased(db, app)
    ensures var claimed := ClaimApp(db, app, owner, 1);
      && claimed.outcome.Granted? && claimed.outcome.claim.app == app && ValidClaim(claimed.db, claimed.outcome.claim)
      && claimed.db.runs == db.runs && claimed.db.checkpoints == db.checkpoints
  {
  }

  /** An executor that loaded before the approval can still claim the app once no lease runs. */
  lemma OwnWatched(s: System, run: int, y: int, stored: Hash, copy: Hash, owner: string)
    requires Watched(s, run, y, stored, copy) && s.workers[y].phase.Loaded? && owner != ""
    requires !Leased(s.db, s.db.runs[run].request.app)
    ensures Allowed(s, Own(y, owner, 1))
    ensures var s' := Next(s, Own(y, owner, 1));
      Watched(s', run, y, stored, copy) && s'.db.runs == s.db.runs && Owns(s', run, y)
  {
    FreeAppIsGranted(s.db, s.db.runs[run].request.app, owner);
    hide ClaimApp, ValidClaim;
  }

  /** The save of an executor that owns the app puts its copy of the approval into the stored checkpoint. */
  lemma SaveWatched(s: System, run: int, y: int, stored: Hash, copy: Hash, next: string, saved: Approval.Saved)
    requires Watched(s, run, y, stored, copy) && s.db.runs[run].status.Running? && Owns(s, run, y)
    ensures Allowed(s, SafePoint(y, next, saved))
    ensures Approved(Stored(Next(s, SafePoint(y, next, saved)).db, run)) == copy
  {
    var w := s.workers[y];
    var cp := Approval.Checkpointed(Approval.Executor(w.run, w.phase.claim, w.checkpoint), next, saved);
    SafePointIs(s, y, next, saved);
    SavedApproval(s.db, w.run, w.phase.claim, cp, run);
    assert SaveCheckpoint(s.db, w.run, w.phase.claim, cp).outcome.Ok? by { hide Advance, Approval.Checkpointed; }
    hide Next, SaveCheckpoint, Approval.Checkpointed, Stored, ValidClaim;
  }

  /** A continuation, all of whose approvals are clear. */
  ghost predicate Continues(steps: seq<Step>, more: seq<Step>) {
    Legal(steps + more) && ClearFrom(steps + more, |steps|)
  }

  lemma ThenQuiet(steps: seq<Step>, more: seq<Step>, step: Step)
    requires Continues(steps, more) && Allowed(Reached(steps + more), step)
    requires !(step.Transaction? && step.op.OpControl?)
    ensures Continues(steps, more + [step]) && Reached(steps + (more + [step])) == Next(Reached(steps + more), step)
  {
    var before := steps + more;
    assert steps + (more + [step]) == before + [step];
    Longer(before, step);
    assert (before + [step])[..|before|] == before;
    assert Clear(Reached(before), step);
    hide Reached, Legal, Allowed, Clear, Next;
    OneMoreState(before + [step], |steps|);
  }

  lemma EndsInOverwriting(steps: seq<Step>, more: seq<Step>, save: Step, run: int)
    requires Continues(steps, more + [save]) && save.SafePoint?
    requires var before, after := Reached(steps + more), Reached(steps + (more + [save]));
      Approved(Stored(after.db, run)) != Approved(Stored(before.db, run))
    ensures Overwrites(steps, more + [save], run)
  {
    hide Legal, ClearFrom, Reached, Stored, Approved;
    var all := steps + (more + [save]);
    assert all[..|all| - 1] == steps + more && all[|all| - 1] == save;
  }

  lemma WatchedStored(s: System, run: int, y: int, stored: Hash, copy: Hash)
    requires Watched(s, run, y, stored, copy)
    ensures Approved(Stored(s.db, run)) == stored
  {
  }

  /** The executor that owns the app of the running run overwrites its approval with the next save. */
  lemma OwnerOverwrites(steps: seq<Step>, more: seq<Step>, run: int, y: int, stored: Hash, copy: Hash,
        saved: Approval.Saved)
    requires Continues(steps, more) && stored != copy
    requires var s := Reached(steps + more);
      Watched(s, run, y, stored, copy) && s.db.runs[run].status.Running? && Owns(s, run, y)
    ensures Overwrites(steps, more + [SafePoint(y, "code_generator", saved)], run)
  {
    hide *;
    var s, save := Reached(steps + more), SafePoint(y, "code_generator", saved);
    SaveWatched(s, run, y, stored, copy, "code_generator", saved);
    WatchedStored(s, run, y, stored, copy);
    ThenQuiet(steps, more, save);
    EndsInOverwriting(steps, more, save, run);
  }

  lemma Waiting(db: Db, app: int) returns (elapsed: nat)
    ensures !Leased(db.(now := db.now + elapsed), app)
  {
    elapsed := if Leased(db, app) then db.apps[app].leaseUntil - db.now else 0;
  }

  /** One that has yet to claim the app waits for the running lease to end, and then owns it. */
  lemma LoadedOverwrites(steps: seq<Step>, more: seq<Step>, run: int, y: int, stored: Hash, copy: Hash,
        saved: Approval.Saved) returns (longer: seq<Step>)
    requires Continues(steps, more) && stored != copy
    requires var s := Reached(steps + more);
      Watched(s, run, y, stored, copy) && s.db.runs[run].status.Running? && s.workers[y].phase.Loaded?
    ensures Overwrites(steps, longer, run)
  {
    hide *;
    var s := Reached(steps + more);
    assert run in s.db.runs && y in s.workers by { WatchedExist(s, run, y, stored, copy); }
    var elapsed := Waiting(s.db, s.db.runs[run].request.app);
    var tick, own := Transaction(OpTick(elapsed)), Own(y, "owner", 1);
    TickWatched(s, run, y, stored, copy, elapsed);
    ThenQuiet(steps, more, tick);
    OwnWatched(Next(s, tick), run, y, stored, copy, "owner");
    ThenQuiet(steps, more + [tick], own);
    OwnerOverwrites(steps, more + [tick] + [own], run, y, stored, copy, saved);
    longer := more + [tick] + [own] + [SafePoint(y, "code_generator", saved)];
  }

  lemma WatchedExist(s: System, run: int, y: int, stored: Hash, copy: Hash)
    requires Watched(s, run, y, stored, copy)
    ensures run in s.db.runs && y in s.workers
  {
  }

  lemma NothingMore(steps: seq<Step>)
    requires Legal(steps)
    ensures Continues(steps, []) && steps + [] == steps
  {
    assert steps + [] == steps;
    hide Legal, Reached, Clear;
  }

  const AnyPlan := Plan("", "", "", [], [], [])
  const AnySave := Approval.Saved([], "", Usage(0, 0, 0), AnyPlan)

  /** From the approved state the run is launched again, and an able executor of before overwrites it. */
  lemma WatchedIsOverwritten(steps: seq<Step>, run: int, y: int, stored: Hash, copy: Hash) returns (more: seq<Step>)
    requires Legal(steps) && stored != copy
    requires var s := Reached(steps);
      && Watched(s, run, y, stored, copy) && s.db.runs[run].status.Pending?
      && (s.workers[y].phase.Loaded? || Owns(s, run, y))
    ensures Overwrites(steps, more, run)
  {
    hide *;
    var s := Reached(steps);
    WatchedExist(s, run, y, stored, copy);
    var x := Unused(s.workers.Keys);
    var launch := Launch(x, run);
    NothingMore(steps);
    LaunchWatched(s, run, y, stored, copy, x);
    ThenQuiet(steps, [], launch);
    if Owns(s, run, y) {
      OwnerOverwrites(steps, [] + [launch], run, y, stored, copy, AnySave);
      more := [] + [launch] + [SafePoint(y, "code_generator", AnySave)];
    } else {
      more := LoadedOverwrites(steps, [] + [launch], run, y, stored, copy, AnySave);
    }
  }

  /** An executor of the run may still save its copy of the checkpoint. */
  ghost predicate InUse(s: System, run: int) {
    exists y :: y in s.workers && s.workers[y].run == run && Able(s.db, s.workers[y])
  }

  lemma NotInUseIsClear(s: System, step: Step, run: int)
    requires Approves(s, step, run) && !InUse(s, run)
    ensures Clear(s, step)
  {
    hide Control, Able;
  }

  lemma InUseIsWatched(s: System, op: Op, run: int, y: int) returns (copy: Hash)
    requires ClaimsGranted(s) && RunsHaveApps(s.db) && Current(s) && Approves(s, Transaction(op), run)
    requires y in s.workers && s.workers[y].run == run && Able(s.db, s.workers[y])
    ensures var s' := Next(s, Transaction(op));
      && Watched(s', run, y, op.action.hash, copy) && copy != op.action.hash && s'.db.runs[run].status.Pending?
      && (s'.workers[y].phase.Loaded? || Owns(s', run, y))
  {
    copy := Approved(s.workers[y].checkpoint);
    ApprovedState(s, op, run);
    hide Next, Control, Inv, Stored;
  }

  /** The exact condition for losing an approval. From any reachable state whose copies are current, an
      approval that changes the stored one can be followed by a save that changes it, though no later
      approval finds its run in use, if and only if it finds one itself: an executor of its run that has
      loaded the checkpoint and not yet claimed the app, or whose claim is valid. */
  lemma OverwrittenExactlyWhenInUse(steps: seq<Step>, approval: Step, run: int)
    requires Legal(steps + [approval]) && Current(Reached(steps)) && Approves(Reached(steps), approval, run)
    ensures (exists more :: Overwrites(steps + [approval], more, run)) <==> InUse(Reached(steps), run)
  {
    hide *;
    var s, after := Reached(steps), steps + [approval];
    assert after[..|after| - 1] == steps && after[|after| - 1] == approval;
    LegalFront(after, |steps|);
    ReachedStep(after);
    ReachedGranted(steps);
    if InUse(s, run) {
      var y := SomeUser(s, run);
      ReachedHaveApps(steps);
      OnlyCommandsApprove(s, approval, run);
      var copy := InUseIsWatched(s, approval.op, run, y);
      var more := WatchedIsOverwritten(after, run, y, approval.op.action.hash, copy);
    } else {
      NotInUseIsClear(s, approval, run);
      StepKeeps(s, approval);
      forall more ensures !Overwrites(after, more, run) { CurrentIsNotOverwritten(after, more, run); }
    }
  }

  lemma SomeUser(s: System, run: int) returns (y: int)
    requires InUse(s, run)
    ensures y in s.workers && s.workers[y].run == run && Able(s.db, s.workers[y])
  {
    y :| y in s.workers && s.workers[y].run == run && Able(s.db, s.workers[y]);
  }

  lemma OnlyCommandsApprove(s: System, step: Step, run: int)
    requires Approves(s, step, run)
    ensures step.Transaction? && step.op.OpControl? && step.op.action.Approve?
  {
    hide Control;
  }
}
