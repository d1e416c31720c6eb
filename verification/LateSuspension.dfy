/** A history in which a user's approval is overwritten: an executor of a process that lost the runtime
    suspends its run after the next process has already started another executor for it. */
module LateSuspension {
  import opened TaskTypes
  import opened TaskTransactions
  import opened TaskInvariants
  import opened TaskHistory
  import opened Executors
  import Approval

  /** What matters of a system with one run: its status and checkpoint, its app's owner and who works.
      Epoch 0 says that the app was never claimed. */
  datatype View = View(status: Status, cp: Option<Checkpoint>, epoch: int, owner: string, workers: map<int, Worker>)

  ghost predicate Seen(s: System, req: StartRequest, v: View) {
    && s.db.runs.Keys == {1} && s.db.runs[1].request == req && s.db.runs[1].status == v.status
    && Stored(s.db, 1) == v.cp && s.workers == v.workers
    && (if req.app !in s.db.apps then v.epoch == 0 && v.owner == ""
        else
          var row := s.db.apps[req.app];
          && row.epoch == v.epoch && row.owner == v.owner && row.currentVersion == 0 && row.currentPath == ""
          && (v.owner != "" ==> row.leaseUntil > s.db.now))
  }

  /** A run row is moved, the view with it. */
  lemma AdvanceSeen(s: System, req: StartRequest, v: View, row: Run, evts: seq<EventType>, cps: map<int, Checkpoint>)
    requires Seen(s, req, v) && row.request == req && row.lastSequence == s.db.runs[1].lastSequence
    ensures var after := s.(db := Advance(s.db.(checkpoints := cps), 1, row, evts));
      Seen(after, req, v.(status := row.status, cp := if 1 in cps then Some(cps[1]) else None))
  {
    AdvanceFields(s.db.(checkpoints := cps), 1, row, evts);
    hide Advance, AddEvents, AddMessages;
  }

  lemma RelabelledSeen(s: System, req: StartRequest, v: View, workers: map<int, Worker>)
    requires Seen(s, req, v)
    ensures Seen(s.(workers := workers), req, v.(workers := workers))
  {
  }

  lemma CreatedSeen(req: StartRequest)
    requires req.app > 0
    ensures Allowed(Boot, Transaction(OpCreate(req)))
    ensures Next(Boot, Transaction(OpCreate(req))) == System(NewRun(EmptyDb, req), map[])
    ensures Seen(System(NewRun(EmptyDb, req), map[]), req, View(Pending, None, 0, "", map[]))
  {
    assert !HasRequest(EmptyDb, req.requestId) && !HasActive(EmptyDb, req.app);
  }

  lemma CreateSeen(req: StartRequest) returns (steps: seq<Step>)
    requires req.app > 0
    ensures Legal(steps) && Seen(Reached(steps), req, View(Pending, None, 0, "", map[]))
  {
    CreatedSeen(req);
    assert Reached([]) == Boot;
    hide Next, Seen, Reached;
    Longer([], Transaction(OpCreate(req)));
    steps := [] + [Transaction(OpCreate(req))];
  }

  lemma LaunchSeen(steps: seq<Step>, req: StartRequest, v: View, x: int) returns (more: seq<Step>, w: View)
    requires Legal(steps) && Seen(Reached(steps), req, v) && v.status.Pending? && x !in v.workers
    ensures Legal(more) && Seen(Reached(more), req, w)
    ensures w == v.(status := Running, workers := v.workers[x := Worker(1, None, Started)])
  {
    var s := Reached(steps);
    AdvanceSeen(s, req, v, s.db.runs[1].(status := Running), [RunStarted], s.db.checkpoints);
    w := v.(status := Running, workers := v.workers[x := Worker(1, None, Started)]);
    more := steps + [Launch(x, 1)];
    hide Advance, Reached, Legal;
    Longer(steps, Launch(x, 1));
  }

  lemma LoadSeen(steps: seq<Step>, req: StartRequest, v: View, x: int) returns (more: seq<Step>, w: View)
    requires Legal(steps) && Seen(Reached(steps), req, v) && x in v.workers && v.workers[x] == Worker(1, None, Started)
    ensures Legal(more) && Seen(Reached(more), req, w)
    ensures w == v.(workers := v.workers[x := Worker(1, v.cp, Loaded)])
  {
    w := v.(workers := v.workers[x := Worker(1, v.cp, Loaded)]);
    more := steps + [Load(x)];
    hide Reached, Legal;
    Longer(steps, Load(x));
  }

  lemma OwnIs(s: System, x: int, owner: string)
    requires x in s.workers && s.workers[x].run in s.db.runs
    ensures var claimed := ClaimApp(s.db, s.db.runs[s.workers[x].run].request.app, owner, 1);
      claimed.outcome.Granted? ==>
        Next(s, Own(x, owner, 1))
            == System(claimed.db, s.workers[x := s.workers[x].(phase := Owning(claimed.outcome.claim))])
  {
    hide ClaimApp;
  }

  lemma OwnedSeen(s: System, req: StartRequest, v: View, owner: string)
    requires Seen(s, req, v) && v.owner == "" && owner != "" && req.app > 0
    ensures ClaimApp(s.db, req.app, owner, 1).outcome == Granted(Claim(req.app, owner, v.epoch + 1, 0, ""))
    ensures Seen(s.(db := ClaimApp(s.db, req.app, owner, 1).db), req, v.(epoch := v.epoch + 1, owner := owner))
  {
  }

  lemma OwnSeen(steps: seq<Step>, req: StartRequest, v: View, x: int, owner: string) returns (more: seq<Step>, w: View)
    requires Legal(steps) && Seen(Reached(steps), req, v) && x in v.workers && v.workers[x].run == 1
    requires v.workers[x].phase.Loaded? && v.owner == "" && owner != "" && req.app > 0
    ensures Legal(more) && Seen(Reached(more), req, w)
    ensures var c := Claim(req.app, owner, v.epoch + 1, 0, "");
      w == v.(epoch := v.epoch + 1, owner := owner, workers := v.workers[x := v.workers[x].(phase := Owning(c))])
  {
    var s, c := Reached(steps), Claim(req.app, owner, v.epoch + 1, 0, "");
    w := v.(epoch := v.epoch + 1, owner := owner, workers := v.workers[x := v.workers[x].(phase := Owning(c))]);
    more := steps + [Own(x, owner, 1)];
    OwnedSeen(s, req, v, owner);
    OwnIs(s, x, owner);
    hide Reached, Legal, Next, Seen, ClaimApp;
    Longer(steps, Own(x, owner, 1));
    var claimed := s.(db := ClaimApp(s.db, req.app, owner, 1).db);
    RelabelledSeen(claimed, req, v.(epoch := v.epoch + 1, owner := owner), w.workers);
  }

  lemma SaveSeen(steps: seq<Step>, req: StartRequest, v: View, x: int, next: string, saved: Approval.Saved)
    returns (more: seq<Step>, w: View)
    requires Legal(steps) && Seen(Reached(steps), req, v) && x in v.workers && v.workers[x].run == 1
    requires v.status.Running? && v.owner != "" && v.epoch > 0
    requires v.workers[x].phase == Owning(Claim(req.app, v.owner, v.epoch, 0, ""))
    ensures more == steps + [SafePoint(x, next, saved)] && Legal(more) && Seen(Reached(more), req, w)
    ensures var cp := Approval.Checkpointed(Approval.Executor(1, v.workers[x].phase.claim, v.workers[x].checkpoint),
        next, saved);
      w == v.(cp := Some(cp), workers := v.workers[x := v.workers[x].(checkpoint := Some(cp))])
  {
    var s, c := Reached(steps), v.workers[x].phase.claim;
    var cp := Approval.Checkpointed(Approval.Executor(1, c, v.workers[x].checkpoint), next, saved);
    hide Approval.Checkpointed, Reached, Legal;
    AdvanceSeen(s, req, v, s.db.runs[1], [CheckpointSaved], s.db.checkpoints[1 := cp]);
    w := v.(cp := Some(cp), workers := v.workers[x := v.workers[x].(checkpoint := Some(cp))]);
    more := steps + [SafePoint(x, next, saved)];
    hide Advance;
    Longer(steps, SafePoint(x, next, saved));
  }

  lemma RestartSeen(steps: seq<Step>, req: StartRequest, v: View) returns (more: seq<Step>, w: View)
    requires Legal(steps) && Seen(Reached(steps), req, v) && v.status.Running? && v.cp.Some?
    ensures Legal(more) && Seen(Reached(more), req, w) && w == v.(status := Recoverable)
  {
    var s := Reached(steps);
    AdvanceSeen(s, req, v, s.db.runs[1].(status := Recoverable), [RunSuspended(Recoverable)], s.db.checkpoints);
    w := v.(status := Recoverable);
    more := steps + [Restart([1])];
    assert StaleOrder(s.db, [1]);
    assert [1][..0] == [] && InterruptRuns(s.db, []) == s.db;
    assert InterruptRuns(s.db, [1]) == InterruptRun(s.db, 1);
    hide Advance, Reached, Legal, InterruptRuns, InterruptRun;
    Longer(steps, Restart([1]));
  }

  lemma RequeueSeen(s: System, req: StartRequest, v: View, cp: Checkpoint)
    requires Seen(s, req, v) && cp.state != [] && cp.snapshotPath != ""
    ensures Requeue(s.db, 1, cp).outcome.Ok?
    ensures Seen(s.(db := Requeue(s.db, 1, cp).db), req, v.(status := Pending, cp := Some(cp)))
  {
    var base := RequeueBase(s.db, 1, cp);
    var row := s.db.runs[1].(status := Pending, activeKey := Some(req.app));
    AdvanceFields(base, 1, row, [RunControl(Pending)]);
    assert !KeyHeldByOther(s.db, 1, req.app);
    hide Advance, AddEvents, AddMessages;
  }

  lemma ResumeIsRequeue(db: Db)
    requires 1 in db.runs && db.runs[1].status.Recoverable? && 1 in db.checkpoints
    ensures Control(db, 1, db.runs[1].request.user, Resume) == Requeue(db, 1, db.checkpoints[1])
  {
    hide Requeue;
  }

  lemma ApproveIsRequeue(db: Db, hash: Hash)
    requires 1 in db.runs && db.runs[1].status.AwaitingApproval? && 1 in db.checkpoints
    requires !hash.NoHash? && hash == db.checkpoints[1].planHash
    ensures Control(db, 1, db.runs[1].request.user, Approve(hash))
         == Requeue(db, 1, db.checkpoints[1].(approvedHash := hash))
  {
    hide Requeue;
  }

  lemma CommandIs(s: System, user: int, action: Action)
    ensures Next(s, Transaction(OpControl(1, user, action))) == s.(db := Control(s.db, 1, user, action).db)
    ensures Allowed(s, Transaction(OpControl(1, user, action)))
  {
    hide Control;
  }

  lemma CommandSeen(steps: seq<Step>, req: StartRequest, v: View, action: Action, cp: Checkpoint)
    requires Legal(steps) && Seen(Reached(steps), req, v) && cp.state != [] && cp.snapshotPath != ""
    requires Control(Reached(steps).db, 1, req.user, action) == Requeue(Reached(steps).db, 1, cp)
    ensures Legal(steps + [Transaction(OpControl(1, req.user, action))])
    ensures Seen(Reached(steps + [Transaction(OpControl(1, req.user, action))]), req,
        v.(status := Pending, cp := Some(cp)))
  {
    hide Reached, Legal, Requeue, Control;
    RequeueSeen(Reached(steps), req, v, cp);
    assert Reached(steps).workers == v.workers;
    CommandIs(Reached(steps), req.user, action);
    hide Seen, Next;
    Longer(steps, Transaction(OpControl(1, req.user, action)));
  }

  lemma ResumeSeen(steps: seq<Step>, req: StartRequest, v: View) returns (more: seq<Step>, w: View)
    requires Legal(steps) && Seen(Reached(steps), req, v) && v.status.Recoverable?
    requires v.cp.Some? && v.cp.value.state != [] && v.cp.value.snapshotPath != ""
    ensures Legal(more) && Seen(Reached(more), req, w) && w == v.(status := Pending)
  {
    ResumeIsRequeue(Reached(steps).db);
    hide Reached, Legal, Requeue, Control;
    CommandSeen(steps, req, v, Resume, v.cp.value);
    w := v.(status := Pending, cp := Some(v.cp.value));
    more := steps + [Transaction(OpControl(1, req.user, Resume))];
  }

  lemma ApproveSeen(steps: seq<Step>, req: StartRequest, v: View) returns (more: seq<Step>, w: View)
    requires Legal(steps) && Seen(Reached(steps), req, v) && v.status.AwaitingApproval?
    requires v.cp.Some? && v.cp.value.state != [] && v.cp.value.snapshotPath != "" && !v.cp.value.planHash.NoHash?
    ensures Legal(more) && Seen(Reached(more), req, w)
    ensures w == v.(status := Pending, cp := Some(v.cp.value.(approvedHash := v.cp.value.planHash)))
  {
    var cp := v.cp.value.(approvedHash := v.cp.value.planHash);
    ApproveIsRequeue(Reached(steps).db, cp.planHash);
    hide Reached, Legal, Requeue, Control;
    CommandSeen(steps, req, v, Approve(cp.planHash), cp);
    w := v.(status := Pending, cp := Some(cp));
    more := steps + [Transaction(OpControl(1, req.user, Approve(cp.planHash)))];
  }

  lemma StopSeen(steps: seq<Step>, req: StartRequest, v: View, x: int) returns (more: seq<Step>, w: View)
    requires Legal(steps) && Seen(Reached(steps), req, v) && x in v.workers && v.workers[x].phase.Owning?
    ensures Legal(more) && Seen(Reached(more), req, w)
    ensures var phase := Stopping(Some(v.workers[x].phase.claim), AwaitingApproval);
      w == v.(workers := v.workers[x := v.workers[x].(phase := phase)])
  {
    var phase := Stopping(Some(v.workers[x].phase.claim), AwaitingApproval);
    w := v.(workers := v.workers[x := v.workers[x].(phase := phase)]);
    more := steps + [Stop(x, AwaitingApproval)];
    hide Reached, Legal;
    Longer(steps, Stop(x, AwaitingApproval));
  }

  lemma ReleaseIs(s: System, x: int)
    requires x in s.workers && s.workers[x].phase.Stopping? && s.workers[x].phase.held.Some?
    ensures var phase := s.workers[x].phase;
      Next(s, Step.Release(x)) == System(TaskTransactions.Release(s.db, phase.held.value).db,
                                         s.workers[x := s.workers[x].(phase := Released(phase.status))])
  {
    hide TaskTransactions.Release;
  }

  lemma ReleasedSeen(s: System, req: StartRequest, v: View, c: Claim)
    requires Seen(s, req, v) && v.owner != "" && v.epoch > 0 && c == Claim(req.app, v.owner, v.epoch, 0, "")
    ensures Seen(s.(db := TaskTransactions.Release(s.db, c).db), req, v.(owner := ""))
  {
  }

  lemma ReleaseSeen(steps: seq<Step>, req: StartRequest, v: View, x: int) returns (more: seq<Step>, w: View)
    requires Legal(steps) && Seen(Reached(steps), req, v) && x in v.workers && v.owner != "" && v.epoch > 0
    requires v.workers[x].phase == Stopping(Some(Claim(req.app, v.owner, v.epoch, 0, "")), AwaitingApproval)
    ensures Legal(more) && Seen(Reached(more), req, w)
    ensures w == v.(owner := "", workers := v.workers[x := v.workers[x].(phase := Released(AwaitingApproval))])
  {
    var s, c := Reached(steps), v.workers[x].phase.held.value;
    w := v.(owner := "", workers := v.workers[x := v.workers[x].(phase := Released(AwaitingApproval))]);
    more := steps + [Step.Release(x)];
    assert s.workers == v.workers;
    hide Reached, Legal, Next, TaskTransactions.Release;
    ReleaseIs(s, x);
    ReleasedSeen(s, req, v, c);
    hide Seen;
    Longer(steps, Step.Release(x));
    RelabelledSeen(s.(db := TaskTransactions.Release(s.db, c).db), req, v.(owner := ""), w.workers);
  }

  /** The executor reaches the gate and gives the app back; its suspension is still to come. */
  lemma LeaveSeen(steps: seq<Step>, req: StartRequest, v: View, x: int) returns (more: seq<Step>, w: View)
    requires Legal(steps) && Seen(Reached(steps), req, v) && x in v.workers
    requires v.owner != "" && v.epoch > 0 && v.workers[x].phase == Owning(Claim(req.app, v.owner, v.epoch, 0, ""))
    ensures Legal(more) && Seen(Reached(more), req, w)
    ensures w == v.(owner := "", workers := v.workers[x := v.workers[x].(phase := Released(AwaitingApproval))])
  {
    hide *;
    var stopped, u := StopSeen(steps, req, v, x);
    more, w := ReleaseSeen(stopped, req, u, x);
  }

  lemma SuspendSeen(steps: seq<Step>, req: StartRequest, v: View, x: int) returns (more: seq<Step>, w: View)
    requires Legal(steps) && Seen(Reached(steps), req, v) && x in v.workers && v.workers[x].run == 1
    requires v.status.Running? && v.workers[x].phase == Released(AwaitingApproval)
    ensures Legal(more) && Seen(Reached(more), req, w)
    ensures w == v.(status := AwaitingApproval, workers := v.workers - {x})
  {
    var s := Reached(steps);
    AdvanceSeen(s, req, v, s.db.runs[1].(status := AwaitingApproval), [RunSuspended(AwaitingApproval)],
        s.db.checkpoints);
    w := v.(status := AwaitingApproval, workers := v.workers - {x});
    more := steps + [Step.Suspend(x, true)];
    hide Advance, Reached, Legal;
    Longer(steps, Step.Suspend(x, true));
  }

  /** The first executor saves a checkpoint before it reaches the gate; then its process is taken for dead,
      the user resumes the run, and a second executor loads that checkpoint. */
  lemma TwoExecutors(req: StartRequest, saved: Approval.Saved) returns (steps: seq<Step>, v: View, early: Checkpoint)
    requires req.app > 0 && saved.state != [] && saved.path != ""
    ensures Legal(steps) && Seen(Reached(steps), req, v)
    ensures early == Approval.Checkpointed(Approval.Executor(1, Claim(req.app, "first", 1, 0, ""), None),
        "prompt_enhancer", saved)
    ensures var first := Worker(1, Some(early), Owning(Claim(req.app, "first", 1, 0, "")));
      v == View(Running, Some(early), 1, "first", map[1 := first, 2 := Worker(1, Some(early), Loaded)])
  {
    hide *;
    var c := Claim(req.app, "first", 1, 0, "");
    early := Approval.Checkpointed(Approval.Executor(1, c, None), "prompt_enhancer", saved);
    assert early.state != [] && early.snapshotPath != "" by { CheckpointedIs(c, None, "prompt_enhancer", saved); }
    steps := CreateSeen(req);
    steps, v := LaunchSeen(steps, req, View(Pending, None, 0, "", map[]), 1);
    steps, v := LoadSeen(steps, req, v, 1);
    steps, v := OwnSeen(steps, req, v, 1, "first");
    steps, v := SaveSeen(steps, req, v, 1, "prompt_enhancer", saved);
    steps, v := RestartSeen(steps, req, v);
    steps, v := ResumeSeen(steps, req, v);
    steps, v := LaunchSeen(steps, req, v, 2);
    steps, v := LoadSeen(steps, req, v, 2);
    assert v.workers == map[1 := Worker(1, Some(early), Owning(c)), 2 := Worker(1, Some(early), Loaded)];
  }

  lemma CheckpointedIs(c: Claim, copy: Option<Checkpoint>, next: string, saved: Approval.Saved)
    ensures var cp := Approval.Checkpointed(Approval.Executor(1, c, copy), next, saved);
      && cp.state == saved.state && cp.snapshotPath == saved.path
      && cp.planHash == PlanHash(saved.plan, c.baseVersion) && !cp.planHash.NoHash?
      && cp.approvedHash == Approved(copy)
  {
  }

  /** The first executor reaches the gate, gives the app back, and suspends the run only after the second
      has claimed the app. The user approves, and the run is started again. */
  lemma ApprovedMeanwhile(req: StartRequest, saved: Approval.Saved)
    returns (steps: seq<Step>, v: View, early: Checkpoint)
    requires req.app > 0 && saved.state != [] && saved.path != ""
    ensures Legal(steps) && Seen(Reached(steps), req, v) && early.approvedHash.NoHash?
    ensures v.status.Running? && Approved(v.cp) == PlanHash(saved.plan, 0) && v.epoch == 2 && v.owner == "second"
    ensures 2 in v.workers && v.workers[2] == Worker(1, Some(early), Owning(Claim(req.app, "second", 2, 0, "")))
  {
    hide *;
    steps, v, early := TwoExecutors(req, saved);
    var c := Claim(req.app, "first", 1, 0, "");
    CheckpointedIs(c, None, "prompt_enhancer", saved);
    CheckpointedIs(c, Some(early), "code_generator", saved);
    assert early.approvedHash.NoHash? by { NoneApproved(); }
    steps, v := SaveSeen(steps, req, v, 1, "code_generator", saved);
    steps, v := LeaveSeen(steps, req, v, 1);
    steps, v := OwnSeen(steps, req, v, 2, "second");
    steps, v := SuspendSeen(steps, req, v, 1);
    steps, v := ApproveSeen(steps, req, v);
    steps, v := LaunchSeen(steps, req, v, 3);
    assert Approved(v.cp) == v.cp.value.approvedHash by { SomeApproved(v.cp.value); }
  }

  lemma NoneApproved()
    ensures Approved(None) == NoHash
  {
  }

  lemma SomeApproved(cp: Checkpoint)
    ensures Approved(Some(cp)) == cp.approvedHash
  {
  }

  /** An approval can be lost: a history whose last step is a save of an executor with a valid claim, after
      which the approval a user gave for the run is gone. */
  lemma ApprovalCanBeOverwritten(req: StartRequest, saved: Approval.Saved) returns (steps: seq<Step>, last: Step)
    requires req.app > 0 && saved.state != [] && saved.path != ""
    ensures Legal(steps + [last]) && last.SafePoint?
    ensures Approved(Stored(Reached(steps).db, 1)) == PlanHash(saved.plan, 0)
    ensures Approved(Stored(Reached(steps + [last]).db, 1)) == NoHash
  {
    hide *;
    var v, early;
    steps, v, early := ApprovedMeanwhile(req, saved);
    assert Stored(Reached(steps).db, 1) == v.cp by { SeenStored(Reached(steps), req, v); }
    var more, w := SaveSeen(steps, req, v, 2, "code_generator", saved);
    last := SafePoint(2, "code_generator", saved);
    CheckpointedIs(v.workers[2].phase.claim, Some(early), "code_generator", saved);
    SomeApproved(early);
    SomeApproved(w.cp.value);
    SeenStored(Reached(more), req, w);
  }

  lemma SeenStored(s: System, req: StartRequest, v: View)
    requires Seen(s, req, v)
    ensures Stored(s.db, 1) == v.cp
  {
  }
}
