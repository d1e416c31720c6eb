/** Execution ownership: a lost claim stays lost, its writes do nothing, and the publications of
    an app form one chain. */
module Fencing {
  import opened TaskTypes
  import opened TaskTransactions
  import opened TaskInvariants
  import opened TaskHistory
  import opened TaskTheorems

  /** What every transaction leaves of an ownership row: the epoch only grows, and within an epoch
      the owner is kept or erased while an expired lease stays expired. */
  ghost predicate RowAges(before: AppExecution, after: AppExecution, now: int, now': int) {
    && now' >= now
    && after.epoch >= before.epoch
    && (after.epoch == before.epoch ==> after.owner == before.owner || (after.owner == "" && after.leaseUntil <= now'))
    && (after.epoch == before.epoch && before.leaseUntil <= now ==> after.leaseUntil <= now')
  }

  ghost predicate AppsAge(db: Db, after: Db) {
    && after.now >= db.now
    && forall a :: a in db.apps ==> a in after.apps && RowAges(db.apps[a], after.apps[a], db.now, after.now)
  }

  lemma InterruptKeepsApps(db: Db, id: int)
    requires id in db.runs && Stale(db.runs[id].status)
    ensures InterruptRun(db, id).apps == db.apps && InterruptRun(db, id).now == db.now
  {
    hide AddEvents, AddMessages;
  }

  lemma {:induction false} InterruptRunsKeepsApps(db: Db, order: seq<int>)
    ensures InterruptRuns(db, order).apps == db.apps && InterruptRuns(db, order).now == db.now
    decreases |order|
  {
    hide InterruptRun;
    if order != [] {
      var mid, id := InterruptRuns(db, order[..|order| - 1]), order[|order| - 1];
      InterruptRunsKeepsApps(db, order[..|order| - 1]);
      if id in mid.runs && Stale(mid.runs[id].status) { InterruptKeepsApps(mid, id); }
    }
  }

  lemma PublishTxAges(db: Db, p: Publication, version: int, valid: bool)
    ensures AppsAge(db, PublishTx(db, p, version, valid).db) && PublishTx(db, p, version, valid).db.now == db.now
  {
  }

  lemma PublishAges(db: Db, p: Publication)
    ensures AppsAge(db, Publish(db, p).db)
  {
    PublishTxAges(db, p, db.nextId, true);
    hide RunHasVersion, PublishTx;
  }

  lemma ClaimAges(db: Db, app: int, owner: string, ttl: int)
    ensures AppsAge(db, ClaimApp(db, app, owner, ttl).db)
  {
  }

  lemma RenewAges(db: Db, c: Claim, ttl: int)
    ensures AppsAge(db, Renew(db, c, ttl).db)
  {
  }

  lemma ReleaseAges(db: Db, c: Claim)
    ensures AppsAge(db, Release(db, c).db)
  {
  }

  lemma CompleteAges(db: Db, id: int, c: Completion)
    ensures AppsAge(db, Complete(db, id, c).db)
  {
    hide RunHasVersion, CompletionEvents, VersionRow, AddEvents, AddMessages;
    if c.publication.Some? { PublishTxAges(db, c.publication.value, db.nextId, c.stillValid); }
  }

  predicate RunOp(op: Op) {
    op.OpCreate? || op.OpMarkRunning? || op.OpAppend? || op.OpFail? || op.OpSuspend? || op.OpControl? || op.OpSave?
  }

  lemma ControlKeepsApps(db: Db, id: int, user: int, action: Action)
    ensures Control(db, id, user, action).db.apps == db.apps && Control(db, id, user, action).db.now == db.now
  {
    hide AddEvents, AddMessages, KeyHeldByOther;
  }

  /** Run transactions never touch ownership. */
  lemma RunOpKeepsApps(db: Db, op: Op)
    requires RunOp(op)
    ensures Apply(db, op).apps == db.apps && Apply(db, op).now == db.now
  {
    hide AddEvents, AddMessages, HasActive, HasRequest, ValidClaim, Control;
    if op.OpControl? { ControlKeepsApps(db, op.id, op.user, op.action); }
  }

  lemma StepAges(db: Db, op: Op)
    ensures AppsAge(db, Apply(db, op))
  {
    hide ClaimApp, Renew, Release, Publish, Complete, MarkRunning, AppendEvent, Fail, Suspend, Control, SaveCheckpoint;
    if RunOp(op) {
      RunOpKeepsApps(db, op);
      hide Apply;
    } else {
      match op {
        case OpClaim(app, owner, ttl) => ClaimAges(db, app, owner, ttl);
        case OpRenew(c, ttl) => RenewAges(db, c, ttl);
        case OpRelease(c) => ReleaseAges(db, c);
        case OpPublish(p) => PublishAges(db, p);
        case OpRestore(p) => PublishAges(db, p);
        case OpComplete(id, c) => CompleteAges(db, id, c);
        case OpRestart(order) => InterruptRunsKeepsApps(db, order);
        case _ =>
      }
    }
  }

  /** A claim that lost its app: superseded, released or expired. */
  ghost predicate Lost(db: Db, c: Claim) {
    c.app in db.apps && c.epoch <= db.apps[c.app].epoch && !ValidClaim(db, c)
  }

  /** Once lost, a claim is never valid again, in any continuation. */
  lemma {:induction false} LostClaimStaysLost(db: Db, c: Claim, ops: seq<Op>)
    requires Lost(db, c)
    ensures Lost(After(db, ops), c)
    decreases |ops|
  {
    if ops != [] {
      var mid := After(db, ops[..|ops| - 1]);
      LostClaimStaysLost(db, c, ops[..|ops| - 1]);
      StepAges(mid, ops[|ops| - 1]);
      hide Apply;
    }
  }

  /** A granted claim is valid at once, carries the published version as its base, and its epoch
      is above every epoch the app ever had; every earlier claim of the app is lost. */
  lemma GrantSupersedes(db: Db, app: int, owner: string, ttl: int)
    requires ClaimApp(db, app, owner, ttl).outcome.Granted?
    ensures var after, c := ClaimApp(db, app, owner, ttl).db, ClaimApp(db, app, owner, ttl).outcome.claim;
      && ValidClaim(after, c) && c.app == app && c.owner == owner
      && c.baseVersion == after.apps[app].currentVersion && c.basePath == after.apps[app].currentPath
      && (app in db.apps ==> c.epoch > db.apps[app].epoch)
      && forall d: Claim :: d.app == app && d.epoch < c.epoch ==> Lost(after, d)
  {
  }

  /** Ownership is exclusive: while one owner's lease runs nobody else is granted the app. */
  lemma LeaseExcludes(db: Db, c: Claim, owner: string, ttl: int)
    requires ValidClaim(db, c) && c.owner != ""
    ensures !ClaimApp(db, c.app, owner, ttl).outcome.Granted? && ClaimApp(db, c.app, owner, ttl).db == db
  {
  }

  function CarriedClaim(op: Op): Option<Claim> {
    match op
    case OpSave(_, c, _) => Some(c)
    case OpBudget(_, c, _) => Some(c)
    case OpRenew(c, _) => Some(c)
    case OpRegister(c, _, _) => Some(c)
    case OpPublish(p) => Some(p.claim)
    case OpRestore(p) => Some(p.claim)
    case OpComplete(_, c) => if c.publication.Some? then Some(c.publication.value.claim) else None
    case _ => None
  }

  /** No checkpoint, budget, snapshot, renewal or publication write succeeds under an invalid claim. */
  lemma FencedWriteDoesNothing(db: Db, op: Op)
    requires CarriedClaim(op).Some? && !ValidClaim(db, CarriedClaim(op).value)
    ensures Apply(db, op) == db
  {
    hide ValidClaim, Advance, HasActive, RunHasVersion;
  }

  /** ... so once its claim is lost an execution writes nothing, in any continuation. */
  lemma LostExecutionIsSilent(db: Db, ops: seq<Op>, op: Op)
    requires CarriedClaim(op).Some? && Lost(db, CarriedClaim(op).value)
    ensures Apply(After(db, ops), op) == After(db, ops)
  {
    LostClaimStaysLost(db, CarriedClaim(op).value, ops);
    hide After, Apply, ValidClaim;
    FencedWriteDoesNothing(After(db, ops), op);
  }

  // ---- linear history ---------------------------------------------------------------------

  /** A committed publication and the version it got. */
  datatype Link = Link(version: int, publication: Publication) {
    function Base(): int { publication.claim.baseVersion }
    function Epoch(): int { publication.claim.epoch }
  }

  function Current(db: Db, app: int): int {
    if app in db.apps then db.apps[app].currentVersion else 0
  }

  function CurrentPath(db: Db, app: int): string {
    if app in db.apps then db.apps[app].currentPath else ""
  }

  /** The publication a transaction commits, if any. */
  function Committed(db: Db, op: Op): Option<Publication> {
    match op
    case OpPublish(p) => if Publish(db, p).outcome.Ok? then Some(p) else None
    case OpRestore(p) => if PublishRestoration(db, p).outcome.Ok? then Some(p) else None
    case OpComplete(id, c) => if Complete(db, id, c).outcome.Ok? then c.publication else None
    case _ => None
  }

  function NewLinks(db: Db, op: Op, app: int): seq<Link> {
    match Committed(db, op)
    case Some(p) => if p.claim.app == app then [Link(db.nextId, p)] else []
    case None => []
  }

  /** The publications of an app along a history. */
  function Links(db: Db, ops: seq<Op>, app: int): seq<Link> {
    if ops == [] then [] else
      Links(db, ops[..|ops| - 1], app) + NewLinks(After(db, ops[..|ops| - 1]), ops[|ops| - 1], app)
  }

  ghost predicate Chain(links: seq<Link>, start: int, end: int) {
    if links == [] then start == end
    else
      && links[|links| - 1].version == end
      && links[|links| - 1].Base() < end
      && Chain(links[..|links| - 1], start, links[|links| - 1].Base())
      && (|links| > 1 ==> links[|links| - 2].Epoch() <= links[|links| - 1].Epoch())
  }

  lemma PublishMoves(db: Db, p: Publication, app: int)
    ensures Publish(db, p).outcome.Ok? ==> p.claim.app in db.apps && p.claim.baseVersion == Current(db, p.claim.app)
    ensures Publish(db, p).outcome.Ok? ==> p.claim.epoch == db.apps[p.claim.app].epoch
    ensures Current(Publish(db, p).db, app) == if Publish(db, p).outcome.Ok? && app == p.claim.app then db.nextId
        else Current(db, app)
    ensures CurrentPath(Publish(db, p).db, app) == if Publish(db, p).outcome.Ok? && app == p.claim.app then p.path
        else CurrentPath(db, app)
  {
    hide RunHasVersion;
  }

  lemma CompleteMoves(db: Db, id: int, c: Completion, app: int)
    ensures Complete(db, id, c).outcome.Ok? && c.publication.Some? ==>
      var k := c.publication.value.claim;
      && k.app in db.apps && k.baseVersion == Current(db, k.app)
      && k.epoch == db.apps[k.app].epoch
    ensures Current(Complete(db, id, c).db, app) ==
      if Complete(db, id, c).outcome.Ok? && c.publication.Some? && app == c.publication.value.claim.app
      then db.nextId
      else Current(db, app)
    ensures CurrentPath(Complete(db, id, c).db, app) ==
      if Complete(db, id, c).outcome.Ok? && c.publication.Some? && app == c.publication.value.claim.app
      then c.publication.value.path
      else CurrentPath(db, app)
  {
    hide RunHasVersion, CompletionEvents, VersionRow, AddEvents, AddMessages;
  }

  lemma OwnershipKeepsPointer(db: Db, op: Op, app: int)
    requires op.OpClaim? || op.OpRenew? || op.OpRelease? || op.OpRegister? || op.OpBudget?
    ensures Current(Apply(db, op), app) == Current(db, app) && CurrentPath(Apply(db, op), app) == CurrentPath(db, app)
  {
    hide MarkRunning, AppendEvent, Fail, Suspend, Control, SaveCheckpoint, Complete, Publish, PublishRestoration;
  }

  lemma OtherStepKeepsPointer(db: Db, op: Op, app: int)
    requires !op.OpPublish? && !op.OpRestore? && !op.OpComplete?
    ensures Current(Apply(db, op), app) == Current(db, app) && CurrentPath(Apply(db, op), app) == CurrentPath(db, app)
  {
    if op.OpClaim? || op.OpRenew? || op.OpRelease? || op.OpRegister? || op.OpBudget? {
      OwnershipKeepsPointer(db, op, app);
      hide *;
    } else if RunOp(op) {
      RunOpKeepsApps(db, op);
      hide Apply;
    } else {
      if op.OpRestart? { InterruptRunsKeepsApps(db, op.order); }
      hide InterruptRuns;
    }
  }

  /** A committed publication moves the pointer from its claim's base to the new version and its path, under
      the claim's epoch; every other transaction leaves the pointer alone. */
  lemma PointerMoves(db: Db, op: Op, app: int)
    ensures var links, after := NewLinks(db, op, app), Apply(db, op);
      if links == [] then Current(after, app) == Current(db, app) && CurrentPath(after, app) == CurrentPath(db, app)
      else
        && app in db.apps && |links| == 1 && links[0].version == db.nextId
        && links[0].Base() == Current(db, app) && links[0].Epoch() == db.apps[app].epoch
        && Current(after, app) == db.nextId && CurrentPath(after, app) == links[0].publication.path
  {
    if op.OpPublish? || op.OpRestore? {
      hide Publish, HasActive;
      PublishMoves(db, op.publication, app);
    } else if op.OpComplete? {
      hide Complete;
      CompleteMoves(db, op.id, op.completion, app);
    } else {
      OtherStepKeepsPointer(db, op, app);
      hide Apply;
    }
  }

  /** Pointers name issued versions, so the next one is always newer. */
  ghost predicate PointersIssued(db: Db) {
    db.nextId >= 1 && forall a :: 0 <= Current(db, a) < db.nextId
  }

  /** The path of the last publication, none at first. */
  function LastPath(links: seq<Link>): string {
    if links == [] then "" else links[|links| - 1].publication.path
  }

  /** All publications of an app form one chain from the empty project to the current version: each
      one's base is the version the previous one published, versions and epochs never go back, and the
      files of the last one are the current ones. */
  lemma {:induction false} PublicationsFormOneChain(ops: seq<Op>, app: int)
    ensures var db, links := After(EmptyDb, ops), Links(EmptyDb, ops, app);
      && Inv(db) && PointersIssued(db)
      && Chain(links, 0, Current(db, app)) && CurrentPath(db, app) == LastPath(links)
      && (links != [] ==> app in db.apps && links[|links| - 1].Epoch() <= db.apps[app].epoch)
    decreases |ops|
  {
    if ops == [] {
      EmptyIsSound();
    } else {
      var front, op := ops[..|ops| - 1], ops[|ops| - 1];
      PublicationsFormOneChain(front, app);
      ChainStep(After(EmptyDb, front), Links(EmptyDb, front, app), op, app);
    }
  }

  lemma ChainAdds(links: seq<Link>, l: Link, start: int, end: int)
    requires Chain(links, start, end) && l.Base() == end < l.version
    requires links != [] ==> links[|links| - 1].Epoch() <= l.Epoch()
    ensures Chain(links + [l], start, l.version) && LastPath(links + [l]) == l.publication.path
  {
    assert (links + [l])[..|links|] == links;
  }

  lemma ChainStep(db: Db, links: seq<Link>, op: Op, app: int)
    requires Inv(db) && PointersIssued(db) && Chain(links, 0, Current(db, app))
    requires CurrentPath(db, app) == LastPath(links)
    requires links != [] ==> app in db.apps && links[|links| - 1].Epoch() <= db.apps[app].epoch
    ensures var after, more := Apply(db, op), links + NewLinks(db, op, app);
      && Inv(after) && PointersIssued(after) && Chain(more, 0, Current(after, app))
      && CurrentPath(after, app) == LastPath(more)
      && (more != [] ==> app in after.apps && more[|more| - 1].Epoch() <= after.apps[app].epoch)
  {
    StepSound(db, op);
    StepAges(db, op);
    PointersStayIssued(db, op);
    PointerMoves(db, op, app);
    hide Inv, Apply, Committed, Moves, Extends, Chain, CurrentPath, LastPath;
    var added := NewLinks(db, op, app);
    hide NewLinks;
    if added == [] {
      assert links + added == links;
    } else {
      ChainAdds(links, added[0], 0, Current(db, app));
      assert links + added == links + [added[0]];
    }
  }

  lemma PointerFresh(db: Db, op: Op, app: int)
    requires Inv(db)
    ensures NewLinks(db, op, app) != [] ==> Apply(db, op).nextId == db.nextId + 1
  {
    hide Inv, HasActive, RunHasVersion, CompletionEvents, VersionRow, AddEvents, AddMessages;
  }

  lemma PointersStayIssued(db: Db, op: Op)
    requires Inv(db) && PointersIssued(db)
    ensures PointersIssued(Apply(db, op))
  {
    StepSound(db, op);
    var after := Apply(db, op);
    forall a ensures 0 <= Current(after, a) < after.nextId {
      PointerMoves(db, op, a);
      PointerFresh(db, op, a);
    }
  }

  lemma {:induction false} PointerGrows(db: Db, ops: seq<Op>, app: int)
    requires Inv(db) && PointersIssued(db)
    ensures Inv(After(db, ops)) && PointersIssued(After(db, ops)) && Current(After(db, ops), app) >= Current(db, app)
    decreases |ops|
  {
    hide Inv, Apply;
    if ops != [] {
      var front, op := ops[..|ops| - 1], ops[|ops| - 1];
      PointerGrows(db, front, app);
      var mid := After(db, front);
      assert After(db, ops) == Apply(mid, op);
      hide After;
      StepSound(mid, op);
      PointersStayIssued(mid, op);
      PointerMoves(mid, op, app);
      hide NewLinks, Extends, Moves;
    }
  }

  /** A claim publishes at most once: after its publication the pointer has left its base for good. */
  lemma ClaimPublishesOnce(db: Db, op: Op, ops: seq<Op>, again: Op)
    requires Inv(db) && PointersIssued(db)
    requires Committed(db, op).Some? && CarriedClaim(again) == Some(Committed(db, op).value.claim)
    ensures Committed(After(Apply(db, op), ops), again).None?
  {
    var c := Committed(db, op).value.claim;
    PointerMoves(db, op, c.app);
    assert NewLinks(db, op, c.app) == [Link(db.nextId, Committed(db, op).value)];
    StepSound(db, op);
    PointersStayIssued(db, op);
    hide Inv, Apply;
    PointerGrows(Apply(db, op), ops, c.app);
    var later := After(Apply(db, op), ops);
    hide After, PointersIssued;
    PublicationNamesBase(later, again, c);
  }

  lemma PublicationNamesBase(db: Db, op: Op, c: Claim)
    requires CarriedClaim(op) == Some(c)
    ensures Committed(db, op).Some? ==> Current(db, c.app) == c.baseVersion
  {
    hide Apply, Publish, Complete, HasActive;
    PointerMoves(db, op, c.app);
    if Committed(db, op).Some? {
      assert NewLinks(db, op, c.app) == [Link(db.nextId, Committed(db, op).value)];
    }
  }

  /** Whoever is granted an app starts from the last publication of its chain: that version, with the files
      that were published as it; from the empty project if there was none. */
  lemma GrantStartsFromThePublished(ops: seq<Op>, app: int, owner: string, ttl: int)
    requires ClaimApp(After(EmptyDb, ops), app, owner, ttl).outcome.Granted?
    ensures var c, links := ClaimApp(After(EmptyDb, ops), app, owner, ttl).outcome.claim, Links(EmptyDb, ops, app);
      if links == [] then c.baseVersion == 0 && c.basePath == ""
      else
        var last := links[|links| - 1];
        c.baseVersion == last.version && c.basePath == last.publication.path
  {
    PublicationsFormOneChain(ops, app);
    hide After, Links, Inv;
  }
}
