/** What is kept of a publication: its version's row names its app, files, content and origin for good. */
module Publications {
  import opened TaskTypes
  import opened TaskTransactions
  import opened TaskInvariants
  import opened TaskHistory
  import opened Fencing
  import Causes

  /** The operation registers a snapshot for the version: it is the current one of an app owned by the claim, and
      has no content hash yet. */
  predicate Registers(db: Db, op: Op, v: int) {
    && op.OpRegister? && v in db.versions && op.claim.baseVersion == v && op.claim.app == db.versions[v].app
    && ValidClaim(db, op.claim) && db.apps[op.claim.app].currentVersion == v && db.versions[v].contentHash == ""
  }

  /** The row of the version a publication got. Only its files and content may have been registered later, if the
      publication named no content. */
  ghost predicate RowTells(ops: seq<Op>, l: Link) {
    var db, p := After(EmptyDb, ops), l.publication;
    && l.version in db.versions
    && var row := db.versions[l.version];
       && row.app == p.claim.app && row.restoredFrom == p.restoredFrom
       && ((row.path == p.path && row.contentHash == p.contentHash)
           || (p.contentHash == "" && exists i :: RegisteredAt(ops, i, l.version, row.path, row.contentHash)))
  }

  ghost predicate RegisteredAt(ops: seq<Op>, i: nat, v: int, path: string, hash: string) {
    && i < |ops| && Registers(After(EmptyDb, ops[..i]), ops[i], v)
    && ops[i].path == path && ops[i].hash == hash
  }

  // ---- one transaction --------------------------------------------------------------------------------

  lemma RunOpKeepsVersions(db: Db, op: Op)
    requires op.OpMarkRunning? || op.OpAppend? || op.OpFail? || op.OpSuspend? || op.OpSave? || op.OpCreate?
    ensures Apply(db, op).versions == db.versions
  {
    hide AddEvents, AddMessages, ValidClaim, HasRequest, HasActive;
  }

  lemma ControlKeepsVersions(db: Db, id: int, user: int, action: Action)
    ensures Control(db, id, user, action).db.versions == db.versions
  {
    hide AddEvents, AddMessages, KeyHeldByOther;
  }

  lemma InterruptKeepsVersions(db: Db, id: int)
    requires id in db.runs && Stale(db.runs[id].status)
    ensures InterruptRun(db, id).versions == db.versions
  {
    hide AddEvents, AddMessages;
  }

  lemma {:induction false} RestartKeepsVersions(db: Db, order: seq<int>)
    ensures InterruptRuns(db, order).versions == db.versions
    decreases |order|
  {
    hide InterruptRun;
    if order != [] {
      var mid, id := InterruptRuns(db, order[..|order| - 1]), order[|order| - 1];
      RestartKeepsVersions(db, order[..|order| - 1]);
      if id in mid.runs && Stale(mid.runs[id].status) { InterruptKeepsVersions(mid, id); }
    }
  }

  lemma SideKeepsVersions(db: Db, op: Op)
    requires op.OpBudget? || op.OpReclaimOutbox? || op.OpClaimOutbox? || op.OpDelivered? || op.OpRetry? || op.OpClaim?
      || op.OpRenew? || op.OpRelease? || op.OpTick?
    ensures Apply(db, op).versions == db.versions
  {
    hide ValidClaim, RetryDelay, Due;
  }

  lemma OtherKeepsVersions(db: Db, op: Op)
    requires !op.OpPublish? && !op.OpRestore? && !op.OpComplete? && !op.OpRegister?
    ensures Apply(db, op).versions == db.versions
  {
    hide *;
    Causes.Applied(db, op);
    match op
    case OpControl(id, user, action) => ControlKeepsVersions(db, id, user, action);
    case OpRestart(order) => RestartKeepsVersions(db, order); RestartedVersions(db, order);
    case OpMarkRunning(_) => RunOpKeepsVersions(db, op);
    case OpAppend(_, _) => RunOpKeepsVersions(db, op);
    case OpFail(_, _) => RunOpKeepsVersions(db, op);
    case OpSuspend(_, _) => RunOpKeepsVersions(db, op);
    case OpSave(_, _, _) => RunOpKeepsVersions(db, op);
    case OpCreate(_) => RunOpKeepsVersions(db, op);
    case _ => SideKeepsVersions(db, op);
  }

  lemma RestartedVersions(db: Db, order: seq<int>)
    ensures InterruptStale(db, order).versions == InterruptRuns(db, order).versions
  {
    hide InterruptRuns;
  }

  lemma PublishTxKeepsVersions(db: Db, p: Publication, version: int, valid: bool)
    ensures PublishTx(db, p, version, valid).db.versions == db.versions
  {
  }

  /** Rows stay, and the next identifier names the committed publication. */
  ghost predicate AddsVersion(db: Db, after: Db, p: Option<Publication>) {
    && (forall v :: v in db.versions && v != db.nextId ==> v in after.versions && after.versions[v] == db.versions[v])
    && (p.Some? ==>
          && db.nextId in after.versions
          && var row := after.versions[db.nextId];
             && row.app == p.value.claim.app && row.path == p.value.path && row.contentHash == p.value.contentHash
             && row.restoredFrom == p.value.restoredFrom)
  }

  lemma CompletionAddsVersion(db: Db, op: Op)
    requires op.OpComplete?
    ensures AddsVersion(db, Apply(db, op), Committed(db, op))
  {
    if op.completion.publication.Some? {
      PublishTxKeepsVersions(db, op.completion.publication.value, db.nextId, op.completion.stillValid);
    }
    hide RunHasVersion, CompletionEvents, AddEvents, AddMessages, PublishTx;
  }

  /** A committed publication adds the row of its version; a completion without one adds a row for its run. */
  lemma PublicationAddsVersion(db: Db, op: Op)
    requires op.OpPublish? || op.OpRestore? || op.OpComplete?
    ensures AddsVersion(db, Apply(db, op), Committed(db, op))
  {
    if op.OpComplete? {
      CompletionAddsVersion(db, op);
      hide Apply, Committed, AddsVersion;
    } else {
      PublishTxKeepsVersions(db, op.publication, db.nextId, true);
      hide RunHasVersion, HasActive, PublishTx, Complete;
    }
  }

  /** A version's row is for good, except that a snapshot may be registered for it. */
  lemma VersionStays(db: Db, op: Op, v: int)
    requires v in db.versions && db.nextId !in db.versions
    ensures v in Apply(db, op).versions
    ensures Apply(db, op).versions[v] == if Registers(db, op, v)
        then db.versions[v].(path := op.path, contentHash := op.hash) else db.versions[v]
  {
    if op.OpPublish? || op.OpRestore? || op.OpComplete? {
      PublicationAddsVersion(db, op);
      hide Apply, Committed;
    } else if op.OpRegister? {
      hide ValidClaim;
    } else {
      OtherKeepsVersions(db, op);
      hide Apply;
    }
  }

  // ---- whole histories --------------------------------------------------------------------------------

  lemma FreshVersion(ops: seq<Op>)
    ensures Inv(After(EmptyDb, ops)) && After(EmptyDb, ops).nextId !in After(EmptyDb, ops).versions
  {
    EmptyIsSound();
    HistorySound(EmptyDb, ops);
    hide After, LogsNumbered, LogsFit, VersionsOwned, UniqueKeys, Extends;
  }

  lemma Grows(ops: seq<Op>, i: nat, v: int, path: string, hash: string)
    requires ops != [] && RegisteredAt(ops[..|ops| - 1], i, v, path, hash)
    ensures RegisteredAt(ops, i, v, path, hash)
  {
    assert ops[..|ops| - 1][..i] == ops[..i];
    hide After, Registers;
  }

  /** One more transaction keeps what a row tells. */
  lemma RowKeeps(ops: seq<Op>, l: Link)
    requires ops != [] && RowTells(ops[..|ops| - 1], l)
    ensures RowTells(ops, l)
  {
    var n := |ops| - 1;
    var front, op, v, p := ops[..n], ops[n], l.version, l.publication;
    var db := After(EmptyDb, front);
    FreshVersion(front);
    assert After(EmptyDb, ops) == Apply(db, op) by { hide Apply; }
    hide After, Inv, Apply, Registers;
    VersionStays(db, op, v);
    var row := Apply(db, op).versions[v];
    if Registers(db, op, v) {
      assert RegisteredAt(ops, n, v, row.path, row.contentHash);
      RegistersUnnamed(db, op, v);
      if db.versions[v].contentHash == p.contentHash { assert p.contentHash == ""; }
    } else if i :| RegisteredAt(front, i, v, row.path, row.contentHash) {
      Grows(ops, i, v, row.path, row.contentHash);
    }
  }

  lemma RegistersUnnamed(db: Db, op: Op, v: int)
    requires Registers(db, op, v)
    ensures v in db.versions && db.versions[v].contentHash == ""
  {
  }

  /** Every version that was ever published keeps its app, its files, its content and its origin, over any
      history; files and content may have been registered once the version was current, if the publication
      named no content. */
  lemma {:induction false} PublishedVersionsStay(ops: seq<Op>, app: int, k: nat)
    requires k < |Links(EmptyDb, ops, app)|
    ensures RowTells(ops, Links(EmptyDb, ops, app)[k])
    decreases |ops|
  {
    var front, op := ops[..|ops| - 1], ops[|ops| - 1];
    var before, added := Links(EmptyDb, front, app), NewLinks(After(EmptyDb, front), op, app);
    assert Links(EmptyDb, ops, app) == before + added;
    if k < |before| {
      hide Links, NewLinks, RowTells;
      PublishedVersionsStay(front, app, k);
      RowKeeps(ops, before[k]);
    } else {
      var db := After(EmptyDb, front);
      assert After(EmptyDb, ops) == Apply(db, op) by { hide Apply; }
      hide Links, After;
      var p := Committed(db, op).value;
      assert added == [Link(db.nextId, p)] by { hide Committed; }
      assert op.OpPublish? || op.OpRestore? || op.OpComplete?;
      hide Apply, Committed, NewLinks, RegisteredAt;
      PublicationAddsVersion(db, op);
    }
  }
}
