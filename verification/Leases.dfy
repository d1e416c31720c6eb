/** How long an execution owns its app: until the lease it was granted or last renewed ends, or until it
    gives the app back. */
module Leases {
  import opened TaskTypes
  import opened TaskTransactions
  import opened TaskHistory
  import Fencing

  predicate SameOwner(c: Claim, d: Claim) {
    c.app == d.app && c.epoch == d.epoch && c.owner == d.owner
  }

  /** The end of a lease that ran until `end`, after a history: the last renewal counts from the moment it was
      made, and giving the app back ends the lease there and then. */
  function LeaseEnd(db: Db, end: int, c: Claim, ops: seq<Op>): int {
    if ops == [] then end
    else
      var front, op := ops[..|ops| - 1], ops[|ops| - 1];
      if op.OpRenew? && SameOwner(op.claim, c) && op.ttl > 0 then After(db, front).now + op.ttl
      else if op.OpRelease? && SameOwner(op.claim, c) then After(db, front).now
      else LeaseEnd(db, end, c, front)
  }

  /** At every moment of a history the lease runs. */
  ghost predicate InTime(db: Db, end: int, c: Claim, ops: seq<Op>) {
    forall i :: 0 <= i <= |ops| ==> After(db, ops[..i]).now < LeaseEnd(db, end, c, ops[..i])
  }

  /** The claim owns its app, until `end` as things are. */
  predicate Owns(db: Db, c: Claim, end: int) {
    ValidClaim(db, c) && c.owner != "" && db.apps[c.app].leaseUntil == end
  }

  // ---- one transaction ------------------------------------------------------------------------------

  lemma PublishKeepsLease(db: Db, p: Publication, version: int, valid: bool, c: Claim, end: int)
    requires Owns(db, c, end)
    ensures Owns(PublishTx(db, p, version, valid).db, c, end)
  {
  }

  lemma PublicationKeepsLease(db: Db, op: Op, c: Claim, end: int)
    requires Owns(db, c, end) && (op.OpPublish? || op.OpRestore? || op.OpComplete?)
    ensures Owns(Apply(db, op), c, end)
  {
    hide RunHasVersion, HasActive, CompletionEvents, VersionRow, AddEvents, AddMessages;
    if op.OpComplete? {
      if op.completion.publication.Some? {
        PublishKeepsLease(db, op.completion.publication.value, db.nextId, op.completion.stillValid, c, end);
      }
    } else {
      PublishKeepsLease(db, op.publication, db.nextId, true, c, end);
    }
    hide PublishTx;
  }

  /** What the next transaction makes of the end of a running lease. */
  function NextEnd(db: Db, end: int, c: Claim, op: Op): int {
    if op.OpRenew? && SameOwner(op.claim, c) && op.ttl > 0 then db.now + op.ttl
    else if op.OpRelease? && SameOwner(op.claim, c) then db.now
    else end
  }

  lemma ClaimKeepsLease(db: Db, app: int, owner: string, ttl: int, c: Claim, end: int)
    requires Owns(db, c, end)
    ensures Owns(ClaimApp(db, app, owner, ttl).db, c, end)
  {
  }

  lemma RenewKeepsLease(db: Db, d: Claim, ttl: int, c: Claim, end: int)
    requires Owns(db, c, end)
    ensures Owns(Renew(db, d, ttl).db, c, if ttl > 0 && SameOwner(d, c) then db.now + ttl else end)
  {
  }

  lemma ReleaseEndsLease(db: Db, d: Claim, c: Claim, end: int)
    requires Owns(db, c, end)
    ensures Release(db, d).db.now == db.now
    ensures if SameOwner(d, c) then !ValidClaim(Release(db, d).db, c) else Owns(Release(db, d).db, c, end)
  {
  }

  lemma OwnershipKeepsLease(db: Db, op: Op, c: Claim, end: int)
    requires Owns(db, c, end) && (op.OpClaim? || op.OpRenew? || op.OpRelease? || op.OpTick?)
    ensures var after, next := Apply(db, op), NextEnd(db, end, c, op);
      if after.now < next then Owns(after, c, next) else !ValidClaim(after, c)
  {
    hide ClaimApp, Renew, Release;
    match op
    case OpClaim(app, owner, ttl) => ClaimKeepsLease(db, app, owner, ttl, c, end);
    case OpRenew(d, ttl) => RenewKeepsLease(db, d, ttl, c, end);
    case OpRelease(d) => ReleaseEndsLease(db, d, c, end);
    case OpTick(_) =>
  }

  lemma OtherKeepsLease(db: Db, op: Op, c: Claim, end: int)
    requires Owns(db, c, end) && !op.OpPublish? && !op.OpRestore? && !op.OpComplete?
    requires !op.OpClaim? && !op.OpRenew? && !op.OpRelease? && !op.OpTick?
    ensures Owns(Apply(db, op), c, end)
  {
    if Fencing.RunOp(op) {
      Fencing.RunOpKeepsApps(db, op);
      hide Apply;
    } else {
      if op.OpRestart? { Fencing.InterruptRunsKeepsApps(db, op.order); }
      hide InterruptRuns, RetryDelay;
    }
  }

  /** A running lease ends exactly when its time is up or its owner gives the app back. */
  lemma StepKeepsLease(db: Db, op: Op, c: Claim, end: int)
    requires Owns(db, c, end)
    ensures var after, next := Apply(db, op), NextEnd(db, end, c, op);
      if after.now < next then Owns(after, c, next) else !ValidClaim(after, c)
  {
    hide *;
    if op.OpClaim? || op.OpRenew? || op.OpRelease? || op.OpTick? {
      OwnershipKeepsLease(db, op, c, end);
    } else {
      if op.OpPublish? || op.OpRestore? || op.OpComplete? {
        PublicationKeepsLease(db, op, c, end);
      } else {
        OtherKeepsLease(db, op, c, end);
      }
      OwnsIsValid(Apply(db, op), c, end);
      NoLeaseOp(db, end, c, op);
    }
  }

  lemma OwnsIsValid(db: Db, c: Claim, end: int)
    requires Owns(db, c, end)
    ensures ValidClaim(db, c) && db.now < end
  {
  }

  lemma NoLeaseOp(db: Db, end: int, c: Claim, op: Op)
    requires !op.OpRenew? && !op.OpRelease?
    ensures NextEnd(db, end, c, op) == end
  {
  }

  // ---- whole histories ------------------------------------------------------------------------------

  lemma InTimeUntil(db: Db, end: int, c: Claim, ops: seq<Op>)
    requires ops != []
    ensures InTime(db, end, c, ops) <==>
            InTime(db, end, c, ops[..|ops| - 1]) && After(db, ops).now < LeaseEnd(db, end, c, ops)
  {
    hide After, LeaseEnd;
    var n := |ops| - 1;
    var front := ops[..n];
    assert ops[..n + 1] == ops;
    forall i | 0 <= i <= n
      ensures After(db, front[..i]) == After(db, ops[..i])
      ensures LeaseEnd(db, end, c, front[..i]) == LeaseEnd(db, end, c, ops[..i])
    {
      assert front[..i] == ops[..i];
    }
    if InTime(db, end, c, ops) { assert After(db, ops[..n + 1]).now < LeaseEnd(db, end, c, ops[..n + 1]); }
  }

  lemma OneMore(db: Db, end: int, c: Claim, ops: seq<Op>)
    requires ops != []
    ensures var front := ops[..|ops| - 1];
      && LeaseEnd(db, end, c, ops) == NextEnd(After(db, front), LeaseEnd(db, end, c, front), c, ops[|ops| - 1])
      && After(db, ops) == Apply(After(db, front), ops[|ops| - 1])
  {
    hide Apply;
  }

  lemma NotYet(db: Db, end: int, c: Claim)
    ensures (InTime(db, end, c, []) <==> db.now < end) && After(db, []) == db && LeaseEnd(db, end, c, []) == end
  {
    var none: seq<Op> := [];
    assert none[..0] == none;
  }

  lemma InvalidIsLost(db: Db, after: Db, c: Claim)
    requires ValidClaim(db, c) && Fencing.AppsAge(db, after) && !ValidClaim(after, c)
    ensures Fencing.Lost(after, c)
  {
  }

  lemma {:induction false} LeaseRuns(db: Db, c: Claim, end: int, ops: seq<Op>)
    requires Owns(db, c, end)
    ensures if InTime(db, end, c, ops) then Owns(After(db, ops), c, LeaseEnd(db, end, c, ops))
        else Fencing.Lost(After(db, ops), c)
    decreases |ops|
  {
    hide *;
    if ops == [] {
      NotYet(db, end, c);
      OwnsIsValid(db, c, end);
    } else {
      var front, op := ops[..|ops| - 1], ops[|ops| - 1];
      var mid := After(db, front);
      LeaseRuns(db, c, end, front);
      InTimeUntil(db, end, c, ops);
      OneMore(db, end, c, ops);
      if InTime(db, end, c, front) {
        StepKeepsLease(mid, op, c, LeaseEnd(db, end, c, front));
        Fencing.StepAges(mid, op);
        OwnsIsValid(mid, c, LeaseEnd(db, end, c, front));
        if !InTime(db, end, c, ops) { InvalidIsLost(mid, Apply(mid, op), c); }
      } else {
        Fencing.LostClaimStaysLost(mid, c, [op]);
        OneStep(mid, op);
      }
    }
  }

  lemma OneStep(db: Db, op: Op)
    ensures After(db, [op]) == Apply(db, op)
  {
    assert [op][..0] == [];
    hide Apply;
  }

  /** An app is refused exactly while someone's claim to it is valid. */
  lemma FreeUnlessOwned(db: Db, app: int, owner: string, ttl: int)
    requires app > 0 && owner != "" && ttl > 0
    ensures ClaimApp(db, app, owner, ttl).outcome.Granted? <==>
            !exists c: Claim :: c.app == app && c.owner != "" && ValidClaim(db, c)
  {
    if app in db.apps {
      var row := db.apps[app];
      var holder := Claim(app, row.owner, row.epoch, 0, "");
      assert row.owner != "" && row.leaseUntil > db.now ==> ValidClaim(db, holder) && holder.owner != "";
    }
  }

  lemma GrantOwns(db: Db, app: int, owner: string, ttl: int)
    requires ClaimApp(db, app, owner, ttl).outcome.Granted?
    ensures var granted := ClaimApp(db, app, owner, ttl);
      Owns(granted.db, granted.outcome.claim, db.now + ttl) && granted.outcome.claim.app == app
  {
  }

  lemma RenewalOwns(db: Db, c: Claim, ttl: int)
    requires Renew(db, c, ttl).outcome.Ok? && c.owner != ""
    ensures Owns(Renew(db, c, ttl).db, c, db.now + ttl)
  {
  }

  lemma LostIsInvalid(db: Db, c: Claim)
    requires Fencing.Lost(db, c)
    ensures !ValidClaim(db, c)
  {
  }

  lemma ValidInTime(db: Db, c: Claim, end: int, ops: seq<Op>, other: string, time: int)
    requires Owns(db, c, end)
    ensures ValidClaim(After(db, ops), c) <==> InTime(db, end, c, ops)
    ensures ValidClaim(After(db, ops), c) ==> !ClaimApp(After(db, ops), c.app, other, time).outcome.Granted?
  {
    assert c.owner != "";
    hide *;
    var after := After(db, ops);
    LeaseRuns(db, c, end, ops);
    if InTime(db, end, c, ops) { OwnsIsValid(after, c, LeaseEnd(db, end, c, ops)); } else { LostIsInvalid(after, c); }
    if ValidClaim(after, c) { Fencing.LeaseExcludes(after, c, other, time); }
  }

  /** An owner keeps its app through any history exactly as long as the time it was granted, or last renewed,
      is not up and it has not given the app back; until then nobody else is granted it. */
  lemma GrantLasts(db: Db, app: int, owner: string, ttl: int, ops: seq<Op>, other: string, time: int)
    requires ClaimApp(db, app, owner, ttl).outcome.Granted?
    ensures var granted := ClaimApp(db, app, owner, ttl);
      var c, after := granted.outcome.claim, After(granted.db, ops);
      && (ValidClaim(after, c) <==> InTime(granted.db, db.now + ttl, c, ops))
      && (ValidClaim(after, c) ==> !ClaimApp(after, app, other, time).outcome.Granted?)
  {
    hide *;
    GrantOwns(db, app, owner, ttl);
    var granted := ClaimApp(db, app, owner, ttl);
    ValidInTime(granted.db, granted.outcome.claim, db.now + ttl, ops, other, time);
  }

  lemma {:induction false} ClockRises(db: Db, ops: seq<Op>, i: nat)
    requires i <= |ops|
    ensures After(db, ops[..i]).now <= After(db, ops).now
    decreases |ops|
  {
    hide Apply;
    if i == |ops| {
      assert ops[..i] == ops;
    } else {
      var front := ops[..|ops| - 1];
      assert front[..i] == ops[..i];
      ClockRises(db, front, i);
      Fencing.StepAges(After(db, front), ops[|ops| - 1]);
    }
  }

  /** Nobody renews the claim or gives its app back. */
  predicate Untouched(c: Claim, ops: seq<Op>) {
    forall i :: 0 <= i < |ops| && (ops[i].OpRenew? || ops[i].OpRelease?) ==> !SameOwner(ops[i].claim, c)
  }

  lemma {:induction false} EndStays(db: Db, end: int, c: Claim, ops: seq<Op>)
    requires Untouched(c, ops)
    ensures LeaseEnd(db, end, c, ops) == end
    decreases |ops|
  {
    if ops != [] { EndStays(db, end, c, ops[..|ops| - 1]); }
  }

  lemma UntouchedInTime(db: Db, end: int, c: Claim, ops: seq<Op>)
    requires Untouched(c, ops)
    ensures InTime(db, end, c, ops) <==> After(db, ops).now < end
  {
    hide After, LeaseEnd;
    assert ops[..|ops|] == ops;
    forall i | 0 <= i <= |ops|
      ensures LeaseEnd(db, end, c, ops[..i]) == end && After(db, ops[..i]).now <= After(db, ops).now
    {
      assert Untouched(c, ops[..i]);
      EndStays(db, end, c, ops[..i]);
      ClockRises(db, ops, i);
    }
  }

  /** A renewal at one moment keeps the app for its whole time: in any history in which the claim is neither
      renewed again nor given back, it is valid exactly until then, and nobody else is granted the app. */
  lemma RenewalLasts(db: Db, c: Claim, ttl: int, ops: seq<Op>, other: string, time: int)
    requires Renew(db, c, ttl).outcome.Ok? && c.owner != "" && Untouched(c, ops)
    ensures var after := After(Renew(db, c, ttl).db, ops);
      && (ValidClaim(after, c) <==> after.now < db.now + ttl)
      && (ValidClaim(after, c) ==> !ClaimApp(after, c.app, other, time).outcome.Granted?)
  {
    hide *;
    RenewalOwns(db, c, ttl);
    var renewed := Renew(db, c, ttl).db;
    ValidInTime(renewed, c, db.now + ttl, ops, other, time);
    UntouchedInTime(renewed, db.now + ttl, c, ops);
  }

  /** A renewal is accepted exactly from an owner whose lease still runs. */
  lemma OwnersRenew(db: Db, c: Claim, ttl: int)
    ensures Renew(db, c, ttl).outcome.Ok? <==> ttl > 0 && ValidClaim(db, c)
    ensures !Renew(db, c, ttl).outcome.Ok? ==> Renew(db, c, ttl).db == db
  {
    hide ValidClaim;
  }

  /** An app given back by its owner is free at once. */
  lemma ReleasedIsFree(db: Db, c: Claim, other: string, ttl: int)
    requires ValidClaim(db, c) && c.app > 0 && other != "" && ttl > 0
    ensures ClaimApp(Release(db, c).db, c.app, other, ttl).outcome.Granted?
  {
  }
}
