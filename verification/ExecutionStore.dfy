/** The transactions that own apps and publish source versions, statement by statement. Each either
    commits what its specification says or leaves the tables as they were. */
module ExecutionStore {
  import opened TaskTypes
  import Spec = TaskTransactions

  /** The tables behind a connection; NOW(3) is the clock column. */
  class Database {
    var tables: Db

    constructor ()
      ensures tables == EmptyDb
    {
      tables := EmptyDb;
    }

    method CreateVersion(id: int, row: Version) returns (ok: bool)
      modifies this
      ensures ok <==> id !in old(tables).versions && !Spec.RunHasVersion(old(tables), row.run)
      ensures tables == if ok then old(tables).(versions := old(tables).versions[id := row]) else old(tables)
    {
      ok := id !in tables.versions && !exists v | v in tables.versions :: tables.versions[v].run == row.run;
      if ok {
        tables := tables.(versions := tables.versions[id := row]);
      }
    }
  }

  /** The pointer update shared by publications and run completions. */
  method PublishTx(db: Database, p: Publication, version: int, valid: bool) returns (outcome: Outcome)
    modifies db
    ensures Result(db.tables, outcome) == Spec.PublishTx(old(db.tables), p, version, valid)
  {
    if p.path == "" || version <= 0 || p.claim.owner == "" { return Refused; }
    var c := p.claim;
    if c.app !in db.tables.apps { return NotFound; }
    var row := db.tables.apps[c.app];
    var now := db.tables.now;
    if !valid { return Refused; }
    if row.epoch != c.epoch || row.owner != c.owner || row.leaseUntil <= now || row.currentVersion != c.baseVersion {
      return Fenced;
    }
    row := row.(currentVersion := version, currentPath := p.path);
    db.tables := db.tables.(apps := db.tables.apps[c.app := row]);
    return Ok;
  }

  class Store {
    const db: Database

    constructor (db: Database)
      ensures this.db == db
    {
      this.db := db;
    }

    /** The row is created empty when the app is new, then locked and taken over if it is free. */
    method Claim(app: int, owner: string, ttl: int) returns (outcome: Outcome)
      modifies db
      ensures Result(db.tables, outcome) == Spec.ClaimApp(old(db.tables), app, owner, ttl)
    {
      if app <= 0 || owner == "" || ttl <= 0 { return Refused; }
      var before := db.tables;
      if app !in db.tables.apps {
        db.tables := db.tables.(apps := db.tables.apps[app := AppExecution(0, "", db.tables.now, 0, "")]);
      }
      var row := db.tables.apps[app];
      var now := db.tables.now;
      if row.owner != "" && row.leaseUntil > now {
        db.tables := before;
        return Busy;
      }
      var claim := TaskTypes.Claim(app, owner, row.epoch + 1, row.currentVersion, row.currentPath);
      db.tables := db.tables.(apps :=
          db.tables.apps[app := row.(epoch := claim.epoch, owner := owner, leaseUntil := now + ttl)]);
      assert before.apps[app := row][app := db.tables.apps[app]] == before.apps[app := db.tables.apps[app]];
      return Granted(claim);
    }

    method Renew(c: Claim, ttl: int) returns (outcome: Outcome)
      modifies db
      ensures Result(db.tables, outcome) == Spec.Renew(old(db.tables), c, ttl)
    {
      if ttl <= 0 { return Refused; }
      var affected := 0;
      if c.app in db.tables.apps {
        var row := db.tables.apps[c.app];
        if row.epoch == c.epoch && row.owner == c.owner && row.leaseUntil > db.tables.now {
          db.tables := db.tables.(apps := db.tables.apps[c.app := row.(leaseUntil := db.tables.now + ttl)]);
          affected := 1;
        }
      }
      if affected != 1 { return Fenced; }
      return Ok;
    }

    method Release(c: Claim)
      modifies db
      ensures Result(db.tables, Ok) == Spec.Release(old(db.tables), c)
    {
      if c.app in db.tables.apps {
        var row := db.tables.apps[c.app];
        if row.epoch == c.epoch && row.owner == c.owner {
          db.tables := db.tables.(apps := db.tables.apps[c.app := row.(owner := "", leaseUntil := db.tables.now)]);
        }
      }
    }

    method Publish(p: Publication) returns (outcome: Outcome)
      modifies db
      ensures Result(db.tables, outcome) == Spec.Publish(old(db.tables), p)
    {
      var before := db.tables;
      var id := db.tables.nextId;
      outcome := PublishTx(db, p, id, true);
      if outcome != Ok { return; }
      var ok := db.CreateVersion(id, Version(id, p.claim.app, p.path, p.contentHash, p.restoredFrom));
      if !ok {
        db.tables := before;
        return Refused;
      }
      db.tables := db.tables.(nextId := id + 1);
    }

    method PublishRestoration(p: Publication) returns (outcome: Outcome)
      modifies db
      ensures Result(db.tables, outcome) == Spec.PublishRestoration(old(db.tables), p)
    {
      if exists r :: r in db.tables.runs && db.tables.runs[r].activeKey == Some(p.claim.app) { return Busy; }
      outcome := Publish(p);
    }

    method RegisterSnapshot(c: Claim, path: string, hash: string) returns (outcome: Outcome)
      modifies db
      ensures Result(db.tables, outcome) == Spec.RegisterSnapshot(old(db.tables), c, path, hash)
    {
      if c.app !in db.tables.apps { return Fenced; }
      var row := db.tables.apps[c.app];
      if row.owner != c.owner || row.epoch != c.epoch || row.currentVersion != c.baseVersion
          || row.leaseUntil <= db.tables.now {
        return Fenced;
      }
      if c.baseVersion in db.tables.versions {
        var version := db.tables.versions[c.baseVersion];
        if version.app == c.app && version.contentHash == "" {
          db.tables := db.tables.(versions :=
              db.tables.versions[c.baseVersion := version.(path := path, contentHash := hash)]);
        }
      }
      return Ok;
    }
  }
}
