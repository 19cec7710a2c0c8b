// The runner itself: a raw connection to the database file, and the loop over the pending
// bodies. Both are proved to do exactly what module Migrations says.
module MigrationRunner {
  import opened Wrappers
  import opened Schemas
  import opened Migrations

  // The database file. It outlives every connection and every process.
  class Database {
    var schema: Schema
    var versions: seq<nat>

    constructor (schema: Schema, versions: seq<nat>)
      ensures View() == Disk(schema, versions)
    {
      this.schema, this.versions := schema, versions;
    }

    function View(): Disk
      reads this
    {
      Disk(schema, versions)
    }
  }

  class Connection {
    const file: Database
    var open: bool
    var work: Schema

    // sqlite3.connect followed by BEGIN.
    constructor (file: Database)
      ensures this.file == file && View() == Begin(file.schema)
    {
      this.file, open, work := file, true, file.schema;
    }

    function View(): Conn
      reads this, file
    {
      Conn(file.schema, open, work)
    }

    method Execute(s: Stmt) returns (ok: bool)
      modifies this, file`schema
      ensures Progress(View(), ok) == Step(old(View()), Op.Execute(s))
    {
      match Apply(s, work)
      case Err =>
        ok := false;
      case Ok(w) =>
        ok, work := true, w;
        if s.IsDml() { open := true; }
        if !open { file.schema := w; }
    }

    // Commits whatever is open, then runs and commits the statements one at a time.
    method ExecuteScript(ss: seq<Stmt>) returns (ok: bool)
      modifies this, file`schema
      ensures Progress(View(), ok) == RunOps(Migrations.ExecuteScript(ss), old(View()))
    {
      ghost var ops := Migrations.ExecuteScript(ss);
      ghost var start := View();
      Commit();
      ok := true;
      assert ops[..1][..0] == [];
      var i := 0;
      while i < |ss| && ok
        invariant 0 <= i <= |ss|
        invariant Progress(View(), ok) == RunOps(ops[..i + 1], start)
      {
        assert ops[..i + 2][..i + 1] == ops[..i + 1];
        ok := ExecuteOne(ss[i]);
        i := i + 1;
      }
      assert ops[..|ops|] == ops;
      StoppedStays(ops, i + 1, start);
    }

    method ExecuteOne(s: Stmt) returns (ok: bool)
      modifies this, file`schema
      ensures Progress(View(), ok) == Step(old(View()), Autocommit(s))
    {
      match Apply(s, work)
      case Err => ok := false;
      case Ok(w) => ok, work, open, file.schema := true, w, false, w;
    }

    method Commit()
      modifies this, file`schema
      ensures View() == Conn(old(work), false, old(work))
    {
      file.schema, open := work, false;
    }

    method Rollback()
      modifies this
      ensures View() == Conn(file.schema, false, file.schema)
    {
      work, open := file.schema, false;
    }
  }

  // A run that has stopped at an error ends there.
  lemma {:induction false} StoppedStays(ops: seq<Op>, n: nat, c: Conn)
    requires n <= |ops|
    requires RunOps(ops[..n], c).ok ==> n == |ops|
    ensures RunOps(ops, c) == RunOps(ops[..n], c)
  {
    if n < |ops| {
      assert ops[..|ops| - 1][..n] == ops[..n];
      if n < |ops| - 1 { StoppedStays(ops[..|ops| - 1], n, c); }
      assert ops[..|ops| - 1][..|ops| - 1] == ops[..|ops| - 1];
    } else {
      assert ops[..n] == ops;
    }
  }

  class SchemaManager {
    const file: Database
    const migrations: seq<Body>

    constructor (file: Database, migrations: seq<Body>)
      ensures this.file == file && this.migrations == migrations
    {
      this.file, this.migrations := file, migrations;
    }

    // SELECT MAX(version) FROM schema_version, with 0 for an empty table.
    method GetVersion() returns (v: nat)
      ensures file.versions == [] ==> v == 0
      ensures file.versions != [] ==> v in file.versions
      ensures forall w :: w in file.versions ==> w <= v
    {
      v := 0;
      for i := 0 to |file.versions|
        invariant i == 0 ==> v == 0
        invariant i > 0 ==> v in file.versions
        invariant forall j :: 0 <= j < i ==> file.versions[j] <= v
      {
        if i == 0 || v < file.versions[i] { v := file.versions[i]; }
      }
    }

    // One body: at most `limit` of its operations, then the version row unless the process
    // died first. An error rolls back what is open.
    method ApplyOne(body: Body, version: nat, limit: Option<nat>) returns (outcome: Outcome)
      modifies file
      ensures var before := old(file.schema);
              var plan := Plan(body, before);
              var n := if limit.None? then |plan| else Min(limit.value, |plan|);
              var p := RunOps(plan[..n], Begin(before));
              && outcome == (if !p.ok then Failed else if limit.Some? then Crashed else Done)
              && file.View() == if outcome == Done then Disk(p.conn.work, old(file.versions) + [version])
                                else Disk(p.conn.disk, old(file.versions))
    {
      var conn := new Connection(file);
      var plan := Plan(body, file.schema);
      var n := if limit.None? then |plan| else Min(limit.value, |plan|);
      ghost var start := conn.View();
      var ok := true;
      var i := 0;
      while i < n && ok
        invariant 0 <= i <= n
        invariant Progress(conn.View(), ok) == RunOps(plan[..i], start)
        invariant file.versions == old(file.versions)
      {
        assert plan[..i + 1][..i] == plan[..i];
        match plan[i] {
          case CommitOpen => conn.Commit();
          case Execute(s) => ok := conn.Execute(s);
          case Autocommit(s) => ok := conn.ExecuteOne(s);
        }
        i := i + 1;
      }
      assert plan[..n][..i] == plan[..i];
      StoppedStays(plan[..n], i, start);
      if !ok {
        conn.Rollback();
        outcome := Failed;
      } else if limit.Some? {
        outcome := Crashed;
      } else {
        file.versions := file.versions + [version];
        conn.Commit();
        outcome := Done;
      }
    }

    // The next pending body of a run with this fate, and the fate of the rest.
    method ApplyNext(version: nat, fate: Fate) returns (outcome: Outcome, left: Fate)
      requires version == |file.versions| + 1 <= |migrations|
      modifies file
      ensures Migrate(old(file.View()), migrations, fate)
              == if outcome == Done then Migrate(file.View(), migrations, left) else Run(file.View(), outcome)
      ensures file.versions == old(file.versions) + if outcome == Done then [version] else []
    {
      var plan := Plan(migrations[version - 1], file.schema);
      assert plan[..|plan|] == plan;
      var dies := fate.Dies? && fate.done == 0;
      outcome := ApplyOne(migrations[version - 1], version, if dies then Some(fate.ops) else None);
      left := if fate.Dies? && fate.done > 0 then fate.(done := fate.done - 1) else fate;
    }

    method MigrateLocked(fate: Fate) returns (applied: seq<nat>, outcome: Outcome)
      requires Wellformed(file.View())
      modifies file
      ensures Run(file.View(), outcome) == Migrate(old(file.View()), migrations, fate)
      ensures file.versions == old(file.versions) + applied
    {
      var current := GetVersion();
      if file.versions != [] {
        assert file.versions[|file.versions| - 1] in file.versions;
      }
      assert current == |file.versions|;
      applied, outcome := [], Done;
      var left := fate;
      ghost var start := file.View();
      var version := 1;
      while version <= |migrations|
        invariant 1 <= version <= |migrations| + 1
        invariant Migrate(start, migrations, fate) == Migrate(file.View(), migrations, left)
        invariant |file.versions| == Max(current, version - 1)
        invariant file.versions == old(file.versions) + applied
        invariant outcome == Done
      {
        if version > current {
          outcome, left := ApplyNext(version, left);
          if outcome != Done { return; }
          applied := applied + [version];
        }
        version := version + 1;
      }
    }
  }
}
