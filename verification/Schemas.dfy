// The statements that migration bodies issue, and what each does to a database.
// Err is an OperationalError; a failing statement changes nothing.
module Schemas {
  import opened Wrappers

  datatype Cell = Null | Text(text: string)

  type Row = map<string, Cell>

  // Rows are keyed by primary key.
  datatype Table = Table(columns: set<string>, rows: map<string, Row>)

  // Each index names the table it is on.
  datatype Schema = Schema(tables: map<string, Table>, indexes: map<string, string>)

  datatype Stmt =
    | EnsureTable(table: string, columns: set<string>)        // CREATE TABLE IF NOT EXISTS
    | CreateTable(table: string, columns: set<string>)        // CREATE TABLE
    | AddColumn(table: string, column: string, fill: Cell)    // _safe_add_column
    | EnsureIndex(index: string, table: string)               // CREATE INDEX IF NOT EXISTS
    | CreateIndex(index: string, table: string)               // CREATE INDEX
    | SeedRow(table: string, key: string, row: Row)           // INSERT OR IGNORE
    | CopyRows(source: string, table: string, extra: Row)     // INSERT INTO .. SELECT ..
    | DropTable(table: string)
    | RenameTable(table: string, to: string)
  {
    // Data statements make Python's sqlite3 open a transaction when none is open.
    predicate IsDml() {
      SeedRow? || CopyRows?
    }

    // Statements that do nothing once their effect is there.
    predicate IsAbsorbing() {
      EnsureTable? || AddColumn? || EnsureIndex? || SeedRow?
    }

    // Statements that only ever add tables, columns, indexes or rows.
    predicate IsCreating() {
      IsAbsorbing() || CreateTable? || CreateIndex?
    }
  }

  function FillColumn(rows: map<string, Row>, column: string, fill: Cell): map<string, Row> {
    map k | k in rows :: rows[k][column := fill]
  }

  function Extend(rows: map<string, Row>, extra: Row): map<string, Row> {
    map k | k in rows :: rows[k] + extra
  }

  function Apply(s: Stmt, db: Schema): Result<Schema> {
    match s
    case EnsureTable(t, cols) =>
      if t in db.tables then Ok(db) else Ok(db.(tables := db.tables[t := Table(cols, map[])]))
    case CreateTable(t, cols) =>
      if t in db.tables then Err else Ok(db.(tables := db.tables[t := Table(cols, map[])]))
    case AddColumn(t, c, fill) =>
      if t !in db.tables then Err
      else if c in db.tables[t].columns then Ok(db)
      else Ok(db.(tables := db.tables[t := Table(db.tables[t].columns + {c}, FillColumn(db.tables[t].rows, c, fill))]))
    case EnsureIndex(i, t) =>
      if i in db.indexes then Ok(db)
      else if t !in db.tables then Err else Ok(db.(indexes := db.indexes[i := t]))
    case CreateIndex(i, t) =>
      if i in db.indexes || t !in db.tables then Err else Ok(db.(indexes := db.indexes[i := t]))
    case SeedRow(t, key, row) =>
      if t !in db.tables then Err
      else if key in db.tables[t].rows then Ok(db)
      else if !(row.Keys <= db.tables[t].columns) then Err
      else Ok(db.(tables := db.tables[t := db.tables[t].(rows := db.tables[t].rows[key := row])]))
    case CopyRows(source, t, extra) =>
      if source !in db.tables || t !in db.tables then Err
      else if !(db.tables[source].rows.Keys !! db.tables[t].rows.Keys) then Err
      else Ok(db.(tables := db.tables[t := db.tables[t].(
                    rows := db.tables[t].rows + Extend(db.tables[source].rows, extra))]))
    case DropTable(t) =>
      if t !in db.tables then Err
      else Ok(Schema(db.tables - {t}, map i | i in db.indexes && db.indexes[i] != t :: db.indexes[i]))
    case RenameTable(t, to) =>
      if t !in db.tables || to in db.tables then Err
      else Ok(Schema((db.tables - {t})[to := db.tables[t]],
                     map i | i in db.indexes :: if db.indexes[i] == t then to else db.indexes[i]))
  }

  function RunAll(ss: seq<Stmt>, db: Schema): Result<Schema> {
    if ss == [] then Ok(db)
    else match RunAll(ss[..|ss| - 1], db)
      case Err => Err
      case Ok(mid) => Apply(ss[|ss| - 1], mid)
  }

  // The effect of a creating statement is present.
  predicate Settled(s: Stmt, db: Schema) {
    match s
    case EnsureTable(t, _) => t in db.tables
    case CreateTable(t, _) => t in db.tables
    case AddColumn(t, c, _) => t in db.tables && c in db.tables[t].columns
    case EnsureIndex(i, _) => i in db.indexes
    case CreateIndex(i, _) => i in db.indexes
    case SeedRow(t, key, _) => t in db.tables && key in db.tables[t].rows
    case _ => false
  }

  // An applied effect is never undone by a creating statement.
  lemma SettledStays(s: Stmt, step: Stmt, db: Schema)
    requires step.IsCreating() && Settled(s, db) && Apply(step, db).Ok?
    ensures Settled(s, Apply(step, db).value)
  {
    match step
    case AddColumn(t, c, fill) =>
    case SeedRow(t, key, row) =>
    case _ =>
  }

  // Run again, an absorbing statement does nothing and a bare CREATE fails.
  lemma SettledAgain(s: Stmt, db: Schema)
    requires s.IsCreating() && Settled(s, db)
    ensures Apply(s, db) == if s.IsAbsorbing() then Ok(db) else Err
  {
  }

  lemma {:induction false} RunSettles(ss: seq<Stmt>, db: Schema)
    requires forall s :: s in ss ==> s.IsCreating()
    requires RunAll(ss, db).Ok?
    ensures forall s :: s in ss ==> Settled(s, RunAll(ss, db).value)
  {
    if ss != [] {
      var init, last := ss[..|ss| - 1], ss[|ss| - 1];
      assert forall s :: s in init ==> s in ss;
      assert last in ss;
      RunSettles(init, db);
      forall s | s in ss ensures Settled(s, RunAll(ss, db).value) {
        if s in init { SettledStays(s, last, RunAll(init, db).value); }
      }
    }
  }

  // Statements whose effects are all there change nothing when run again.
  lemma {:induction false} ReplayIsNoop(ss: seq<Stmt>, db: Schema)
    requires forall s :: s in ss ==> s.IsAbsorbing() && Settled(s, db)
    ensures RunAll(ss, db) == Ok(db)
  {
    if ss != [] {
      var init, last := ss[..|ss| - 1], ss[|ss| - 1];
      assert forall s :: s in init ==> s in ss;
      assert last in ss;
      ReplayIsNoop(init, db);
    }
  }

  lemma {:induction false} RunSplit(a: seq<Stmt>, b: seq<Stmt>, db: Schema)
    ensures RunAll(a + b, db) ==
            match RunAll(a, db) { case Err => Err case Ok(mid) => RunAll(b, mid) }
  {
    if b == [] {
      assert a + b == a;
    } else {
      var ab := a + b;
      assert ab[..|ab| - 1] == a + b[..|b| - 1];
      RunSplit(a, b[..|b| - 1], db);
    }
  }

  // A prefix of a run that succeeds succeeds.
  lemma RunPrefix(ss: seq<Stmt>, j: nat, db: Schema)
    requires j <= |ss| && RunAll(ss, db).Ok?
    ensures RunAll(ss[..j], db).Ok?
    ensures RunAll(ss[j..], RunAll(ss[..j], db).value) == RunAll(ss, db)
  {
    assert ss[..j] + ss[j..] == ss;
    RunSplit(ss[..j], ss[j..], db);
  }

  // Starting over from the state that the first j statements left is the same as
  // going on from wherever the longer of the two runs stops.
  lemma RestartFromPrefix(ss: seq<Stmt>, j: nat, k: nat, db: Schema)
    requires j <= |ss| && k <= |ss| && RunAll(ss[..j], db).Ok?
    requires forall s :: s in ss[..j] ==> s.IsAbsorbing()
    ensures RunAll(ss[..k], RunAll(ss[..j], db).value) == RunAll(ss[..if j < k then k else j], db)
  {
    var db' := RunAll(ss[..j], db).value;
    RunSettles(ss[..j], db);
    var low := if j < k then j else k;
    assert forall s :: s in ss[..low] ==> s in ss[..j];
    ReplayIsNoop(ss[..low], db');
    if j < k {
      assert ss[..k] == ss[..j] + ss[j..k];
      RunSplit(ss[..j], ss[j..k], db);
      RunSplit(ss[..j], ss[j..k], db');
    }
  }
}
