// What the migrations leave of the data that is already in the database.
module Preservation {
  import opened Wrappers
  import opened Schemas
  import opened Migrations
  import MigrationLock

  // Rows have no cells outside the columns of their table.
  predicate TableFits(t: Table) {
    forall k :: k in t.rows ==> t.rows[k].Keys <= t.columns
  }

  predicate Fits(db: Schema) {
    forall t :: t in db.tables ==> TableFits(db.tables[t])
  }

  predicate RowKept(before: Row, after: Row) {
    forall c :: c in before ==> c in after && after[c] == before[c]
  }

  predicate TableKept(before: Table, after: Table) {
    && before.columns <= after.columns
    && forall k :: k in before.rows ==> k in after.rows && RowKept(before.rows[k], after.rows[k])
  }

  // Every table, column, row, cell and index is still there, with its old value.
  predicate Kept(before: Schema, after: Schema) {
    && (forall t :: t in before.tables ==> t in after.tables && TableKept(before.tables[t], after.tables[t]))
    && (forall i :: i in before.indexes ==> i in after.indexes && after.indexes[i] == before.indexes[i])
  }

  lemma KeptOn(a: Schema, b: Schema, c: Schema)
    requires Kept(a, b) && Kept(b, c)
    ensures Kept(a, c)
  {
    forall t | t in a.tables ensures t in c.tables && TableKept(a.tables[t], c.tables[t]) {
      assert TableKept(a.tables[t], b.tables[t]) && TableKept(b.tables[t], c.tables[t]);
    }
  }

  // ------------------------------------------------------------------------------------
  // One statement

  // The new column holds `fill` in every row; all other columns, rows, cells, tables and indexes
  // stay as they are.
  predicate ColumnAdded(before: Schema, after: Schema, table: string, column: string, fill: Cell) {
    && after.indexes == before.indexes && after.tables.Keys == before.tables.Keys
    && (forall t :: t in before.tables && t != table ==> after.tables[t] == before.tables[t])
    && table in before.tables
    && var t, t' := before.tables[table], after.tables[table];
       && t'.columns == t.columns + {column} && t'.rows.Keys == t.rows.Keys
       && forall k :: k in t.rows ==> Filled(t.rows[k], t'.rows[k], column, fill)
  }

  predicate Filled(before: Row, after: Row, column: string, fill: Cell) {
    && column in after && after[column] == fill
    && after.Keys == before.Keys + {column}
    && forall c :: c in before && c != column ==> after[c] == before[c]
  }

  lemma AddedColumnIs(table: string, column: string, fill: Cell, db: Schema)
    ensures var r := Apply(AddColumn(table, column, fill), db);
            && (r.Ok? <==> table in db.tables)
            && (r.Ok? ==> if column in db.tables[table].columns then r == Ok(db)
                          else ColumnAdded(db, r.value, table, column, fill))
  {
  }

  lemma CreatingKeeps(s: Stmt, db: Schema)
    requires s.IsCreating() && Fits(db) && Apply(s, db).Ok?
    ensures Fits(Apply(s, db).value) && Kept(db, Apply(s, db).value)
  {
    var db' := Apply(s, db).value;
    match s {
      case AddColumn(t, c, fill) =>
        AddedColumnIs(t, c, fill, db);
        if c !in db.tables[t].columns { FilledKeeps(db.tables[t], db'.tables[t], c, fill); }
      case SeedRow(t, key, row) =>
        assert TableFits(db.tables[t]);
      case _ =>
    }
  }

  lemma FilledKeeps(t: Table, t': Table, column: string, fill: Cell)
    requires TableFits(t) && column !in t.columns
    requires t'.columns == t.columns + {column} && t'.rows.Keys == t.rows.Keys
    requires forall k :: k in t.rows ==> Filled(t.rows[k], t'.rows[k], column, fill)
    ensures TableFits(t') && TableKept(t, t')
  {
  }

  // ------------------------------------------------------------------------------------
  // Any list of creating statements

  lemma {:induction false} RunKeeps(ss: seq<Stmt>, db: Schema)
    requires (forall s :: s in ss ==> s.IsCreating()) && Fits(db) && RunAll(ss, db).Ok?
    ensures Fits(RunAll(ss, db).value) && Kept(db, RunAll(ss, db).value)
  {
    if ss != [] {
      var init, last := ss[..|ss| - 1], ss[|ss| - 1];
      assert last in ss && forall s :: s in init ==> s in ss;
      RunKeeps(init, db);
      CreatingKeeps(last, RunAll(init, db).value);
      KeptOn(db, RunAll(init, db).value, RunAll(ss, db).value);
    }
  }

  // The columns that a list of statements asks to add to a table.
  function Added(ss: seq<Stmt>, table: string): set<string> {
    set s | s in ss && s.AddColumn? && s.table == table :: s.column
  }

  predicate Creates(s: Stmt, table: string) {
    (s.EnsureTable? || s.CreateTable?) && s.table == table
  }

  // Where a table of the result, with its columns, comes from.
  predicate TableAccounted(ss: seq<Stmt>, db: Schema, table: string, columns: set<string>) {
    if table in db.tables then columns == db.tables[table].columns + Added(ss, table)
    else exists s :: s in ss && Creates(s, table) && columns == s.columns + Added(ss, table)
  }

  // Where a row comes from: it was there, or a statement seeds it.
  predicate RowAccounted(ss: seq<Stmt>, db: Schema, table: string, key: string, row: Row) {
    || (table in db.tables && key in db.tables[table].rows)
    || exists s :: s in ss && s.SeedRow? && s.table == table && s.key == key && RowKept(s.row, row)
  }

  predicate IndexAccounted(ss: seq<Stmt>, db: Schema, index: string, table: string) {
    || (index in db.indexes && db.indexes[index] == table)
    || EnsureIndex(index, table) in ss || CreateIndex(index, table) in ss
  }

  // Nothing is in the result but what was there and what the statements ask for.
  predicate Accounted(ss: seq<Stmt>, db: Schema, after: Schema) {
    && (forall t :: t in after.tables ==> TableAccounted(ss, db, t, after.tables[t].columns))
    && (forall t, k :: t in after.tables && k in after.tables[t].rows ==>
          RowAccounted(ss, db, t, k, after.tables[t].rows[k]))
    && (forall i :: i in after.indexes ==> IndexAccounted(ss, db, i, after.indexes[i]))
  }

  lemma AddedGrows(ss: seq<Stmt>, table: string)
    requires ss != []
    ensures var last := ss[|ss| - 1];
            Added(ss, table) == Added(ss[..|ss| - 1], table)
                                + if last.AddColumn? && last.table == table then {last.column} else {}
  {
    var init, last := ss[..|ss| - 1], ss[|ss| - 1];
    assert last in ss && forall s :: s in ss <==> s in init || s == last;
  }

  // What one statement does to the columns of a table.
  lemma ColumnsAfter(s: Stmt, db: Schema, after: Schema, t: string)
    requires s.IsCreating() && Apply(s, db) == Ok(after) && t in after.tables
    ensures t in db.tables ==> after.tables[t].columns == db.tables[t].columns + Added([s], t)
    ensures t !in db.tables ==> Creates(s, t) && after.tables[t].columns == s.columns
  {
    assert Added([s], t) == if s.AddColumn? && s.table == t then {s.column} else {} by { AddedGrows([s], t); }
    if s.AddColumn? { AddedColumnIs(s.table, s.column, s.fill, db); }
  }

  lemma AddedSplits(ss: seq<Stmt>, t: string)
    requires ss != []
    ensures Added(ss, t) == Added(ss[..|ss| - 1], t) + Added([ss[|ss| - 1]], t)
  {
    AddedGrows(ss, t);
    AddedGrows([ss[|ss| - 1]], t);
  }

  lemma TablesAccounted(ss: seq<Stmt>, db: Schema, mid: Schema, after: Schema, t: string)
    requires ss != [] && (forall s :: s in ss ==> s.IsCreating()) && db.tables.Keys <= mid.tables.Keys
    requires RunAll(ss[..|ss| - 1], db) == Ok(mid) && Apply(ss[|ss| - 1], mid) == Ok(after)
    requires t in mid.tables ==> TableAccounted(ss[..|ss| - 1], db, t, mid.tables[t].columns)
    requires t in after.tables
    ensures TableAccounted(ss, db, t, after.tables[t].columns)
  {
    var init, last := ss[..|ss| - 1], ss[|ss| - 1];
    assert last in ss && forall s :: s in init ==> s in ss;
    AddedSplits(ss, t);
    ColumnsAfter(last, mid, after, t);
    if t !in mid.tables {
      NothingAddedYet(init, db, mid, t);
      AddedGrows([last], t);
      assert after.tables[t].columns == last.columns + Added(ss, t);
    } else if t !in db.tables {
      var s :| s in init && Creates(s, t) && mid.tables[t].columns == s.columns + Added(init, t);
      assert s in ss && after.tables[t].columns == s.columns + Added(ss, t);
    }
  }

  lemma NothingAddedYet(ss: seq<Stmt>, db: Schema, after: Schema, t: string)
    requires (forall s :: s in ss ==> s.IsCreating()) && RunAll(ss, db) == Ok(after) && t !in after.tables
    ensures Added(ss, t) == {}
  {
    RunSettles(ss, db);
  }

  lemma RowsAccounted(ss: seq<Stmt>, db: Schema, mid: Schema, after: Schema, t: string, k: string)
    requires ss != [] && ss[|ss| - 1].IsCreating() && Apply(ss[|ss| - 1], mid) == Ok(after)
    requires Accounted(ss[..|ss| - 1], db, mid) && Kept(mid, after)
    requires t in after.tables && k in after.tables[t].rows
    ensures RowAccounted(ss, db, t, k, after.tables[t].rows[k])
  {
    var init, last := ss[..|ss| - 1], ss[|ss| - 1];
    assert last in ss && forall s :: s in init ==> s in ss;
    if t in mid.tables && k in mid.tables[t].rows {
      assert RowAccounted(init, db, t, k, mid.tables[t].rows[k]);
      assert TableKept(mid.tables[t], after.tables[t]);
    } else {
      NewRowIsSeeded(last, mid, after, t, k);
    }
  }

  lemma NewRowIsSeeded(s: Stmt, db: Schema, after: Schema, t: string, k: string)
    requires s.IsCreating() && Apply(s, db) == Ok(after)
    requires t in after.tables && k in after.tables[t].rows && !(t in db.tables && k in db.tables[t].rows)
    ensures s.SeedRow? && s.table == t && s.key == k && after.tables[t].rows[k] == s.row
  {
    if s.AddColumn? { AddedColumnIs(s.table, s.column, s.fill, db); }
  }

  lemma {:induction false} RunIsAccounted(ss: seq<Stmt>, db: Schema)
    requires (forall s :: s in ss ==> s.IsCreating()) && Fits(db) && RunAll(ss, db).Ok?
    ensures Accounted(ss, db, RunAll(ss, db).value)
  {
    if ss != [] {
      var init, last := ss[..|ss| - 1], ss[|ss| - 1];
      assert last in ss && forall s :: s in init ==> s in ss;
      RunIsAccounted(init, db);
      RunKeeps(init, db);
      StepIsAccounted(ss, db, RunAll(init, db).value, RunAll(ss, db).value);
    }
  }

  lemma StepIsAccounted(ss: seq<Stmt>, db: Schema, mid: Schema, after: Schema)
    requires ss != [] && (forall s :: s in ss ==> s.IsCreating()) && Fits(db) && Fits(mid)
    requires RunAll(ss[..|ss| - 1], db) == Ok(mid) && Apply(ss[|ss| - 1], mid) == Ok(after)
    requires Accounted(ss[..|ss| - 1], db, mid) && Kept(db, mid)
    ensures Accounted(ss, db, after)
  {
    var init, last := ss[..|ss| - 1], ss[|ss| - 1];
    assert last in ss && forall s :: s in init ==> s in ss;
    CreatingKeeps(last, mid);
    forall t | t in after.tables ensures TableAccounted(ss, db, t, after.tables[t].columns) {
      TablesAccounted(ss, db, mid, after, t);
    }
    forall t, k | t in after.tables && k in after.tables[t].rows
      ensures RowAccounted(ss, db, t, k, after.tables[t].rows[k])
    {
      RowsAccounted(ss, db, mid, after, t, k);
    }
    forall i | i in after.indexes ensures IndexAccounted(ss, db, i, after.indexes[i]) {
      IndexesAccounted(ss, db, mid, after, i);
    }
  }

  lemma IndexesAccounted(ss: seq<Stmt>, db: Schema, mid: Schema, after: Schema, i: string)
    requires ss != [] && ss[|ss| - 1].IsCreating() && Apply(ss[|ss| - 1], mid) == Ok(after)
    requires i in mid.indexes ==> IndexAccounted(ss[..|ss| - 1], db, i, mid.indexes[i])
    requires i in after.indexes
    ensures IndexAccounted(ss, db, i, after.indexes[i])
  {
    var init, last := ss[..|ss| - 1], ss[|ss| - 1];
    assert last in ss && forall s :: s in init ==> s in ss;
  }

  // A column that was missing and that the statements add, with one and the same fill, holds it
  // in every row there was.
  lemma {:induction false} RunFills(ss: seq<Stmt>, db: Schema, table: string, column: string, fill: Cell)
    requires (forall s :: s in ss ==> s.IsCreating()) && Fits(db) && RunAll(ss, db).Ok?
    requires table in db.tables && column !in db.tables[table].columns && AddColumn(table, column, fill) in ss
    requires forall s :: s in ss && s.AddColumn? && s.table == table && s.column == column ==> s.fill == fill
    ensures var t := RunAll(ss, db).value.tables;
            && table in t && column in t[table].columns
            && forall k :: k in db.tables[table].rows ==>
                 k in t[table].rows && column in t[table].rows[k] && t[table].rows[k][column] == fill
  {
    var init, last := ss[..|ss| - 1], ss[|ss| - 1];
    assert last in ss && forall s :: s in init ==> s in ss;
    var mid, after := RunAll(init, db).value, RunAll(ss, db).value;
    RunKeeps(init, db);
    CreatingKeeps(last, mid);
    assert TableKept(mid.tables[table], after.tables[table]);
    assert TableKept(db.tables[table], mid.tables[table]);
    if AddColumn(table, column, fill) in init {
      RunFills(init, db, table, column, fill);
    } else {
      assert last == AddColumn(table, column, fill);
      RunIsAccounted(init, db);
      assert TableAccounted(init, db, table, mid.tables[table].columns);
      assert forall s :: s in init && s.AddColumn? && s.table == table && s.column == column ==> s == last;
      AddedColumnIs(table, column, fill, mid);
    }
  }

  // ------------------------------------------------------------------------------------
  // Whole runs of the migrator

  lemma PlanKeeps(body: Body, db: Schema)
    requires OnlyCreates(body) && Fits(db) && Succeeds(body, db)
    ensures var work := RunOps(Plan(body, db), Begin(db)).conn.work; Fits(work) && Kept(db, work)
  {
    RunOpsTracks(body.ops, db);
    RunKeeps(Stmts(body.ops), db);
  }

  lemma CrashKeeps(body: Body, db: Schema, n: nat)
    requires OnlyCreates(body) && Fits(db)
    ensures Fits(CrashDisk(body, db, n)) && Kept(db, CrashDisk(body, db, n))
  {
    var ops := body.ops;
    var n' := Min(n, |ops|);
    CrashLeavesPrefix(ops, n', db);
    var k := Tracked(ops[..Stop(ops, n', Begin(db))]).durable;
    assert forall s :: s in Exposed(ops)[..k] ==> s in Stmts(ops);
    RunKeeps(Exposed(ops)[..k], db);
  }

  predicate PendingCreates(d: Disk, migs: seq<Body>) {
    forall i :: |d.versions| <= i < |migs| ==> OnlyCreates(migs[i])
  }

  // A run of any fate over bodies that only create.
  lemma {:induction false} MigrateKeeps(d: Disk, migs: seq<Body>, fate: Fate)
    requires PendingCreates(d, migs) && Fits(d.schema)
    ensures Fits(Migrate(d, migs, fate).disk.schema) && Kept(d.schema, Migrate(d, migs, fate).disk.schema)
    decreases |migs| - |d.versions|
  {
    if |d.versions| < |migs| {
      var body := migs[|d.versions|];
      if (fate.Dies? && fate.done == 0) || !Succeeds(body, d.schema) {
        var n := FirstBodyStops(d, migs, fate);
        CrashKeeps(body, d.schema, n);
      } else {
        PlanKeeps(body, d.schema);
        FirstBodyDone(d, migs, fate);
        var d1 := Recorded(d, RunOps(Plan(body, d.schema), Begin(d.schema)).conn);
        var fate' := if fate.Dies? then fate.(done := fate.done - 1) else fate;
        MigrateKeeps(d1, migs, fate');
        KeptOn(d.schema, d1.schema, Migrate(d1, migs, fate').disk.schema);
      }
    }
  }

  // Whatever number of runs crash, fail or complete, no table, column, row, cell or index is lost
  // or changed.
  lemma {:induction false} HistoryKeeps(d: Disk, migs: seq<Body>, history: seq<Fate>)
    requires Wellformed(d) && PendingCreates(d, migs) && Fits(d.schema)
    ensures var after := After(d, migs, history);
            Fits(after.schema) && Kept(d.schema, after.schema) && Wellformed(after) && d.versions <= after.versions
  {
    if history != [] {
      var init, last := history[..|history| - 1], history[|history| - 1];
      HistoryKeeps(d, migs, init);
      var mid := After(d, migs, init);
      MigrateKeeps(mid, migs, last);
      VersionsStayPrefix(mid, migs, last);
      KeptOn(d.schema, mid.schema, After(d, migs, history).schema);
    }
  }

  // And the same for any crowd of migrators.
  lemma CrowdKeeps(d: Disk, acts: seq<MigrationLock.Action>, migs: seq<Body>)
    requires Wellformed(d) && PendingCreates(d, migs) && Fits(d.schema)
    ensures Kept(d.schema, MigrationLock.ActAll(MigrationLock.World(d, map[], None), acts, migs).disk.schema)
  {
    var history := MigrationLock.MigratorsSerialize(d, acts, migs);
    HistoryKeeps(d, migs, history);
  }
}
