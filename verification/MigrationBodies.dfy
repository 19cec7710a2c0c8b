// Four bodies of the migration list, and where each of them stands.
module MigrationBodies {
  import opened Wrappers
  import opened Schemas
  import opened Migrations

  function AddColumns(table: string, columns: seq<(string, Cell)>): seq<Op> {
    seq(|columns|, i requires 0 <= i < |columns| => Execute(AddColumn(table, columns[i].0, columns[i].1)))
  }

  // Threads, contacts, and the signal columns.
  function Migration12(): Body {
    Body(None,
         ExecuteScript([
                         EnsureTable("threads", {"id", "name", "status", "current_deadline", "owner", "key_entities",
                                                 "summary", "created_at", "updated_at",
                                                 "signal_count", "source_channels"}),
                         EnsureTable("contacts", {"id", "display_name", "email", "organization", "relationship",
                                                  "first_seen", "last_seen", "signal_count"})])
         + AddColumns("signals", [("action_type", Null), ("urgency", Null), ("direction", Null), ("entity_org", Null),
                                  ("is_direct", Null), ("cc_count", Null),
                                  ("thread_id", Null), ("intel_tier", Text("0"))]))
  }

  // Column adds inside the opening transaction, a script that commits them, then statements
  // that commit one at a time.
  function Migration18(): Body {
    Body(None,
         AddColumns("signals", [("summary", Null), ("summary_model", Null), ("summary_ms", Null),
                                ("sender_trust", Null), ("sender_contact_id", Null)])
         + AddColumns("contacts", [("phone", Null), ("title", Null), ("outbound_count", Text("0")),
                                   ("user_endorsed", Text("0")), ("discovered_via", Null),
                                   ("tags", Text("[]")), ("notes", Null)])
         + ExecuteScript([EnsureTable("contact_channels", {"id", "contact_id", "channel_type", "handle", "display_name",
                                                           "verified", "created_at", "first_seen", "last_seen"})])
         + [Execute(EnsureIndex("idx_cc_handle", "contact_channels")),
            Execute(EnsureIndex("idx_cc_contact", "contact_channels")),
            Execute(EnsureIndex("idx_contact_channels_lookup", "contact_channels")),
            Execute(AddColumn("session_entities", "contact_id", Null))])
  }

  // 0021_scheduled_actions.sql: none of its CREATE statements says IF NOT EXISTS.
  function Migration21(): Body {
    Body(None,
         ExecuteScript([
                         CreateTable("scheduled_actions", {"id", "name", "trigger_type",
                                                           "trigger_config", "action_type",
                                                           "action_config", "enabled", "active_from", "active_until",
                                                           "last_run_at", "next_run_at", "last_status", "last_error",
                                                           "run_count", "consecutive_failures", "created_by",
                                                           "created_via", "trust_tier", "created_at", "updated_at"}),
                         CreateIndex("idx_scheduled_actions_due", "scheduled_actions"),
                         CreateTable("scheduled_action_runs", {"id", "action_id", "started_at", "finished_at", "status",
                                                               "duration_ms", "output_preview", "error", "trace_id"}),
                         CreateIndex("idx_scheduled_action_runs_action", "scheduled_action_runs")]))
  }

  const ITEMS := "checklist_instance_items"
  const ITEMS_NEW := "checklist_instance_items_new"
  const ITEMS_INDEX := "idx_cii_instance_id"
  const ITEM_COLUMNS := {"id", "instance_id", "template_item_id", "label", "position", "completed_at", "deadline_at",
                         "deadline_action_ids", "rollover_prompted_at", "status", "metadata"}
  const ITEM_EXTRA: Row := map["status" := Text("open"), "metadata" := Null]

  // The guarded rebuild, all of it inside the opening transaction.
  function Migration37(): Body {
    Body(Some(ColumnRef(ITEMS, "status")),
         [Execute(CreateTable(ITEMS_NEW, ITEM_COLUMNS)),
          Execute(CopyRows(ITEMS, ITEMS_NEW, ITEM_EXTRA)),
          Execute(DropTable(ITEMS)),
          Execute(RenameTable(ITEMS_NEW, ITEMS)),
          Execute(CreateIndex(ITEMS_INDEX, ITEMS))])
  }

  lemma {:induction false} StmtsComeFromOps(ops: seq<Op>, p: Stmt -> bool)
    requires forall op :: op in ops ==> op.CommitOpen? || p(op.stmt)
    ensures forall s :: s in Stmts(ops) ==> p(s)
  {
    if ops != [] {
      var init, last := ops[..|ops| - 1], ops[|ops| - 1];
      assert forall op :: op in init ==> op in ops;
      assert last in ops;
      StmtsComeFromOps(init, p);
    }
  }

  // A body whose statements are all absorbing may mix scripts and single statements freely.
  lemma AbsorbingBodyIsSafe(body: Body)
    requires body.guard.None?
    requires forall op :: op in body.ops ==> op.CommitOpen? || op.stmt.IsAbsorbing()
    ensures Safe(body) && OnlyCreates(body)
  {
    StmtsComeFromOps(body.ops, (s: Stmt) => s.IsAbsorbing());
    assert forall s :: s in Exposed(body.ops) ==> s in Stmts(body.ops);
  }

  // A body with no script has nothing durable ahead of its version row.
  lemma {:induction false} NoScriptNothingExposed(ops: seq<Op>)
    requires forall op :: op in ops ==> op.Execute?
    ensures Tracked(ops) == Track(0, true)
  {
    if ops != [] {
      var init, last := ops[..|ops| - 1], ops[|ops| - 1];
      assert forall op :: op in init ==> op in ops;
      assert last in ops;
      NoScriptNothingExposed(init);
    }
  }

  lemma {:induction false} ScriptStatementIsExposed(ops: seq<Op>, i: nat)
    requires i < |ops| && ops[i].Autocommit?
    ensures ops[i].stmt in Exposed(ops)
  {
    var init := ops[..|ops| - 1];
    if i == |ops| - 1 {
      assert Exposed(ops) == Stmts(ops);
      assert Stmts(ops)[|Stmts(ops)| - 1] == ops[i].stmt;
    } else {
      ScriptStatementIsExposed(init, i);
      PrefixOps(ops, |ops| - 1);
      var k :| 0 <= k < |Exposed(init)| && Exposed(init)[k] == ops[i].stmt;
      assert Stmts(init)[k] == Stmts(ops)[k] == Exposed(ops)[k];
    }
  }

  lemma Migration12IsSafe()
    ensures Safe(Migration12()) && OnlyCreates(Migration12())
  {
    AbsorbingBodyIsSafe(Migration12());
  }

  lemma Migration18IsSafe()
    ensures Safe(Migration18()) && OnlyCreates(Migration18())
  {
    AbsorbingBodyIsSafe(Migration18());
  }

  // A crash while migration 21 runs can leave a database that no later run upgrades.
  lemma Migration21IsUnsafe()
    ensures OnlyCreates(Migration21()) && !Safe(Migration21())
  {
    var body := Migration21();
    StmtsComeFromOps(body.ops, (s: Stmt) => s.IsCreating());
    ScriptStatementIsExposed(body.ops, 1);
  }

  // So what holds of any contained bodies holds of these.
  lemma BodiesAreContained()
    ensures Contained(Migration12()) && Contained(Migration18())
    ensures Contained(Migration21()) && Contained(Migration37())
  {
    Migration12IsSafe();
    Migration18IsSafe();
    Migration21IsUnsafe();
    NoScriptNothingExposed(Migration37().ops);
  }

  lemma Migration21Sticks(d: Disk, migs: seq<Body>) returns (fate: Fate)
    requires Migrate(d, migs, Survives).outcome == Done
    requires |d.versions| <= 20 < |migs| && migs[20] == Migration21()
    ensures Stuck(Migrate(d, migs, fate).disk, migs)
  {
    Migration21IsUnsafe();
    fate := UnsafePendingSticks(d, migs, 20);
  }

  // A crash anywhere in the rebuild, or an error, leaves the database as it was.
  lemma RebuildIsAllOrNothing(db: Schema, n: nat)
    ensures Safe(Migration37()) && CrashDisk(Migration37(), db, n) == db
  {
    var body := Migration37();
    NoScriptNothingExposed(body.ops);
    var plan := Plan(body, db);
    NoScriptNothingExposed(plan);
    NothingDurable(plan, Min(n, |plan|), db);
  }

  // Create, copy, drop, rename, on any table: what each statement leaves.
  lemma RebuildStatements(db: Schema, items: string, temp: string, cols: set<string>, extra: Row)
    returns (s1: Schema, s2: Schema, s3: Schema, s4: Schema)
    requires items in db.tables && temp !in db.tables
    ensures Apply(CreateTable(temp, cols), db) == Ok(s1)
    ensures Apply(CopyRows(items, temp, extra), s1) == Ok(s2)
    ensures Apply(DropTable(items), s2) == Ok(s3)
    ensures Apply(RenameTable(temp, items), s3) == Ok(s4)
    ensures s4.tables == db.tables[items := Table(cols, Extend(db.tables[items].rows, extra))]
    ensures forall i :: i in s4.indexes <==> i in db.indexes && db.indexes[i] != items
    ensures forall i :: i in s4.indexes && db.indexes[i] != temp ==> s4.indexes[i] == db.indexes[i]
  {
    var rebuilt := Table(cols, Extend(db.tables[items].rows, extra));
    s1 := Schema(db.tables[temp := Table(cols, map[])], db.indexes);
    assert map[] + Extend(db.tables[items].rows, extra) == rebuilt.rows;
    s2 := Schema(s1.tables[temp := rebuilt], db.indexes);
    s3 := Apply(DropTable(items), s2).value;
    s4 := Apply(RenameTable(temp, items), s3).value;
  }

  // The indexes on the table have gone with it, all but the new one; the others stay.
  predicate IndexRebuilt(before: map<string, string>, after: map<string, string>, items: string, index: string) {
    && index in after && after[index] == items
    && (forall i :: i in before && before[i] != items ==> i in after && after[i] == before[i])
    && (forall i :: i in after && i != index ==> i in before && before[i] != items)
  }

  function Then(r: Result<Schema>, s: Stmt): Result<Schema> {
    match r
    case Err => Err
    case Ok(db) => Apply(s, db)
  }

  lemma RunFive(a: Stmt, b: Stmt, c: Stmt, d: Stmt, e: Stmt, db: Schema)
    ensures RunAll([a, b, c, d, e], db) == Then(Then(Then(Then(Apply(a, db), b), c), d), e)
  {
    var ss := [a, b, c, d, e];
    assert ss[..4] == [a, b, c, d] && ss[..4][..3] == [a, b, c] && ss[..4][..3][..2] == [a, b];
    assert ss[..4][..3][..2][..1] == [a] && [a][..0] == [];
    assert RunAll([a], db) == Apply(a, db);
    assert RunAll([a, b], db) == Then(Apply(a, db), b);
    assert RunAll([a, b, c], db) == Then(Then(Apply(a, db), b), c);
  }

  lemma RebuildRuns(db: Schema, items: string, temp: string, index: string, cols: set<string>, extra: Row)
    requires items in db.tables
    ensures var r := RunAll([CreateTable(temp, cols), CopyRows(items, temp, extra), DropTable(items),
                             RenameTable(temp, items), CreateIndex(index, items)], db);
            && (r.Ok? <==> temp !in db.tables && (index in db.indexes ==> db.indexes[index] == items))
            && (r.Ok? ==> r.value.tables == db.tables[items := Table(cols, Extend(db.tables[items].rows, extra))])
            && (r.Ok? && (forall i :: i in db.indexes ==> db.indexes[i] in db.tables) ==>
                  IndexRebuilt(db.indexes, r.value.indexes, items, index))
  {
    RunFive(CreateTable(temp, cols), CopyRows(items, temp, extra), DropTable(items),
            RenameTable(temp, items), CreateIndex(index, items), db);
    if temp !in db.tables {
      var s1, s2, s3, s4 := RebuildStatements(db, items, temp, cols, extra);
    }
  }

  lemma FiveStmts(a: Stmt, b: Stmt, c: Stmt, d: Stmt, e: Stmt)
    ensures Stmts([Execute(a), Execute(b), Execute(c), Execute(d), Execute(e)]) == [a, b, c, d, e]
  {
    var ops := [Execute(a), Execute(b), Execute(c), Execute(d), Execute(e)];
    assert ops[..4] == [Execute(a), Execute(b), Execute(c), Execute(d)];
    assert ops[..4][..3] == [Execute(a), Execute(b), Execute(c)] && ops[..4][..3][..2] == [Execute(a), Execute(b)];
    assert [Execute(a), Execute(b)][..1] == [Execute(a)] && [Execute(a)][..0] == [];
    assert Stmts([Execute(a)]) == [a];
    assert Stmts([Execute(a), Execute(b)]) == [a, b];
    assert Stmts([Execute(a), Execute(b), Execute(c)]) == [a, b, c];
  }

  // An item as it was, open and with no metadata.
  predicate ItemRebuilt(before: Row, after: Row) {
    && after.Keys == before.Keys + {"status", "metadata"}
    && after["status"] == Text("open") && after["metadata"] == Null
    && forall c :: c in before && c != "status" && c != "metadata" ==> after[c] == before[c]
  }

  predicate ItemsRebuilt(before: Schema, after: Schema) {
    && ITEMS in before.tables && after.tables.Keys == before.tables.Keys
    && (forall t :: t in before.tables && t != ITEMS ==> after.tables[t] == before.tables[t])
    && after.tables[ITEMS].columns == ITEM_COLUMNS
    && after.tables[ITEMS].rows.Keys == before.tables[ITEMS].rows.Keys
    && (forall k :: k in before.tables[ITEMS].rows ==>
          ItemRebuilt(before.tables[ITEMS].rows[k], after.tables[ITEMS].rows[k]))
    && IndexRebuilt(before.indexes, after.indexes, ITEMS, ITEMS_INDEX)
  }

  // The rebuild succeeds exactly when its two new names are free, keeps every row, gives each
  // the two new columns, and touches no other table. Once the column is there it does nothing.
  lemma RebuildKeepsRows(db: Schema)
    requires ITEMS in db.tables && forall i :: i in db.indexes ==> db.indexes[i] in db.tables
    ensures var p := RunOps(Plan(Migration37(), db), Begin(db));
            if "status" in db.tables[ITEMS].columns then p == Progress(Begin(db), true)
            else
              && (p.ok <==> ITEMS_NEW !in db.tables
                            && (ITEMS_INDEX in db.indexes ==> db.indexes[ITEMS_INDEX] == ITEMS))
              && (p.ok ==> ItemsRebuilt(db, p.conn.work))
  {
    if "status" !in db.tables[ITEMS].columns { RebuildWorks(db); }
  }

  lemma RebuildWorks(db: Schema)
    requires ITEMS in db.tables && "status" !in db.tables[ITEMS].columns
    requires forall i :: i in db.indexes ==> db.indexes[i] in db.tables
    ensures var p := RunOps(Plan(Migration37(), db), Begin(db));
            && (p.ok <==> ITEMS_NEW !in db.tables && (ITEMS_INDEX in db.indexes ==> db.indexes[ITEMS_INDEX] == ITEMS))
            && (p.ok ==> ItemsRebuilt(db, p.conn.work))
  {
    RunOpsTracks(Migration37().ops, db);
    FiveStmts(CreateTable(ITEMS_NEW, ITEM_COLUMNS), CopyRows(ITEMS, ITEMS_NEW, ITEM_EXTRA), DropTable(ITEMS),
              RenameTable(ITEMS_NEW, ITEMS), CreateIndex(ITEMS_INDEX, ITEMS));
    RebuildRuns(db, ITEMS, ITEMS_NEW, ITEMS_INDEX, ITEM_COLUMNS, ITEM_EXTRA);
    var p := RunOps(Plan(Migration37(), db), Begin(db));
    if p.ok { ItemsAre(db, p.conn.work, ITEM_COLUMNS); }
  }

  lemma ItemsAre(db: Schema, after: Schema, cols: set<string>)
    requires ITEMS in db.tables && cols == ITEM_COLUMNS
    requires after.tables == db.tables[ITEMS := Table(cols, Extend(db.tables[ITEMS].rows, ITEM_EXTRA))]
    requires IndexRebuilt(db.indexes, after.indexes, ITEMS, ITEMS_INDEX)
    ensures ItemsRebuilt(db, after)
  {
    forall k | k in db.tables[ITEMS].rows
      ensures ItemRebuilt(db.tables[ITEMS].rows[k], after.tables[ITEMS].rows[k])
    {
      ItemIs(db.tables[ITEMS].rows[k]);
    }
  }

  lemma ItemIs(row: Row)
    ensures ItemRebuilt(row, row + ITEM_EXTRA)
  {
    assert ITEM_EXTRA.Keys == {"status", "metadata"};
  }
}
