// The migration runner: what one call of migrate() does to the database file when the
// process may die, or a statement may fail, after any single statement of any body.
//
// The runner opens a transaction before each body. executescript commits that transaction
// and then runs its statements one at a time, so the work of a body can become durable
// before the version row that says it is done.
module Migrations {
  import opened Wrappers
  import opened Schemas

  // One call on the connection. ExecuteScript below unfolds executescript.
  datatype Op =
    | Execute(stmt: Stmt)
    | CommitOpen
    | Autocommit(stmt: Stmt)

  function ExecuteScript(ss: seq<Stmt>): seq<Op> {
    [CommitOpen] + seq(|ss|, i requires 0 <= i < |ss| => Autocommit(ss[i]))
  }

  // disk is what a crash leaves; work is what the connection sees.
  datatype Conn = Conn(disk: Schema, open: bool, work: Schema)

  datatype Progress = Progress(conn: Conn, ok: bool)

  function Begin(db: Schema): Conn { Conn(db, true, db) }

  function Step(c: Conn, op: Op): Progress {
    match op
    case CommitOpen => Progress(Conn(c.work, false, c.work), true)
    case Execute(s) =>
      (match Apply(s, c.work)
       case Err => Progress(c, false)
       case Ok(w) =>
         if c.open || s.IsDml() then Progress(Conn(c.disk, true, w), true)
         else Progress(Conn(w, false, w), true))
    case Autocommit(s) =>
      (match Apply(s, c.work)
       case Err => Progress(c, false)
       case Ok(w) => Progress(Conn(w, false, w), true))
  }

  // After a script no transaction is open. A data statement then opens one and waits for the next
  // commit, any other statement is durable at once.
  lemma AfterScript(c: Conn, s: Stmt)
    requires !c.open && c.work == c.disk && Apply(s, c.work).Ok?
    ensures var c' := Step(c, Execute(s)).conn;
            && c'.work == Apply(s, c.work).value
            && if s.SeedRow? || s.CopyRows? then c'.open && c'.disk == c.disk else !c'.open && c'.disk == c'.work
  {
  }

  function RunOps(ops: seq<Op>, c: Conn): Progress {
    if ops == [] then Progress(c, true)
    else
      var p := RunOps(ops[..|ops| - 1], c);
      if p.ok then Step(p.conn, ops[|ops| - 1]) else p
  }

  lemma RunOpsNext(ops: seq<Op>, n: nat, c: Conn)
    requires n < |ops|
    ensures var p := RunOps(ops[..n], c);
            RunOps(ops[..n + 1], c) == if p.ok then Step(p.conn, ops[n]) else p
  {
    assert ops[..n + 1][..n] == ops[..n];
  }

  datatype ColumnRef = ColumnRef(table: string, column: string)

  // guard: the body returns at once when the column is already there.
  datatype Body = Body(guard: Option<ColumnRef>, ops: seq<Op>)

  predicate HasColumn(c: ColumnRef, db: Schema) {
    c.table in db.tables && c.column in db.tables[c.table].columns
  }

  function Plan(body: Body, db: Schema): seq<Op> {
    if body.guard.Some? && HasColumn(body.guard.value, db) then [] else body.ops
  }

  // The database file: its tables, and the rows of schema_version in insertion order.
  datatype Disk = Disk(schema: Schema, versions: seq<nat>)

  // Where the process stops: never, or in the body that follows `done` completed ones,
  // after `ops` of its operations.
  datatype Fate = Survives | Dies(done: nat, ops: nat)

  datatype Outcome = Done | Failed | Crashed

  datatype Run = Run(disk: Disk, outcome: Outcome)

  function Min(a: nat, b: nat): nat { if a < b then a else b }

  function Migrate(d: Disk, migs: seq<Body>, fate: Fate): Run
    decreases |migs| - |d.versions|
  {
    if |d.versions| >= |migs| then Run(d, Done)
    else
      var plan := Plan(migs[|d.versions|], d.schema);
      if fate.Dies? && fate.done == 0 then
        var p := RunOps(plan[..Min(fate.ops, |plan|)], Begin(d.schema));
        Run(Disk(p.conn.disk, d.versions), if p.ok then Crashed else Failed)
      else
        var p := RunOps(plan, Begin(d.schema));
        if !p.ok then Run(Disk(p.conn.disk, d.versions), Failed)
        else Migrate(Recorded(d, p.conn), migs, if fate.Dies? then fate.(done := fate.done - 1) else fate)
  }

  // The version row and whatever is still open reach the disk in one commit.
  function Recorded(d: Disk, c: Conn): Disk {
    Disk(c.work, d.versions + [|d.versions| + 1])
  }

  // ------------------------------------------------------------------------------------
  // What a crash in the middle of one body leaves

  function Stmts(ops: seq<Op>): seq<Stmt> {
    if ops == [] then []
    else
      var init := Stmts(ops[..|ops| - 1]);
      match ops[|ops| - 1]
      case CommitOpen => init
      case Execute(s) => init + [s]
      case Autocommit(s) => init + [s]
  }

  datatype Track = Track(durable: nat, open: bool)

  // How many of the statements are durable, and whether a transaction is open, when all succeed.
  function Tracked(ops: seq<Op>): (t: Track)
    ensures t.durable <= |Stmts(ops)|
  {
    if ops == [] then Track(0, true)
    else
      var t := Tracked(ops[..|ops| - 1]);
      match ops[|ops| - 1]
      case CommitOpen => Track(|Stmts(ops)|, false)
      case Autocommit(_) => Track(|Stmts(ops)|, false)
      case Execute(s) =>
        if t.open || s.IsDml() then Track(t.durable, true) else Track(|Stmts(ops)|, false)
  }

  // The statements of a body that can be durable while its version row is not.
  function Exposed(ops: seq<Op>): seq<Stmt> {
    Stmts(ops)[..Tracked(ops).durable]
  }

  lemma {:induction false} PrefixOps(ops: seq<Op>, n: nat)
    requires n <= |ops|
    ensures |Stmts(ops[..n])| <= |Stmts(ops)|
    ensures Stmts(ops[..n]) == Stmts(ops)[..|Stmts(ops[..n])|]
    ensures Tracked(ops[..n]).durable <= Tracked(ops).durable
  {
    if n == |ops| {
      assert ops[..n] == ops;
    } else {
      PrefixOps(ops[..|ops| - 1], n);
      assert ops[..|ops| - 1][..n] == ops[..n];
    }
  }

  // What one more operation does to the list of statements.
  lemma StmtsGrow(ops: seq<Op>, db: Schema)
    requires ops != []
    ensures var init, last := ops[..|ops| - 1], ops[|ops| - 1];
            if last.CommitOpen? then Stmts(ops) == Stmts(init)
            else Stmts(ops) == Stmts(init) + [last.stmt] && Stmts(ops)[..|Stmts(init)|] == Stmts(init) &&
                 RunAll(Stmts(ops), db) ==
                 match RunAll(Stmts(init), db) { case Err => Err case Ok(mid) => Apply(last.stmt, mid) }
  {
    if !ops[|ops| - 1].CommitOpen? {
      assert Stmts(ops)[..|Stmts(ops)| - 1] == Stmts(ops[..|ops| - 1]);
    }
  }

  // The connection sees every statement run so far; the disk has exactly the durable ones.
  lemma {:induction false} RunOpsTracks(ops: seq<Op>, db: Schema)
    ensures RunOps(ops, Begin(db)).ok == RunAll(Stmts(ops), db).Ok?
    ensures RunOps(ops, Begin(db)).ok ==>
              var c := RunOps(ops, Begin(db)).conn;
              && RunAll(Stmts(ops), db) == Ok(c.work)
              && RunAll(Exposed(ops), db) == Ok(c.disk)
              && c.open == Tracked(ops).open
  {
    if ops != [] {
      var init := ops[..|ops| - 1];
      RunOpsTracks(init, db);
      StmtsGrow(ops, db);
      var d := Tracked(ops).durable;
      if d == |Stmts(ops)| {
        assert Exposed(ops) == Stmts(ops);
      } else {
        assert d == Tracked(init).durable && Exposed(ops) == Exposed(init);
      }
    }
  }

  // The disk after a crash n operations into a body.
  function CrashDisk(body: Body, db: Schema, n: nat): Schema {
    var plan := Plan(body, db);
    RunOps(plan[..Min(n, |plan|)], Begin(db)).conn.disk
  }

  predicate Succeeds(body: Body, db: Schema) {
    RunOps(Plan(body, db), Begin(db)).ok
  }

  // A body is retry-safe when nothing but absorbing statements can become durable ahead of
  // its version row; behind a guard, nothing at all may.
  predicate Safe(body: Body) {
    && (forall s :: s in Exposed(body.ops) ==> s.IsAbsorbing())
    && (body.guard.Some? ==> Tracked(body.ops).durable == 0)
  }

  // Where a run stops: at its end, or in front of the first operation that fails.
  ghost function Stop(ops: seq<Op>, n: nat, c: Conn): (k: nat)
    requires n <= |ops|
    ensures k <= n && RunOps(ops[..k], c).ok && RunOps(ops[..n], c).conn == RunOps(ops[..k], c).conn
    ensures RunOps(ops[..n], c).ok ==> k == n
  {
    if RunOps(ops[..n], c).ok then n
    else
      RunOpsNext(ops, n - 1, c);
      Stop(ops, n - 1, c)
  }

  lemma {:induction false} StopGrows(ops: seq<Op>, n: nat, m: nat, c: Conn)
    requires n <= m <= |ops|
    ensures Stop(ops, n, c) <= Stop(ops, m, c)
  {
    if n < m && !RunOps(ops[..m], c).ok { StopGrows(ops, n, m - 1, c); }
  }

  lemma PrefixTracks(ops: seq<Op>, n: nat, db: Schema)
    requires n <= |ops|
    ensures var t, s := Tracked(ops[..n]).durable, |Stmts(ops[..n])|;
            && t <= s <= |Stmts(ops)|
            && Exposed(ops[..n]) == Stmts(ops)[..t]
            && (RunOps(ops[..n], Begin(db)).ok <==> RunAll(Stmts(ops)[..s], db).Ok?)
            && (RunOps(ops[..n], Begin(db)).ok ==>
                  RunAll(Stmts(ops)[..t], db) == Ok(RunOps(ops[..n], Begin(db)).conn.disk))
  {
    RunOpsTracks(ops[..n], db);
    PrefixOps(ops, n);
    assert Exposed(ops[..n]) == Stmts(ops)[..Tracked(ops[..n]).durable];
  }

  // A crash after n operations, or an error before that, leaves the statements that were durable
  // where the run stopped.
  lemma CrashLeavesPrefix(ops: seq<Op>, n: nat, db: Schema)
    requires n <= |ops|
    ensures var k := Tracked(ops[..Stop(ops, n, Begin(db))]).durable;
            k <= |Exposed(ops)| && RunAll(Exposed(ops)[..k], db) == Ok(RunOps(ops[..n], Begin(db)).conn.disk)
  {
    var i := Stop(ops, n, Begin(db));
    PrefixTracks(ops, i, db);
    PrefixOps(ops, i);
    assert Exposed(ops)[..Tracked(ops[..i]).durable] == Exposed(ops[..i]);
  }

  function Max(a: nat, b: nat): nat { if a < b then b else a }

  lemma DurableOfLonger(ops: seq<Op>, n: nat, m: nat)
    requires n <= |ops| && m <= |ops|
    ensures Tracked(ops[..Max(n, m)]).durable == Max(Tracked(ops[..n]).durable, Tracked(ops[..m]).durable)
  {
    var hi, lo := Max(n, m), Min(n, m);
    assert ops[..hi][..lo] == ops[..lo];
    PrefixOps(ops[..hi], lo);
  }

  // Crash n operations in, start again, crash m operations in: the disk is that of a single
  // crash after the later of the two points. A retry completes exactly when the body would have,
  // and then it is a completed run.
  lemma RetryBody(body: Body, db: Schema, n: nat, m: nat)
    requires Safe(body)
    ensures var db' := CrashDisk(body, db, n);
            && CrashDisk(body, db', m) == CrashDisk(body, db, Max(n, m))
            && (Succeeds(body, db') <==> Succeeds(body, db))
            && (Succeeds(body, db) ==>
                  RunOps(Plan(body, db'), Begin(db')).conn.work == RunOps(Plan(body, db), Begin(db)).conn.work)
  {
    var ops := Plan(body, db);
    var n', m' := Min(n, |ops|), Min(m, |ops|);
    if Tracked(body.ops).durable == 0 {
      NothingDurable(ops, n', db);
      NothingDurable(ops, Max(n', m'), db);
      NothingDurable(ops, m', db);
    } else {
      var i := Stop(ops, n', Begin(db));
      PrefixOps(ops, i);
      assert forall s :: s in Exposed(ops[..i]) ==> s in Exposed(ops);
      RetryDisk(ops, db, n', m');
      RetryEnds(ops, db, i);
    }
  }

  // Over what i operations left, and only absorbing statements of them, every operation succeeds
  // or fails as it would have.
  lemma RetryGoesAsFar(ops: seq<Op>, db: Schema, i: nat, k: nat)
    requires i <= |ops| && k <= |ops| && RunOps(ops[..i], Begin(db)).ok
    requires forall s :: s in Exposed(ops[..i]) ==> s.IsAbsorbing()
    ensures var db' := RunOps(ops[..i], Begin(db)).conn.disk;
            RunOps(ops[..k], Begin(db')).ok <==> RunOps(ops[..k], Begin(db)).ok
  {
    var db' := RunOps(ops[..i], Begin(db)).conn.disk;
    var ss, j, s := Stmts(ops), Tracked(ops[..i]).durable, |Stmts(ops[..k])|;
    PrefixTracks(ops, i, db);
    PrefixTracks(ops, k, db);
    PrefixTracks(ops, k, db');
    RestartFromPrefix(ss, j, s, db);
    if s < j {
      assert ss[..j][..s] == ss[..s];
      RunPrefix(ss[..j], s, db);
    }
  }

  lemma {:induction false} RetryStopsThere(ops: seq<Op>, db: Schema, i: nat, m: nat)
    requires i <= |ops| && m <= |ops| && RunOps(ops[..i], Begin(db)).ok
    requires forall s :: s in Exposed(ops[..i]) ==> s.IsAbsorbing()
    ensures Stop(ops, m, Begin(RunOps(ops[..i], Begin(db)).conn.disk)) == Stop(ops, m, Begin(db))
  {
    RetryGoesAsFar(ops, db, i, m);
    if !RunOps(ops[..m], Begin(db)).ok { RetryStopsThere(ops, db, i, m - 1); }
  }

  lemma RetryDisk(ops: seq<Op>, db: Schema, n: nat, m: nat)
    requires n <= |ops| && m <= |ops|
    requires forall s :: s in Exposed(ops[..Stop(ops, n, Begin(db))]) ==> s.IsAbsorbing()
    ensures var db' := RunOps(ops[..n], Begin(db)).conn.disk;
            RunOps(ops[..m], Begin(db')).conn.disk == RunOps(ops[..Max(n, m)], Begin(db)).conn.disk
  {
    var i, k := Stop(ops, n, Begin(db)), Stop(ops, m, Begin(db));
    RetryStopsThere(ops, db, i, m);
    DiskOfLonger(ops, db, i, k);
    StopGrows(ops, Min(n, m), Max(n, m), Begin(db));
    assert Stop(ops, Max(n, m), Begin(db)) == Max(i, k);
  }

  lemma DiskOfLonger(ops: seq<Op>, db: Schema, i: nat, k: nat)
    requires i <= |ops| && k <= |ops| && RunOps(ops[..i], Begin(db)).ok && RunOps(ops[..k], Begin(db)).ok
    requires forall s :: s in Exposed(ops[..i]) ==> s.IsAbsorbing()
    ensures var db' := RunOps(ops[..i], Begin(db)).conn.disk;
            RunOps(ops[..k], Begin(db')).conn.disk == RunOps(ops[..Max(i, k)], Begin(db)).conn.disk
  {
    var db' := RunOps(ops[..i], Begin(db)).conn.disk;
    RetryGoesAsFar(ops, db, i, k);
    PrefixTracks(ops, i, db);
    PrefixTracks(ops, k, db');
    PrefixTracks(ops, Max(i, k), db);
    DurableOfLonger(ops, i, k);
    RestartFromPrefix(Stmts(ops), Tracked(ops[..i]).durable, Tracked(ops[..k]).durable, db);
  }

  lemma RetryEnds(ops: seq<Op>, db: Schema, i: nat)
    requires i <= |ops| && RunOps(ops[..i], Begin(db)).ok
    requires forall s :: s in Exposed(ops[..i]) ==> s.IsAbsorbing()
    ensures var db' := RunOps(ops[..i], Begin(db)).conn.disk;
            && (RunOps(ops, Begin(db')).ok <==> RunOps(ops, Begin(db)).ok)
            && (RunOps(ops, Begin(db)).ok ==>
                  RunOps(ops, Begin(db')).conn.work == RunOps(ops, Begin(db)).conn.work)
  {
    var db' := RunOps(ops[..i], Begin(db)).conn.disk;
    var ss := Stmts(ops);
    PrefixTracks(ops, i, db);
    RetryGoesAsFar(ops, db, i, |ops|);
    assert ops[..|ops|] == ops && ss[..|ss|] == ss;
    RunOpsTracks(ops, db);
    RunOpsTracks(ops, db');
    RestartFromPrefix(ss, Tracked(ops[..i]).durable, |ss|, db);
  }

  // With nothing durable ahead of the version row, a run that does not finish changes nothing.
  lemma NothingDurable(ops: seq<Op>, n: nat, db: Schema)
    requires n <= |ops| && Tracked(ops).durable == 0
    ensures RunOps(ops[..n], Begin(db)).conn.disk == db
  {
    CrashLeavesPrefix(ops, n, db);
    assert Exposed(ops)[..0] == [];
  }

  // ------------------------------------------------------------------------------------
  // A run over what an earlier one left, whether the bodies are retry-safe or not

  predicate OnlyCreates(body: Body) {
    body.guard.None? && forall s :: s in Stmts(body.ops) ==> s.IsCreating()
  }

  // With the first statements settled and a bare CREATE after them, a run stops there and
  // has changed nothing.
  lemma {:induction false} BlockedRun(ops: seq<Op>, c: Conn, n: nat, settled: seq<Stmt>)
    requires n <= |ops| && c.disk == c.work
    requires forall s :: s in settled ==> s.IsCreating() && Settled(s, c.work)
    requires settled <= Stmts(ops)
    requires exists s :: s in settled && !s.IsAbsorbing()
    ensures RunOps(ops[..n], c).conn.disk == c.disk
    ensures |settled| <= |Stmts(ops[..n])| ==> !RunOps(ops[..n], c).ok
    ensures RunOps(ops[..n], c).ok ==>
              && RunOps(ops[..n], c).conn.work == c.work
              && |Stmts(ops[..n])| <= |settled|
              && forall i :: 0 <= i < |Stmts(ops[..n])| ==> settled[i].IsAbsorbing()
  {
    if n > 0 {
      BlockedRun(ops, c, n - 1, settled);
      RunOpsNext(ops, n - 1, c);
      assert ops[..n][..n - 1] == ops[..n - 1];
      if RunOps(ops[..n - 1], c).ok && !ops[n - 1].CommitOpen? {
        NextIsSettled(ops, n, settled);
        SettledAgain(ops[n - 1].stmt, c.work);
      }
    }
  }

  // A run that has got past absorbing statements only is still inside the settled ones.
  lemma NextIsSettled(ops: seq<Op>, n: nat, settled: seq<Stmt>)
    requires 0 < n <= |ops| && !ops[n - 1].CommitOpen? && settled <= Stmts(ops)
    requires exists s :: s in settled && !s.IsAbsorbing()
    requires |Stmts(ops[..n - 1])| <= |settled|
    requires forall i :: 0 <= i < |Stmts(ops[..n - 1])| ==> settled[i].IsAbsorbing()
    ensures |Stmts(ops[..n])| == |Stmts(ops[..n - 1])| + 1 <= |settled|
    ensures settled[|Stmts(ops[..n - 1])|] == ops[n - 1].stmt
  {
    PrefixOps(ops, n);
    assert ops[..n][..n - 1] == ops[..n - 1];
    var i := |Stmts(ops[..n - 1])|;
    assert Stmts(ops[..n])[i] == ops[n - 1].stmt;
    var s :| s in settled && !s.IsAbsorbing();
    assert i < |settled|;
  }

  // A run that left a bare CREATE behind: later ones stop at it and leave the disk alone.
  lemma RerunBlocked(ops: seq<Op>, db: Schema, n: nat, m: nat)
    requires n <= |ops| && m <= |ops| && RunOps(ops[..n], Begin(db)).ok
    requires forall s :: s in Stmts(ops) ==> s.IsCreating()
    requires exists s :: s in Exposed(ops[..n]) && !s.IsAbsorbing()
    ensures var db' := RunOps(ops[..n], Begin(db)).conn.disk;
            RunOps(ops[..m], Begin(db')).conn.disk == db' && !RunOps(ops, Begin(db')).ok
  {
    PrefixTracks(ops, n, db);
    var db' := RunOps(ops[..n], Begin(db)).conn.disk;
    var settled := Exposed(ops[..n]);
    RunSettles(settled, db);
    BlockedRun(ops, Begin(db'), m, settled);
    BlockedRun(ops, Begin(db'), |ops|, settled);
    assert ops[..|ops|] == ops;
  }

  predicate Contained(body: Body) {
    Safe(body) || OnlyCreates(body)
  }

  // Any attempt at a body over what an earlier attempt left, died or failed: the disk is that of
  // one attempt, and an attempt that finishes is a finished first one.
  lemma RerunBody(body: Body, db: Schema, n: nat, m: nat) returns (k: nat)
    requires Contained(body)
    ensures CrashDisk(body, CrashDisk(body, db, n), m) == CrashDisk(body, db, k)
    ensures var db' := CrashDisk(body, db, n);
            Succeeds(body, db') ==>
              && Succeeds(body, db)
              && RunOps(Plan(body, db'), Begin(db')).conn.work == RunOps(Plan(body, db), Begin(db)).conn.work
  {
    var ops := Plan(body, db);
    var n', m' := Min(n, |ops|), Min(m, |ops|);
    if Tracked(ops).durable == 0 {
      NothingDurable(ops, n', db);
      k := m;
    } else {
      var i := Stop(ops, n', Begin(db));
      if forall s :: s in Exposed(ops[..i]) ==> s.IsAbsorbing() {
        k := Max(n', m');
        RetryDisk(ops, db, n', m');
        RetryEnds(ops, db, i);
      } else {
        PrefixOps(ops, i);
        assert forall s :: s in Exposed(ops[..i]) ==> s in Exposed(ops);
        RerunBlocked(ops, db, i, m');
        k := n;
      }
    }
  }

  // ------------------------------------------------------------------------------------
  // Whole calls of migrate()

  // schema_version holds 1..k.
  predicate Wellformed(d: Disk) {
    forall i :: 0 <= i < |d.versions| ==> d.versions[i] == i + 1
  }

  predicate PendingSafe(d: Disk, migs: seq<Body>) {
    forall i :: |d.versions| <= i < |migs| ==> Safe(migs[i])
  }

  lemma {:induction false} VersionsStayPrefix(d: Disk, migs: seq<Body>, fate: Fate)
    requires Wellformed(d)
    ensures Wellformed(Migrate(d, migs, fate).disk)
    ensures d.versions <= Migrate(d, migs, fate).disk.versions
    ensures Migrate(d, migs, fate).outcome == Done ==>
              |Migrate(d, migs, fate).disk.versions| == Max(|d.versions|, |migs|)
    ensures Migrate(d, migs, fate).outcome != Done ==> |Migrate(d, migs, fate).disk.versions| < |migs|
    ensures fate.Survives? ==> Migrate(d, migs, fate).outcome != Crashed
    decreases |migs| - |d.versions|
  {
    if |d.versions| < |migs| && !(fate.Dies? && fate.done == 0) {
      var p := RunOps(Plan(migs[|d.versions|], d.schema), Begin(d.schema));
      if p.ok {
        VersionsStayPrefix(Recorded(d, p.conn), migs, if fate.Dies? then fate.(done := fate.done - 1) else fate);
      }
    }
  }

  predicate PendingContained(d: Disk, migs: seq<Body>) {
    forall i :: |d.versions| <= i < |migs| ==> Contained(migs[i])
  }

  // The first body of a run that does not get past it: `ops` of its operations, if it dies.
  lemma FirstBodyStops(d: Disk, migs: seq<Body>, f: Fate) returns (n: nat)
    requires |d.versions| < |migs|
    requires (f.Dies? && f.done == 0) || !Succeeds(migs[|d.versions|], d.schema)
    ensures Migrate(d, migs, f).disk == Disk(CrashDisk(migs[|d.versions|], d.schema, n), d.versions)
  {
    var plan := Plan(migs[|d.versions|], d.schema);
    n := if f.Dies? && f.done == 0 then f.ops else |plan|;
    assert plan[..|plan|] == plan;
  }

  // A run that stops in its first body, followed by any other.
  lemma StoppedRunMerges(d: Disk, migs: seq<Body>, f: Fate, g: Fate) returns (m: Fate)
    requires PendingContained(d, migs) && |d.versions| < |migs|
    requires (f.Dies? && f.done == 0) || !Succeeds(migs[|d.versions|], d.schema)
    ensures Migrate(Migrate(d, migs, f).disk, migs, g).disk == Migrate(d, migs, m).disk
  {
    var body := migs[|d.versions|];
    var n := FirstBodyStops(d, migs, f);
    var d' := Migrate(d, migs, f).disk;
    if (g.Dies? && g.done == 0) || !Succeeds(body, d'.schema) {
      var n' := FirstBodyStops(d', migs, g);
      var k := RerunBody(body, d.schema, n, n');
      m := Dies(0, k);
    } else {
      var _ := RerunBody(body, d.schema, n, 0);
      m := g;
    }
  }

  // A run of any fate followed by another leaves the disk of one run.
  lemma {:induction false} RunsMerge(d: Disk, migs: seq<Body>, f: Fate, g: Fate) returns (m: Fate)
    requires PendingContained(d, migs)
    ensures Migrate(Migrate(d, migs, f).disk, migs, g).disk == Migrate(d, migs, m).disk
    decreases |migs| - |d.versions|
  {
    m := g;
    if |d.versions| < |migs| {
      var body := migs[|d.versions|];
      if (f.Dies? && f.done == 0) || !Succeeds(body, d.schema) {
        m := StoppedRunMerges(d, migs, f, g);
      } else {
        var d1 := Recorded(d, RunOps(Plan(body, d.schema), Begin(d.schema)).conn);
        var f1 := if f.Dies? then f.(done := f.done - 1) else f;
        var m1 := RunsMerge(d1, migs, f1, g);
        m := if m1.Dies? then m1.(done := m1.done + 1) else m1;
        FirstBodyDone(d, migs, f);
        FirstBodyDone(d, migs, m);
      }
    }
  }

  // Past its first body a run goes on as one from there.
  lemma FirstBodyDone(d: Disk, migs: seq<Body>, f: Fate)
    requires |d.versions| < |migs| && Succeeds(migs[|d.versions|], d.schema) && (f.Dies? ==> f.done > 0)
    ensures var d1 := Recorded(d, RunOps(Plan(migs[|d.versions|], d.schema), Begin(d.schema)).conn);
            Migrate(d, migs, f) == Migrate(d1, migs, if f.Dies? then f.(done := f.done - 1) else f)
  {
  }

  // With retry-safe bodies the second run, uninterrupted, ends where one alone does, complete or
  // at the same error.
  lemma {:induction false} RunsConverge(d: Disk, migs: seq<Body>, f: Fate)
    requires PendingSafe(d, migs)
    ensures Migrate(Migrate(d, migs, f).disk, migs, Survives) == Migrate(d, migs, Survives)
    decreases |migs| - |d.versions|
  {
    if |d.versions| < |migs| {
      var body := migs[|d.versions|];
      var p := RunOps(Plan(body, d.schema), Begin(d.schema));
      if (f.Dies? && f.done == 0) || !p.ok {
        StoppedRunConverges(d, migs, f);
      } else {
        RunsConverge(Recorded(d, p.conn), migs, if f.Dies? then f.(done := f.done - 1) else f);
      }
    }
  }

  lemma StoppedRunConverges(d: Disk, migs: seq<Body>, f: Fate)
    requires |d.versions| < |migs| && Safe(migs[|d.versions|])
    requires (f.Dies? && f.done == 0) || !Succeeds(migs[|d.versions|], d.schema)
    ensures Migrate(Migrate(d, migs, f).disk, migs, Survives) == Migrate(d, migs, Survives)
  {
    var body := migs[|d.versions|];
    var n := FirstBodyStops(d, migs, f);
    RetryToTheEnd(body, d.schema, n);
    SameFirstBody(d, Disk(CrashDisk(body, d.schema, n), d.versions), migs);
  }

  // An uninterrupted retry records the same work, or leaves the same disk at the same error.
  lemma RetryToTheEnd(body: Body, db: Schema, n: nat)
    requires Safe(body)
    ensures var db' := CrashDisk(body, db, n);
            && (Succeeds(body, db') <==> Succeeds(body, db))
            && var p, p' := RunOps(Plan(body, db), Begin(db)), RunOps(Plan(body, db'), Begin(db'));
               if Succeeds(body, db) then p'.conn.work == p.conn.work else p'.conn.disk == p.conn.disk
  {
    var db' := CrashDisk(body, db, n);
    var most := Max(n, Max(|Plan(body, db)|, |Plan(body, db')|));
    RetryBody(body, db, n, most);
    WholePlan(body, db, most);
    WholePlan(body, db', most);
  }

  lemma WholePlan(body: Body, db: Schema, n: nat)
    requires n >= |Plan(body, db)|
    ensures CrashDisk(body, db, n) == RunOps(Plan(body, db), Begin(db)).conn.disk
  {
    assert Plan(body, db)[..|Plan(body, db)|] == Plan(body, db);
  }

  // A run depends on its disk only through what its first body does there.
  lemma SameFirstBody(d: Disk, d': Disk, migs: seq<Body>)
    requires |d.versions| < |migs| && d'.versions == d.versions
    requires var body := migs[|d.versions|];
             var p, p' := RunOps(Plan(body, d.schema), Begin(d.schema)),
                          RunOps(Plan(body, d'.schema), Begin(d'.schema));
             p.ok == p'.ok && if p.ok then p'.conn.work == p.conn.work else p'.conn.disk == p.conn.disk
    ensures Migrate(d', migs, Survives) == Migrate(d, migs, Survives)
  {
  }

  // Any number of runs, each with its own fate.
  function After(d: Disk, migs: seq<Body>, history: seq<Fate>): Disk {
    if history == [] then d
    else Migrate(After(d, migs, history[..|history| - 1]), migs, history[|history| - 1]).disk
  }

  // Every disk that any number of runs can produce is one that a single run leaves.
  lemma {:induction false} HistoryIsOneRun(d: Disk, migs: seq<Body>, history: seq<Fate>) returns (m: Fate)
    requires PendingContained(d, migs)
    ensures history != [] ==> After(d, migs, history) == Migrate(d, migs, m).disk
  {
    m := Survives;
    if history != [] {
      var init, last := history[..|history| - 1], history[|history| - 1];
      m := last;
      if init != [] {
        var f := HistoryIsOneRun(d, migs, init);
        m := RunsMerge(d, migs, f, last);
      }
    }
  }

  // With retry-safe bodies, from all of them the next uninterrupted run ends where it would have
  // ended with no crash, complete or at the same error.
  lemma CrashConvergence(d: Disk, migs: seq<Body>, history: seq<Fate>)
    requires PendingSafe(d, migs)
    ensures Migrate(After(d, migs, history), migs, Survives) == Migrate(d, migs, Survives)
  {
    var m := HistoryIsOneRun(d, migs, history);
    RunsConverge(d, migs, m);
  }

  // ------------------------------------------------------------------------------------
  // The converse: a bare CREATE that can become durable early

  // A body that only creates and exposes a bare CREATE: crash just before its version row is
  // committed, and from then on every run fails at that statement and leaves the disk as it is.
  lemma UnsafeBodyBlocks(body: Body, db: Schema, m: nat)
    requires OnlyCreates(body) && Succeeds(body, db) && !Safe(body)
    ensures var db' := CrashDisk(body, db, |body.ops|);
            !Succeeds(body, db') && CrashDisk(body, db', m) == db' && RunOps(body.ops, Begin(db')).conn.disk == db'
  {
    var ops := body.ops;
    assert ops[..|ops|] == ops;
    var db' := CrashDisk(body, db, |ops|);
    RunOpsTracks(ops, db);
    var settled := Exposed(ops);
    assert forall s :: s in settled ==> s in Stmts(ops);
    RunSettles(settled, db);
    BlockedRun(ops, Begin(db'), |ops|, settled);
    BlockedRun(ops, Begin(db'), Min(m, |ops|), settled);
  }

  // Once stuck, no later run of any fate moves the disk, and none of them completes.
  ghost predicate Stuck(d: Disk, migs: seq<Body>) {
    && |d.versions| < |migs|
    && Migrate(d, migs, Survives) == Run(d, Failed)
    && forall f :: Migrate(d, migs, f).disk == d && Migrate(d, migs, f).outcome != Done
  }

  lemma {:induction false} UnsafePendingSticks(d: Disk, migs: seq<Body>, i: nat) returns (fate: Fate)
    requires Migrate(d, migs, Survives).outcome == Done
    requires |d.versions| <= i < |migs| && OnlyCreates(migs[i]) && !Safe(migs[i])
    ensures Stuck(Migrate(d, migs, fate).disk, migs)
    decreases i - |d.versions|
  {
    var body := migs[|d.versions|];
    var p := RunOps(Plan(body, d.schema), Begin(d.schema));
    if |d.versions| == i {
      fate := Dies(0, |body.ops|);
      var d' := Migrate(d, migs, fate).disk;
      forall f ensures Migrate(d', migs, f).disk == d' && Migrate(d', migs, f).outcome != Done {
        UnsafeBodyBlocks(body, d.schema, if f.Dies? then f.ops else 0);
      }
      UnsafeBodyBlocks(body, d.schema, 0);
    } else {
      var f := UnsafePendingSticks(Recorded(d, p.conn), migs, i);
      assert Migrate(Recorded(d, p.conn), migs, Survives).outcome == Done;
      if f.Dies? {
        fate := f.(done := f.done + 1);
      } else {
        fate := f;
      }
    }
  }

  ghost predicate Converges(d: Disk, migs: seq<Body>) {
    forall history :: Migrate(After(d, migs, history), migs, Survives) == Migrate(d, migs, Survives)
  }

  // Exactly when crashes are harmless: no pending body can make a bare CREATE durable ahead
  // of its version row.
  lemma ConvergesIffSafe(d: Disk, migs: seq<Body>)
    requires Migrate(d, migs, Survives).outcome == Done
    requires PendingContained(d, migs)
    ensures Converges(d, migs) <==> PendingSafe(d, migs)
  {
    if PendingSafe(d, migs) {
      forall history ensures Migrate(After(d, migs, history), migs, Survives) == Migrate(d, migs, Survives) {
        CrashConvergence(d, migs, history);
      }
    } else {
      var i :| |d.versions| <= i < |migs| && !Safe(migs[i]);
      var fate := UnsafePendingSticks(d, migs, i);
      assert After(d, migs, []) == d;
      assert [fate][..0] == [];
      assert After(d, migs, [fate]) == Migrate(d, migs, fate).disk;
    }
  }

  // ------------------------------------------------------------------------------------
  // What a recorded version stands for

  // The schema after the bodies up to version k have all run to the end, once each.
  function Through(d: Disk, migs: seq<Body>, k: nat): Schema
    requires |d.versions| <= k <= |migs|
  {
    if k == |d.versions| then d.schema
    else
      var before := Through(d, migs, k - 1);
      RunOps(Plan(migs[k - 1], before), Begin(before)).conn.work
  }

  lemma {:induction false} ThroughFromRecorded(d: Disk, migs: seq<Body>, k: nat)
    requires |d.versions| < k <= |migs|
    ensures var c := RunOps(Plan(migs[|d.versions|], d.schema), Begin(d.schema)).conn;
            Through(d, migs, k) == Through(Recorded(d, c), migs, k)
  {
    var v := |d.versions|;
    assert Through(d, migs, v) == d.schema;
    if k > v + 1 { ThroughFromRecorded(d, migs, k - 1); }
  }

  // A database that records versions 1..k holds the completed work of all of them, and of
  // version k + 1 at most what one crash leaves.
  lemma {:induction false} RecordedMeansApplied(d: Disk, migs: seq<Body>, f: Fate) returns (n: nat)
    requires |d.versions| <= |migs|
    ensures var r := Migrate(d, migs, f).disk;
            && |d.versions| <= |r.versions| <= |migs|
            && r.schema == var all := Through(d, migs, |r.versions|);
                           if |r.versions| < |migs| then CrashDisk(migs[|r.versions|], all, n) else all
    decreases |migs| - |d.versions|
  {
    n := 0;
    if |d.versions| < |migs| {
      var body := migs[|d.versions|];
      var plan := Plan(body, d.schema);
      var p := RunOps(plan, Begin(d.schema));
      if f.Dies? && f.done == 0 {
        n := f.ops;
      } else if !p.ok {
        n := |plan|;
        assert plan[..|plan|] == plan;
      } else {
        var f' := if f.Dies? then f.(done := f.done - 1) else f;
        n := RecordedMeansApplied(Recorded(d, p.conn), migs, f');
        ThroughFromRecorded(d, migs, |Migrate(d, migs, f).disk.versions|);
      }
    }
  }

  // The same over any history of runs, crashed, failed or completed, and whether or not a body
  // can become stuck.
  lemma HistoryMeansApplied(d: Disk, migs: seq<Body>, history: seq<Fate>) returns (n: nat)
    requires PendingContained(d, migs) && |d.versions| <= |migs|
    ensures var r := After(d, migs, history);
            && |d.versions| <= |r.versions| <= |migs|
            && r.schema == var all := Through(d, migs, |r.versions|);
                           if |r.versions| < |migs| then CrashDisk(migs[|r.versions|], all, n) else all
  {
    if history == [] {
      n := 0;
      assert Through(d, migs, |d.versions|) == d.schema;
      if |d.versions| < |migs| { assert Plan(migs[|d.versions|], d.schema)[..0] == []; }
    } else {
      var m := HistoryIsOneRun(d, migs, history);
      n := RecordedMeansApplied(d, migs, m);
    }
  }
}
