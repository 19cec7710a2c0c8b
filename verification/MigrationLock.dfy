// Any number of processes calling migrate() at once. The lock is an exclusive flock: the
// kernel drops it when its holder exits or dies.
module MigrationLock {
  import opened Wrappers
  import opened Migrations

  // Polls until the lock is free or the deadline has passed. free(i) says whether the i-th
  // attempt finds the lock free, now(i) is the clock at its i-th reading: it may stand still for
  // a while, but in the end it passes any deadline.
  method AcquireLock(free: nat -> bool, now: nat -> int, timeout: int) returns (acquired: bool, polls: nat)
    requires forall i: nat, j: nat :: i <= j ==> now(i) <= now(j)
    requires exists i: nat :: now(i) >= now(0) + timeout
    ensures forall i: nat :: i < polls ==> !free(i)
    ensures forall i: nat :: 0 < i <= polls ==> now(i) < now(0) + timeout
    ensures acquired <==> free(polls)
    ensures !acquired ==> now(polls + 1) >= now(0) + timeout
  {
    var deadline := now(0) + timeout;
    ghost var late: nat :| now(late) >= deadline;
    polls := 0;
    while true
      invariant forall i: nat :: i < polls ==> !free(i)
      invariant forall i: nat :: 0 < i <= polls ==> now(i) < deadline
      invariant polls <= late
      decreases late - polls
    {
      if free(polls) { return true, polls; }
      if now(polls + 1) >= deadline { return false, polls; }
      polls := polls + 1;
    }
  }

  datatype Phase =
    | Waiting
    | Locked
    | Ready(current: nat, next: nat)
    | Working(current: nat, next: nat, plan: seq<Op>, pos: nat, conn: Conn)
    | Gone

  predicate Holds(ph: Phase) { ph.Locked? || ph.Ready? || ph.Working? }

  datatype World = World(disk: Disk, procs: map<nat, Phase>, holder: Option<nat>)

  datatype Action =
    | Start(p: nat)
    | TryLock(p: nat)
    | TimeOut(p: nat)
    | ReadVersion(p: nat)
    | NextVersion(p: nat)
    | RunOp(p: nat)
    | Record(p: nat)
    | Crash(p: nat)

  function MaxVersion(vs: seq<nat>): nat {
    if vs == [] then 0 else Max(MaxVersion(vs[..|vs| - 1]), vs[|vs| - 1])
  }

  function Exit(w: World, p: nat): World {
    w.(procs := w.procs[p := Gone], holder := if w.holder == Some(p) then None else w.holder)
  }

  // One step of one process; a step that its phase does not allow changes nothing.
  function Act(w: World, a: Action, migs: seq<Body>): World {
    if a.Start? then
      if a.p in w.procs then w else w.(procs := w.procs[a.p := Waiting])
    else if a.p !in w.procs then w
    else match (a, w.procs[a.p])
      case (TryLock(p), Waiting) =>
        if w.holder.None? then w.(procs := w.procs[p := Locked], holder := Some(p)) else w
      case (TimeOut(p), Waiting) =>
        if w.holder.Some? then Exit(w, p) else w
      case (ReadVersion(p), Locked) =>
        w.(procs := w.procs[p := Ready(MaxVersion(w.disk.versions), 1)])
      case (NextVersion(p), Ready(current, next)) =>
        if next > |migs| then Exit(w, p)
        else if next <= current then w.(procs := w.procs[p := Ready(current, next + 1)])
        else
             w.(procs := w.procs[p := Working(current, next,
                                              Plan(migs[next - 1], w.disk.schema), 0, Begin(w.disk.schema))])
      case (RunOp(p), Working(current, next, plan, pos, conn)) =>
        if pos >= |plan| then w
        else
          var s := Step(conn, plan[pos]);
          var w' := w.(disk := w.disk.(schema := s.conn.disk));
          if s.ok then w'.(procs := w.procs[p := Working(current, next, plan, pos + 1, s.conn)]) else Exit(w', p)
      case (Record(p), Working(current, next, plan, pos, conn)) =>
        if pos < |plan| then w
        else if next in w.disk.versions then Exit(w, p)
        else w.(disk := Disk(conn.work, w.disk.versions + [next]), procs := w.procs[p := Ready(current, next + 1)])
      case (Crash(p), _) => Exit(w, p)
      case _ => w
  }

  function ActAll(w: World, acts: seq<Action>, migs: seq<Body>): World {
    if acts == [] then w else Act(ActAll(w, acts[..|acts| - 1], migs), acts[|acts| - 1], migs)
  }

  lemma {:induction false} MaxOfPrefix(vs: seq<nat>)
    requires forall i :: 0 <= i < |vs| ==> vs[i] == i + 1
    ensures MaxVersion(vs) == |vs|
  {
    if vs != [] { MaxOfPrefix(vs[..|vs| - 1]); }
  }

  // One holder at most, and the kernel knows which.
  predicate Exclusive(w: World) {
    && (w.holder.Some? ==> w.holder.value in w.procs)
    && forall p :: p in w.procs ==> (Holds(w.procs[p]) <==> w.holder == Some(p))
  }

  // What the holder knows of the disk: `history` is a list of solo runs that leave this very
  // disk, the last of them the one under way.
  predicate PhaseLinked(ph: Phase, disk: Disk, d0: Disk, migs: seq<Body>, history: seq<Fate>) {
    match ph
    case Ready(current, next) =>
      1 <= next && if next <= current then |disk.versions| == current else next == |disk.versions| + 1
    case Working(current, next, plan, pos, conn) =>
      && current < next == |disk.versions| + 1 <= |migs|
      && pos <= |plan| && history != [] && history[|history| - 1] == Dies(0, pos)
      && var base := After(d0, migs, history[..|history| - 1]);
         && base.versions == disk.versions
         && plan == Plan(migs[next - 1], base.schema)
         && RunOps(plan[..pos], Begin(base.schema)) == Progress(conn, true)
    case _ => true
  }

  predicate Linked(w: World, d0: Disk, migs: seq<Body>, history: seq<Fate>) {
    && Exclusive(w)
    && Wellformed(w.disk)
    && After(d0, migs, history) == w.disk
    && (w.holder.Some? ==> PhaseLinked(w.procs[w.holder.value], w.disk, d0, migs, history))
  }

  lemma AfterOneMore(d0: Disk, migs: seq<Body>, h: seq<Fate>, f: Fate)
    ensures After(d0, migs, h + [f]) == Migrate(After(d0, migs, h), migs, f).disk
  {
    assert (h + [f])[..|h|] == h;
  }

  lemma ExclusiveStays(w: World, a: Action, migs: seq<Body>)
    requires Exclusive(w)
    ensures Exclusive(Act(w, a, migs))
  {
  }

  // A process that does not hold the lock cannot move the disk or its holder's phase, except
  // by taking a free lock.
  lemma BystanderStep(w: World, a: Action, migs: seq<Body>)
    requires Exclusive(w) && w.holder != Some(a.p)
    ensures var w' := Act(w, a, migs);
            && w'.disk == w.disk
            && (w'.holder == w.holder || (w'.holder == Some(a.p) && w'.procs[a.p] == Locked))
            && (w.holder.Some? ==> w'.holder == w.holder && w'.procs[w.holder.value] == w.procs[w.holder.value])
  {
  }

  // A solo run that dies after the statements run so far, or after one more.
  lemma SoloStep(base: Disk, migs: seq<Body>, plan: seq<Op>, pos: nat, conn: Conn)
    requires |base.versions| < |migs| && plan == Plan(migs[|base.versions|], base.schema)
    requires pos < |plan| && RunOps(plan[..pos], Begin(base.schema)) == Progress(conn, true)
    ensures RunOps(plan[..pos + 1], Begin(base.schema)) == Step(conn, plan[pos])
    ensures Migrate(base, migs, Dies(0, pos + 1)).disk == Disk(Step(conn, plan[pos]).conn.disk, base.versions)
  {
    RunOpsNext(plan, pos, Begin(base.schema));
  }

  lemma SoloRecord(base: Disk, migs: seq<Body>, plan: seq<Op>, conn: Conn)
    requires |base.versions| < |migs| && plan == Plan(migs[|base.versions|], base.schema)
    requires RunOps(plan[..|plan|], Begin(base.schema)) == Progress(conn, true)
    ensures Migrate(base, migs, Dies(1, 0)).disk == Recorded(base, conn)
  {
    assert plan[..|plan|] == plan;
    var r := Recorded(base, conn);
    if |r.versions| < |migs| {
      assert Plan(migs[|r.versions|], r.schema)[..0] == [];
    }
  }

  // One more statement of the body under way: the same as a solo run dying one step later.
  lemma RunOpLinks(w: World, p: nat, d0: Disk, migs: seq<Body>, h: seq<Fate>) returns (h': seq<Fate>)
    requires Linked(w, d0, migs, h) && w.holder == Some(p) && w.procs[p].Working?
    ensures Linked(Act(w, RunOp(p), migs), d0, migs, h')
    ensures Act(w, RunOp(p), migs).disk.versions == w.disk.versions
  {
    h' := h;
    var Working(current, next, plan, pos, conn) := w.procs[p];
    ExclusiveStays(w, RunOp(p), migs);
    if pos < |plan| {
      var h0 := h[..|h| - 1];
      var s := Step(conn, plan[pos]);
      h' := h0 + [Dies(0, pos + 1)];
      WorkingStep(w.disk, d0, migs, h, w.procs[p]);
      if s.ok {
        assert Act(w, RunOp(p), migs).procs[p] == Working(current, next, plan, pos + 1, s.conn);
      } else {
        assert Act(w, RunOp(p), migs).holder == None;
      }
    }
  }

  // The same, for what the holder knows.
  lemma WorkingStep(disk: Disk, d0: Disk, migs: seq<Body>, h: seq<Fate>, ph: Phase)
    requires ph.Working? && ph.pos < |ph.plan| && PhaseLinked(ph, disk, d0, migs, h)
    ensures var s := Step(ph.conn, ph.plan[ph.pos]);
            var h' := h[..|h| - 1] + [Dies(0, ph.pos + 1)];
            var disk' := disk.(schema := s.conn.disk);
            && After(d0, migs, h') == disk'
            && (s.ok ==> PhaseLinked(ph.(pos := ph.pos + 1, conn := s.conn), disk', d0, migs, h'))
  {
    var h0 := h[..|h| - 1];
    AfterOneMore(d0, migs, h0, Dies(0, ph.pos + 1));
    SoloStep(After(d0, migs, h0), migs, ph.plan, ph.pos, ph.conn);
    assert (h0 + [Dies(0, ph.pos + 1)])[..|h0|] == h0;
  }

  // The commit that records a version: the same as a solo run dying right after it.
  lemma RecordLinks(w: World, p: nat, d0: Disk, migs: seq<Body>, h: seq<Fate>) returns (h': seq<Fate>)
    requires Linked(w, d0, migs, h) && w.holder == Some(p) && w.procs[p].Working?
    ensures Linked(Act(w, Record(p), migs), d0, migs, h')
    ensures w.disk.versions <= Act(w, Record(p), migs).disk.versions
  {
    h' := h;
    var Working(_, next, plan, pos, conn) := w.procs[p];
    ExclusiveStays(w, Record(p), migs);
    if pos == |plan| {
      h' := h[..|h| - 1] + [Dies(1, 0)];
      WorkingEnd(w.disk, d0, migs, h, w.procs[p]);
      NextIsNew(w.disk, next);
    }
  }

  lemma NextIsNew(d: Disk, next: nat)
    requires Wellformed(d) && next == |d.versions| + 1
    ensures next !in d.versions && Wellformed(Disk(d.schema, d.versions + [next]))
  {
  }

  lemma WorkingEnd(disk: Disk, d0: Disk, migs: seq<Body>, h: seq<Fate>, ph: Phase)
    requires ph.Working? && ph.pos == |ph.plan| && PhaseLinked(ph, disk, d0, migs, h)
    ensures After(d0, migs, h[..|h| - 1] + [Dies(1, 0)]) == Disk(ph.conn.work, disk.versions + [ph.next])
  {
    var h0 := h[..|h| - 1];
    AfterOneMore(d0, migs, h0, Dies(1, 0));
    SoloRecord(After(d0, migs, h0), migs, ph.plan, ph.conn);
  }

  lemma NextVersionLinks(w: World, p: nat, d0: Disk, migs: seq<Body>, h: seq<Fate>) returns (h': seq<Fate>)
    requires Linked(w, d0, migs, h) && w.holder == Some(p) && w.procs[p].Ready?
    ensures Linked(Act(w, NextVersion(p), migs), d0, migs, h')
    ensures Act(w, NextVersion(p), migs).disk == w.disk
  {
    h' := h;
    var Ready(current, next) := w.procs[p];
    ExclusiveStays(w, NextVersion(p), migs);
    if current < next <= |migs| {
      h' := h + [Dies(0, 0)];
      AfterOneMore(d0, migs, h, Dies(0, 0));
      assert h'[..|h|] == h;
      assert Plan(migs[next - 1], w.disk.schema)[..0] == [];
    }
  }

  // Whatever one process does next, the disk is still one that solo runs leave.
  lemma StepStaysLinked(w: World, a: Action, d0: Disk, migs: seq<Body>, h: seq<Fate>) returns (h': seq<Fate>)
    requires Linked(w, d0, migs, h)
    ensures Linked(Act(w, a, migs), d0, migs, h')
    ensures w.disk.versions <= Act(w, a, migs).disk.versions
  {
    h' := h;
    if w.holder != Some(a.p) {
      ExclusiveStays(w, a, migs);
      BystanderStep(w, a, migs);
    } else if a.RunOp? && w.procs[a.p].Working? {
      h' := RunOpLinks(w, a.p, d0, migs, h);
    } else if a.Record? && w.procs[a.p].Working? {
      h' := RecordLinks(w, a.p, d0, migs, h);
    } else if a.NextVersion? && w.procs[a.p].Ready? {
      h' := NextVersionLinks(w, a.p, d0, migs, h);
    } else {
      ExclusiveStays(w, a, migs);
      MaxOfPrefix(w.disk.versions);
    }
  }

  // Any interleaving of any number of migrators starting, waiting, timing out and dying:
  // one holder at most, schema_version is 1..k with every row inserted once and never lost,
  // and the disk is that of some sequence of solo runs.
  lemma {:induction false} MigratorsSerialize(d0: Disk, acts: seq<Action>, migs: seq<Body>) returns (history: seq<Fate>)
    requires Wellformed(d0)
    ensures var w := ActAll(World(d0, map[], None), acts, migs);
            && Linked(w, d0, migs, history)
            && d0.versions <= w.disk.versions
  {
    if acts == [] {
      history := [];
    } else {
      var init := acts[..|acts| - 1];
      var h := MigratorsSerialize(d0, init, migs);
      history := StepStaysLinked(ActAll(World(d0, map[], None), init, migs), acts[|acts| - 1], d0, migs, h);
    }
  }

  // Wherever the crowd leaves the database, it holds all the work of the versions it records and
  // of the next one at most what a crash leaves, whether or not a body can become stuck.
  lemma CrowdMeansApplied(d0: Disk, acts: seq<Action>, migs: seq<Body>) returns (n: nat)
    requires Wellformed(d0) && |d0.versions| <= |migs| && PendingContained(d0, migs)
    ensures var d := ActAll(World(d0, map[], None), acts, migs).disk;
            && |d0.versions| <= |d.versions| <= |migs|
            && d.schema == var all := Through(d0, migs, |d.versions|);
                           if |d.versions| < |migs| then CrashDisk(migs[|d.versions|], all, n) else all
  {
    var history := MigratorsSerialize(d0, acts, migs);
    n := HistoryMeansApplied(d0, migs, history);
  }

  // With retry-safe bodies the next undisturbed run takes it to the one end state, or to the same
  // error.
  lemma MigratorsConverge(d0: Disk, acts: seq<Action>, migs: seq<Body>)
    requires Wellformed(d0) && PendingSafe(d0, migs)
    ensures var d := ActAll(World(d0, map[], None), acts, migs).disk;
            Migrate(d, migs, Survives) == Migrate(d0, migs, Survives)
  {
    var history := MigratorsSerialize(d0, acts, migs);
    CrashConvergence(d0, migs, history);
  }

  // ------------------------------------------------------------------------------------
  // A process that nobody disturbs

  lemma {:induction false} ActSplit(w: World, a: seq<Action>, b: seq<Action>, migs: seq<Body>)
    ensures ActAll(w, a + b, migs) == ActAll(ActAll(w, a, migs), b, migs)
  {
    if b == [] {
      assert a + b == a;
    } else {
      ActSplit(w, a, b[..|b| - 1], migs);
      assert (a + b)[..|a + b| - 1] == a + b[..|b| - 1];
    }
  }

  lemma ActOne(w: World, a: Action, migs: seq<Body>)
    ensures ActAll(w, [a], migs) == Act(w, a, migs)
  {
    assert [a][..0] == [];
  }

  // One action more in front.
  lemma ActFirst(w: World, a: Action, rest: seq<Action>, migs: seq<Body>)
    ensures ActAll(w, [a] + rest, migs) == ActAll(Act(w, a, migs), rest, migs)
  {
    ActSplit(w, [a], rest, migs);
    ActOne(w, a, migs);
  }

  // The body under way after k more of its operations.
  function Advanced(w: World, p: nat, ph: Phase, k: nat): World
    requires ph.Working? && k <= |ph.plan|
  {
    var c := RunOps(ph.plan[..k], ph.conn).conn;
    w.(disk := w.disk.(schema := c.disk), procs := w.procs[p := ph.(pos := k, conn := c)])
  }

  lemma {:induction false} PlanRuns(w: World, p: nat, k: nat, migs: seq<Body>) returns (acts: seq<Action>)
    requires p in w.procs && w.procs[p].Working? && w.procs[p].pos == 0 && w.procs[p].conn == Begin(w.disk.schema)
    requires k <= |w.procs[p].plan| && RunOps(w.procs[p].plan[..k], w.procs[p].conn).ok
    ensures ActAll(w, acts, migs) == Advanced(w, p, w.procs[p], k)
  {
    var ph := w.procs[p];
    acts := [];
    if k == 0 {
      assert ph.plan[..0] == [];
    } else {
      RunOpsNext(ph.plan, k - 1, ph.conn);
      var init := PlanRuns(w, p, k - 1, migs);
      acts := init + [RunOp(p)];
      assert acts[..|init|] == init;
    }
  }

  // From the version after the recorded ones to the end, or to an error.
  lemma {:induction false} LoneRun(w: World, p: nat, migs: seq<Body>) returns (acts: seq<Action>)
    requires Wellformed(w.disk) && w.holder == Some(p) && p in w.procs
    requires w.procs[p].Ready? && w.procs[p].current < w.procs[p].next == |w.disk.versions| + 1
    ensures ActAll(w, acts, migs)
            == Exit(w.(disk := Migrate(w.disk, migs, Survives).disk), p)
    decreases |migs| - |w.disk.versions|
  {
    var w1 := Act(w, NextVersion(p), migs);
    if |w.disk.versions| >= |migs| {
      acts := [NextVersion(p)];
      ActOne(w, NextVersion(p), migs);
    } else {
      var rest := LoneBody(w1, p, migs);
      var w2 := ActAll(w1, rest, migs);
      acts := [NextVersion(p)] + rest;
      ActFirst(w, NextVersion(p), rest, migs);
      if Succeeds(migs[|w.disk.versions|], w.disk.schema) {
        var more := LoneRun(w2, p, migs);
        ActSplit(w, acts, more, migs);
        acts := acts + more;
      }
    }
  }

  // One body and its version row, or the error.
  lemma LoneBody(w: World, p: nat, migs: seq<Body>) returns (acts: seq<Action>)
    requires Wellformed(w.disk) && w.holder == Some(p) && p in w.procs && |w.disk.versions| < |migs|
    requires var plan := Plan(migs[|w.disk.versions|], w.disk.schema);
             w.procs[p].Working? && w.procs[p].next == |w.disk.versions| + 1
             && w.procs[p] == Working(w.procs[p].current, w.procs[p].next, plan, 0, Begin(w.disk.schema))
    ensures var r := RunOps(Plan(migs[|w.disk.versions|], w.disk.schema), Begin(w.disk.schema));
            ActAll(w, acts, migs)
            == if r.ok
               then w.(disk := Recorded(w.disk, r.conn),
                       procs := w.procs[p := Ready(w.procs[p].current, w.procs[p].next + 1)])
               else Exit(w.(disk := w.disk.(schema := r.conn.disk)), p)
  {
    var ph := w.procs[p];
    var plan := ph.plan;
    assert plan[..|plan|] == plan;
    var k := Stop(plan, |plan|, ph.conn);
    var init := PlanRuns(w, p, k, migs);
    var last := if k == |plan| then Record(p) else RunOp(p);
    acts := init + [last];
    assert acts[..|init|] == init;
    if k < |plan| {
      RunOpsNext(plan, k, ph.conn);
      FirstFailure(plan, k, ph.conn);
    }
  }

  // Where a run stops the next operation fails, and leaves the connection as it was.
  lemma FirstFailure(ops: seq<Op>, k: nat, c: Conn)
    requires k < |ops| && Stop(ops, |ops|, c) == k
    ensures RunOps(ops[..k], c).ok && !Step(RunOps(ops[..k], c).conn, ops[k]).ok
    ensures Step(RunOps(ops[..k], c).conn, ops[k]).conn == RunOps(ops[..|ops|], c).conn
  {
    RunOpsNext(ops, k, c);
    if RunOps(ops[..k + 1], c).ok {
      StopGrows(ops, k + 1, |ops|, c);
    }
  }

  // So an undisturbed process does exactly what the run of one process alone does, and lets go of
  // the lock.
  lemma LoneMigrator(w: World, p: nat, migs: seq<Body>) returns (acts: seq<Action>)
    requires Wellformed(w.disk) && w.holder.None? && p !in w.procs
    ensures ActAll(w, acts, migs)
            == World(Migrate(w.disk, migs, Survives).disk, w.procs[p := Gone], None)
  {
    var opening := LoneOpening(w, p, migs);
    var w1 := ActAll(w, opening, migs);
    var skip := SkipRecorded(w1, p, Min(|w.disk.versions|, |migs|) + 1, migs);
    var w2 := ActAll(w1, skip, migs);
    var run := [NextVersion(p)];
    if |w.disk.versions| > |migs| {
      ActOne(w2, NextVersion(p), migs);
    } else {
      run := LoneRun(w2, p, migs);
    }
    ActSplit(w1, skip, run, migs);
    ActSplit(w, opening, skip + run, migs);
    acts := opening + (skip + run);
    assert Exit(w2.(disk := Migrate(w.disk, migs, Survives).disk), p).procs == w.procs[p := Gone];
  }

  lemma LoneOpening(w: World, p: nat, migs: seq<Body>) returns (acts: seq<Action>)
    requires Wellformed(w.disk) && w.holder.None? && p !in w.procs
    ensures ActAll(w, acts, migs) == World(w.disk, w.procs[p := Ready(|w.disk.versions|, 1)], Some(p))
  {
    var w1, w2 := Act(w, Start(p), migs), Act(Act(w, Start(p), migs), TryLock(p), migs);
    ActFirst(w, Start(p), [TryLock(p)] + [ReadVersion(p)], migs);
    ActFirst(w1, TryLock(p), [ReadVersion(p)], migs);
    ActOne(w2, ReadVersion(p), migs);
    acts := [Start(p)] + ([TryLock(p)] + [ReadVersion(p)]);
    OpeningSteps(w, p, migs);
  }

  lemma OpeningSteps(w: World, p: nat, migs: seq<Body>)
    requires Wellformed(w.disk) && w.holder.None? && p !in w.procs
    ensures Act(Act(Act(w, Start(p), migs), TryLock(p), migs), ReadVersion(p), migs)
            == World(w.disk, w.procs[p := Ready(|w.disk.versions|, 1)], Some(p))
  {
    MaxOfPrefix(w.disk.versions);
    var w2 := World(w.disk, w.procs[p := Waiting][p := Locked], Some(p));
    assert Act(Act(w, Start(p), migs), TryLock(p), migs) == w2;
    assert w2.procs[p := Ready(|w.disk.versions|, 1)] == w.procs[p := Ready(|w.disk.versions|, 1)];
  }

  lemma SkipOne(w: World, p: nat, migs: seq<Body>)
    requires p in w.procs && w.procs[p].Ready? && w.procs[p].next <= w.procs[p].current
    requires w.procs[p].next <= |migs|
    ensures Act(w, NextVersion(p), migs)
            == w.(procs := w.procs[p := Ready(w.procs[p].current, w.procs[p].next + 1)])
  {
  }

  // Past the versions that are recorded.
  lemma {:induction false} SkipRecorded(w: World, p: nat, n: nat, migs: seq<Body>) returns (acts: seq<Action>)
    requires p in w.procs && w.procs[p].Ready? && w.procs[p].next == 1
    requires 1 <= n && n - 1 <= w.procs[p].current && n - 1 <= |migs|
    ensures ActAll(w, acts, migs) == w.(procs := w.procs[p := Ready(w.procs[p].current, n)])
  {
    acts := [];
    if n == 1 {
      assert w.procs[p := w.procs[p]] == w.procs;
    } else {
      var init := SkipRecorded(w, p, n - 1, migs);
      acts := init + [NextVersion(p)];
      ActSplit(w, init, [NextVersion(p)], migs);
      var w1 := ActAll(w, init, migs);
      ActOne(w1, NextVersion(p), migs);
      SkipOne(w1, p, migs);
      assert w1.procs[p := Ready(w.procs[p].current, n)] == w.procs[p := Ready(w.procs[p].current, n)];
    }
  }
}
