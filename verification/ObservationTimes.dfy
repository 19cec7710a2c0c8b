// When the next observation cycle runs, counted from the last one, and what the sweep and a
// review leave in the table.
module ObservationTimes {
  import opened Wrappers
  import opened Observation

  // Steps that complete no cycle of this mode and sweep nothing.
  predicate Leaves(s: Step, mode: Mode) {
    !s.Sweep? && !(if mode == Triage then s.Complete? else s.EndReview?)
  }

  lemma PersistKeepsOthers(cycles: seq<Cycle>, clock: int, id: int, now: int, last: int, mode: Mode)
    requires Stamped(cycles, clock, id) && cycles != [] && cycles[|cycles| - 1].mode != mode
    ensures Newest(Persisted(cycles, cycles[|cycles| - 1].id, now, last), mode) == Newest(cycles, mode)
  {
    PersistsNewest(cycles, clock, id, now, last);
    var cycles' := Persisted(cycles, cycles[|cycles| - 1].id, now, last);
    assert cycles'[..|cycles'| - 1] == cycles[..|cycles| - 1];
  }

  lemma NewestStays(w: World, s: Step, mode: Mode)
    requires Consistent(w) && Leaves(s, mode)
    ensures Newest(Do(w, s).db.cycles, mode) == Newest(w.db.cycles, mode)
  {
    match s {
      case Begin => InsertKeepsNewest(w.db, Triage, w.clock, Watermark(w.db.cycles), mode);
      case BeginReview(m) =>
        InsertKeepsNewest(w.db, m, w.clock, if m == Manager then Watermark(w.db.cycles) else 0, mode);
      case Complete =>
        if w.flight.Holding? && w.db.cycles != [] {
          PersistKeepsOthers(w.db.cycles, w.clock, w.db.nextId, w.clock, Last(w.flight.batch, w.flight.watermark),
                             mode);
        }
      case EndReview(ok) =>
        if w.flight.Reviewing? && w.db.cycles != [] {
          PersistKeepsOthers(w.db.cycles, w.clock, w.db.nextId, w.clock, if ok then w.flight.watermark else 0, mode);
        }
      case _ =>
    }
  }

  lemma {:induction false} NewestStaysOver(w: World, steps: seq<Step>, mode: Mode)
    requires Consistent(w) && forall s :: s in steps ==> Leaves(s, mode)
    ensures Consistent(RunAll(w, steps)) && Newest(RunAll(w, steps).db.cycles, mode) == Newest(w.db.cycles, mode)
  {
    if steps != [] {
      var init, s := steps[..|steps| - 1], steps[|steps| - 1];
      assert s in steps && forall s :: s in init ==> s in steps;
      NewestStaysOver(w, init, mode);
      NewestStays(RunAll(w, init), s, mode);
      StepStays(RunAll(w, init), s);
    }
  }

  // After a manager review has completed, well or badly, and until another one does, whatever
  // else goes on: the next is due exactly once the interval, in hours, has passed.
  lemma ManagerRests(c: Config, w: World, ok: bool, steps: seq<Step>, activeThreads: nat, now: int)
    requires Consistent(w) && w.flight.Idle? && forall s :: s in steps ==> Leaves(s, Manager)
    ensures var w1 := RunAll(w, [BeginReview(Manager), EndReview(ok)]);
            ManagerDue(c, RunAll(w1, steps).db, activeThreads, now) <==> now - w.clock >= 60 * 60 * c.managerHours
  {
    var w1 := RunAll(w, [BeginReview(Manager), EndReview(ok)]);
    FinishedReviewIsNewest(w, ok);
    TwoStepsStay(w, BeginReview(Manager), EndReview(ok));
    NewestStaysOver(w1, steps, Manager);
  }

  lemma TwoStepsStay(w: World, a: Step, b: Step)
    requires Consistent(w) && !a.Sweep? && !b.Sweep?
    ensures Consistent(RunAll(w, [a, b]))
  {
    TwoSteps(w, a, b);
    StepStays(w, a);
    StepStays(Do(w, a), b);
  }

  // After a triage cycle has completed and until another one does: none runs before the shortest
  // interval has passed, and then one runs exactly when there is something to do, enough of it or
  // for long enough.
  lemma TriageRests(c: Config, w: World, steps: seq<Step>, now: int)
    requires Consistent(w) && w.flight.Idle? && forall s :: s in steps ==> Leaves(s, Triage)
    ensures var w' := RunAll(RunAll(w, OneCycle()), steps);
            var pending, since := Pending(w'.db), now - w.clock;
            ShouldRun(c, w'.db, now) <==>
              && since >= 60 * c.minMinutes
              && (pending > 0 || !c.idleSkip)
              && (pending >= c.threshold || (pending > 0 && since >= 60 * c.maxMinutes))
  {
    var w1 := RunAll(w, OneCycle());
    CompletedIsNewest(w);
    RunsAreExact(w, OneCycle());
    NewestStaysOver(w1, steps, Triage);
  }

  lemma CompletedIsNewest(w: World)
    requires Consistent(w) && w.flight.Idle?
    ensures var last := Newest(RunAll(w, OneCycle()).db.cycles, Triage);
            last.Some? && last.value.completedAt == Some(w.clock)
  {
    ThreeSteps(w, Begin, Collect, Complete);
    var w1 := Do(w, Begin);
    StepStays(w, Begin);
    var w2 := Do(w1, Collect);
    StepStays(w1, Collect);
    NewestPersisted(w2.db.cycles, w2.clock, w2.db.nextId, Last(w2.flight.batch, w2.flight.watermark));
  }

  // Before any triage cycle has completed, only the number of signals counts.
  lemma FirstTriage(c: Config, db: Db, now: int)
    requires Newest(db.cycles, Triage).None?
    ensures ShouldRun(c, db, now) <==> Pending(db) >= c.threshold && (Pending(db) > 0 || !c.idleSkip)
    ensures forall threads: nat :: Newest(db.cycles, Manager).None? ==>
              (ManagerDue(c, db, threads, now) <==> threads > 0)
  {
  }

  // The sweep removes the rows started before the cutoff and no others.
  lemma {:induction false} SweptIs(cycles: seq<Cycle>, cutoff: int, c: Cycle)
    ensures c in Swept(cycles, cutoff) <==> c in cycles && c.startedAt >= cutoff
  {
    if cycles != [] {
      var init, last := cycles[..|cycles| - 1], cycles[|cycles| - 1];
      SweptIs(init, cutoff, c);
      assert c in cycles <==> c in init || c == last;
    }
  }

  lemma PersistsAppended(cycles: seq<Cycle>, c: Cycle, clock: int, id: int, now: int, last: int)
    requires Stamped(cycles + [c], clock, id)
    ensures Persisted(cycles + [c], c.id, now, last)
            == cycles + [c.(completedAt := Some(now), lastSignalId := last)]
  {
    PersistsNewest(cycles + [c], clock, id, now, last);
    assert (cycles + [c])[..|cycles|] == cycles;
  }

  // The row of a review: opened with the watermark of the last triage if it is a manager's, and
  // completed with it, or with 0 when the review raises.
  lemma ReviewRow(w: World, mode: Mode, ok: bool)
    requires Consistent(w) && w.flight.Idle? && mode != Triage
    ensures var row := Cycle(w.db.nextId, mode, w.clock, None, if mode == Manager then Watermark(w.db.cycles) else 0);
            var begun := Do(w, BeginReview(mode));
            && begun.db.cycles == w.db.cycles + [row]
            && Do(begun, EndReview(ok)).db.cycles
               == w.db.cycles + [row.(completedAt := Some(w.clock), lastSignalId := if ok then row.lastSignalId else 0)]
  {
    var begun := Do(w, BeginReview(mode));
    StepStays(w, BeginReview(mode));
    var row := begun.db.cycles[|w.db.cycles|];
    assert begun.db.cycles == w.db.cycles + [row];
    PersistsAppended(w.db.cycles, row, begun.clock, begun.db.nextId, begun.clock, if ok then row.lastSignalId else 0);
  }

  // The row of a triage cycle: opened with the watermark and completed with the last signal that
  // it collected, if any.
  lemma TriageRow(w: World)
    requires Consistent(w) && w.flight.Idle?
    ensures var row := Cycle(w.db.nextId, Triage, w.clock, None, Watermark(w.db.cycles));
            var begun := Do(w, Begin);
            var batch := Collected(w.db.signals, Watermark(w.db.cycles));
            && begun.db.cycles == w.db.cycles + [row]
            && Do(Do(begun, Collect), Complete).db.cycles
               == w.db.cycles + [row.(completedAt := Some(w.clock), lastSignalId := Last(batch, row.lastSignalId))]
  {
    var begun := Do(w, Begin);
    StepStays(w, Begin);
    var row := begun.db.cycles[|w.db.cycles|];
    assert begun.db.cycles == w.db.cycles + [row];
    PersistsAppended(w.db.cycles, row, begun.clock, begun.db.nextId, begun.clock,
                     Last(Collected(w.db.signals, Watermark(w.db.cycles)), row.lastSignalId));
  }
}
