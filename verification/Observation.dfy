// Observation cycles: each triage cycle takes the signals after the watermark, at most a
// hundred, and moves the watermark when it completes. Reviews share the table of cycles.
module Observation {
  import opened Wrappers

  const BATCH: nat := 100

  datatype Mode = Triage | Manager | ChiefOfStaff

  // A row of observation_cycles. completedAt is None until the cycle is persisted.
  datatype Cycle = Cycle(id: int, mode: Mode, startedAt: int, completedAt: Option<int>, lastSignalId: int)

  // signals: the ids of the signals table, in id order.
  datatype Db = Db(signals: seq<int>, cycles: seq<Cycle>, nextId: int)

  // The newest completed row of a mode.
  function Newest(cycles: seq<Cycle>, mode: Mode): (r: Option<Cycle>)
    ensures r.Some? ==> r.value in cycles && r.value.mode == mode && r.value.completedAt.Some?
  {
    if cycles == [] then None
    else
      var c := cycles[|cycles| - 1];
      if c.mode == mode && c.completedAt.Some? then Some(c) else Newest(cycles[..|cycles| - 1], mode)
  }

  function Watermark(cycles: seq<Cycle>): int {
    var c := Newest(cycles, Triage);
    if c.Some? then c.value.lastSignalId else 0
  }

  function Newer(signals: seq<int>, watermark: int): seq<int> {
    if signals == [] then []
    else (if signals[0] > watermark then [signals[0]] else []) + Newer(signals[1..], watermark)
  }

  function Collected(signals: seq<int>, watermark: int): seq<int> {
    var newer := Newer(signals, watermark);
    if |newer| <= BATCH then newer else newer[..BATCH]
  }

  function Inserted(db: Db, mode: Mode, now: int, watermark: int): Db {
    db.(cycles := db.cycles + [Cycle(db.nextId, mode, now, None, watermark)], nextId := db.nextId + 1)
  }

  function Persisted(cycles: seq<Cycle>, id: int, now: int, last: int): seq<Cycle> {
    if cycles == [] then []
    else
      var c := cycles[|cycles| - 1];
      Persisted(cycles[..|cycles| - 1], id, now, last)
      + [if c.id == id then c.(completedAt := Some(now), lastSignalId := last) else c]
  }

  // The retention sweep: rows started before the cutoff go, whatever their state.
  function Swept(cycles: seq<Cycle>, cutoff: int): seq<Cycle> {
    if cycles == [] then []
    else
      var c := cycles[|cycles| - 1];
      Swept(cycles[..|cycles| - 1], cutoff) + if c.startedAt < cutoff then [] else [c]
  }

  // ------------------------------------------------------------------------------------
  // Runs. Every database transaction is a step of its own; signals arrive and the sweep runs
  // between any two of them.

  datatype Flight =
    | Idle
    | Started(row: int, watermark: int)
    | Holding(row: int, watermark: int, batch: seq<int>)
    | Reviewing(row: int, mode: Mode, watermark: int)

  // batches: what the completed triage cycles consumed, in order.
  datatype World = World(db: Db, clock: int, flight: Flight, batches: seq<seq<int>>)

  datatype Step =
    | Tick(seconds: nat)
    | Arrive(id: int)
    | Begin                      // a triage cycle opens its row
    | Collect
    | Complete
    | BeginReview(mode: Mode)
    | EndReview(ok: bool)        // ok: the manager review got to its end
    | Crash                      // or the final update failed: completed_at stays NULL
    | Sweep(cutoff: int)

  function Last(batch: seq<int>, watermark: int): int {
    if batch == [] then watermark else batch[|batch| - 1]
  }

  // A step that does not apply leaves the world alone.
  function Do(w: World, s: Step): World {
    match s
    case Tick(seconds) => w.(clock := w.clock + seconds)
    case Arrive(id) =>
      if id > Last(w.db.signals, 0) then w.(db := w.db.(signals := w.db.signals + [id])) else w
    case Begin =>
      var watermark := Watermark(w.db.cycles);
      if w.flight.Idle?
      then w.(db := Inserted(w.db, Triage, w.clock, watermark), flight := Started(w.db.nextId, watermark))
      else w
    case Collect =>
      if w.flight.Started?
      then w.(flight := Holding(w.flight.row, w.flight.watermark, Collected(w.db.signals, w.flight.watermark)))
      else w
    case Complete =>
      if w.flight.Holding?
      then
        var last := Last(w.flight.batch, w.flight.watermark);
        World(w.db.(cycles := Persisted(w.db.cycles, w.flight.row, w.clock, last)), w.clock, Idle,
              w.batches + [w.flight.batch])
      else w
    case BeginReview(mode) =>
      var watermark := if mode == Manager then Watermark(w.db.cycles) else 0;
      if w.flight.Idle? && mode != Triage
      then w.(db := Inserted(w.db, mode, w.clock, watermark), flight := Reviewing(w.db.nextId, mode, watermark))
      else w
    case EndReview(ok) =>
      if w.flight.Reviewing?
      then
        var last := if ok then w.flight.watermark else 0;
        w.(db := w.db.(cycles := Persisted(w.db.cycles, w.flight.row, w.clock, last)), flight := Idle)
      else w
    case Crash => w.(flight := Idle)
    case Sweep(cutoff) => w.(db := w.db.(cycles := Swept(w.db.cycles, cutoff)))
  }

  function RunAll(w: World, steps: seq<Step>): World {
    if steps == [] then w else Do(RunAll(w, steps[..|steps| - 1]), steps[|steps| - 1])
  }

  function Flat(batches: seq<seq<int>>): seq<int> {
    if batches == [] then [] else Flat(batches[..|batches| - 1]) + batches[|batches| - 1]
  }

  // ------------------------------------------------------------------------------------
  // What every run keeps

  predicate Increasing(signals: seq<int>) {
    (forall i :: 0 <= i < |signals| ==> signals[i] > 0)
    && forall i, j :: 0 <= i < j < |signals| ==> signals[i] < signals[j]
  }

  // Rows are in id order, started in that order, all before `clock` and below `id`.
  predicate Stamped(cycles: seq<Cycle>, clock: int, id: int) {
    cycles == []
    || (var c := cycles[|cycles| - 1];
        c.startedAt <= clock && c.id < id && Stamped(cycles[..|cycles| - 1], c.startedAt, c.id))
  }

  // Consumed so far, as a position in the signals.
  function Position(w: World): nat {
    |Flat(w.batches)|
  }

  // Everything consumed, once each and in id order, is what lies up to the watermark.
  predicate Exact(w: World) {
    && Position(w) <= |w.db.signals|
    && Flat(w.batches) == w.db.signals[..Position(w)]
    && Watermark(w.db.cycles) == Last(Flat(w.batches), 0)
    && (forall i :: 0 <= i < |w.batches| ==> |w.batches[i]| <= BATCH)
  }

  // The row of the cycle in flight, if any, is the newest one and not yet complete.
  predicate InFlight(w: World, row: int, mode: Mode) {
    && w.db.cycles != []
    && var c := w.db.cycles[|w.db.cycles| - 1]; c.id == row && c.mode == mode && c.completedAt.None?
  }

  // A cycle that has nothing to record can do without its row, which goes only with all others.
  predicate FlightFits(w: World) {
    match w.flight
    case Idle => true
    case Started(row, watermark) => InFlight(w, row, Triage) && watermark == Watermark(w.db.cycles)
    case Holding(row, watermark, batch) =>
      && (InFlight(w, row, Triage) || (w.db.cycles == [] && batch == []))
      && watermark == Watermark(w.db.cycles)
      && |batch| <= BATCH
      && Position(w) + |batch| <= |w.db.signals|
      && batch == w.db.signals[Position(w)..Position(w) + |batch|]
    case Reviewing(row, mode, watermark) => mode != Triage && (InFlight(w, row, mode) || w.db.cycles == [])
  }

  predicate Consistent(w: World) {
    && Increasing(w.db.signals)
    && Stamped(w.db.cycles, w.clock, w.db.nextId)
    && Exact(w)
    && FlightFits(w)
  }

  // The cycle in flight is a triage cycle that has signals to record, or may yet have.
  predicate HasToRecord(flight: Flight) {
    flight.Started? || (flight.Holding? && flight.batch != [])
  }

  // The rows that a sweep must not touch: the newest completed triage row, unless its watermark
  // is 0, and the row of a triage cycle in flight that has something to record.
  predicate Spares(w: World, cutoff: int) {
    && (var c := Newest(w.db.cycles, Triage); c.None? || c.value.lastSignalId == 0 || c.value.startedAt >= cutoff)
    && (HasToRecord(w.flight) && w.db.cycles != [] ==> w.db.cycles[|w.db.cycles| - 1].startedAt >= cutoff)
  }

  ghost predicate SweepsSpare(w: World, steps: seq<Step>) {
    forall k :: 0 <= k < |steps| && steps[k].Sweep? ==> Spares(RunAll(w, steps[..k]), steps[k].cutoff)
  }

  lemma {:induction false} StampedLater(cycles: seq<Cycle>, clock: int, id: int, clock': int, id': int)
    requires Stamped(cycles, clock, id) && clock <= clock' && id <= id'
    ensures Stamped(cycles, clock', id')
  {
  }

  lemma {:induction false} PersistsNothing(cycles: seq<Cycle>, clock: int, id: int, row: int, now: int, last: int)
    requires Stamped(cycles, clock, id) && id <= row
    ensures Persisted(cycles, row, now, last) == cycles
  {
    if cycles != [] {
      var c := cycles[|cycles| - 1];
      PersistsNothing(cycles[..|cycles| - 1], c.startedAt, c.id, row, now, last);
    }
  }

  // Completing the newest row touches that row alone.
  lemma PersistsNewest(cycles: seq<Cycle>, clock: int, id: int, now: int, last: int)
    requires Stamped(cycles, clock, id) && cycles != []
    ensures var c := cycles[|cycles| - 1];
            Persisted(cycles, c.id, now, last)
            == cycles[..|cycles| - 1] + [c.(completedAt := Some(now), lastSignalId := last)]
    ensures Stamped(Persisted(cycles, cycles[|cycles| - 1].id, now, last), clock, id)
  {
    var c := cycles[|cycles| - 1];
    PersistsNothing(cycles[..|cycles| - 1], c.startedAt, c.id, c.id, now, last);
    assert Persisted(cycles, c.id, now, last)[..|cycles| - 1] == cycles[..|cycles| - 1];
  }

  lemma {:induction false} NewerFromPosition(signals: seq<int>, n: nat)
    requires Increasing(signals) && n <= |signals|
    ensures Newer(signals, Last(signals[..n], 0)) == signals[n..]
  {
    NewerAfter(signals, n, Last(signals[..n], 0));
  }

  lemma {:induction false} NewerAfter(signals: seq<int>, n: nat, watermark: int)
    requires n <= |signals|
    requires forall i :: 0 <= i < n ==> signals[i] <= watermark
    requires forall i :: n <= i < |signals| ==> signals[i] > watermark
    ensures Newer(signals, watermark) == signals[n..]
  {
    if signals != [] {
      NewerAfter(signals[1..], if n == 0 then 0 else n - 1, watermark);
    }
  }

  lemma {:induction false} SweptKeepsOrder(cycles: seq<Cycle>, clock: int, id: int, cutoff: int)
    requires Stamped(cycles, clock, id)
    ensures Stamped(Swept(cycles, cutoff), clock, id)
  {
    if cycles != [] {
      var init, c := cycles[..|cycles| - 1], cycles[|cycles| - 1];
      SweptKeepsOrder(init, c.startedAt, c.id, cutoff);
      if c.startedAt < cutoff {
        StampedLater(Swept(init, cutoff), c.startedAt, c.id, clock, id);
        assert Swept(cycles, cutoff) == Swept(init, cutoff);
      } else {
        assert Swept(cycles, cutoff)[..|Swept(init, cutoff)|] == Swept(init, cutoff);
      }
    }
  }

  // Rows are swept oldest first, so the newest completed one goes only with all older ones.
  lemma {:induction false} SweptNewest(cycles: seq<Cycle>, clock: int, id: int, cutoff: int, mode: Mode)
    requires Stamped(cycles, clock, id)
    ensures var c := Newest(cycles, mode);
            Newest(Swept(cycles, cutoff), mode) == if c.Some? && c.value.startedAt >= cutoff then c else None
    ensures clock < cutoff ==> Swept(cycles, cutoff) == []
  {
    if cycles != [] {
      var init, c := cycles[..|cycles| - 1], cycles[|cycles| - 1];
      SweptNewest(init, c.startedAt, c.id, cutoff, mode);
      if c.startedAt < cutoff {
        NewestStarted(init, c.startedAt, c.id, mode);
      } else {
        assert Swept(cycles, cutoff)[..|Swept(init, cutoff)|] == Swept(init, cutoff);
      }
    }
  }

  lemma {:induction false} NewestStarted(cycles: seq<Cycle>, clock: int, id: int, mode: Mode)
    requires Stamped(cycles, clock, id)
    ensures Newest(cycles, mode).Some? ==> Newest(cycles, mode).value.startedAt <= clock
  {
    if cycles != [] {
      var c := cycles[|cycles| - 1];
      NewestStarted(cycles[..|cycles| - 1], c.startedAt, c.id, mode);
    }
  }

  // Inserting an incomplete row makes no other newest one.
  lemma InsertKeepsNewest(db: Db, mode: Mode, now: int, watermark: int, of: Mode)
    ensures Newest(Inserted(db, mode, now, watermark).cycles, of) == Newest(db.cycles, of)
  {
    assert Inserted(db, mode, now, watermark).cycles[..|db.cycles|] == db.cycles;
  }

  lemma BeginStays(w: World, mode: Mode, watermark: int, flight: Flight)
    requires Consistent(w) && w.flight.Idle?
    requires mode == Triage ==> flight == Started(w.db.nextId, Watermark(w.db.cycles))
    requires mode != Triage ==> flight == Reviewing(w.db.nextId, mode, watermark)
    ensures Consistent(w.(db := Inserted(w.db, mode, w.clock, watermark), flight := flight))
  {
    InsertKeepsNewest(w.db, mode, w.clock, watermark, Triage);
    assert Inserted(w.db, mode, w.clock, watermark).cycles[..|w.db.cycles|] == w.db.cycles;
  }

  lemma ArriveStays(w: World, id: int)
    requires Consistent(w)
    ensures Consistent(Do(w, Arrive(id)))
  {
    if id > Last(w.db.signals, 0) {
      var p := Position(w);
      StillIncreasing(w.db.signals, id);
      SameSlice(w.db.signals, id, 0, p);
      if w.flight.Holding? { SameSlice(w.db.signals, id, p, p + |w.flight.batch|); }
    }
  }

  lemma StillIncreasing(signals: seq<int>, id: int)
    requires Increasing(signals) && id > Last(signals, 0)
    ensures Increasing(signals + [id])
  {
  }

  lemma SameSlice(signals: seq<int>, id: int, lo: nat, hi: nat)
    requires lo <= hi <= |signals|
    ensures (signals + [id])[lo..hi] == signals[lo..hi]
  {
  }

  lemma CollectStays(w: World)
    requires Consistent(w)
    ensures Consistent(Do(w, Collect))
  {
    if w.flight.Started? {
      NewerFromPosition(w.db.signals, Position(w));
    }
  }

  lemma CompleteStays(w: World)
    requires Consistent(w)
    ensures Consistent(Do(w, Complete))
  {
    if w.flight.Holding? {
      if w.db.cycles != [] {
        PersistsNewest(w.db.cycles, w.clock, w.db.nextId, w.clock, Last(w.flight.batch, w.flight.watermark));
      }
      CompletedIsExact(w);
    }
  }

  lemma CompletedIsExact(w: World)
    requires Consistent(w) && w.flight.Holding?
    ensures Exact(Do(w, Complete))
  {
    CompletedWatermark(w);
    OneMoreBatch(w, w.flight.batch);
    LastOfMore(Flat(w.batches), w.flight.batch);
  }

  lemma CompletedWatermark(w: World)
    requires Consistent(w) && w.flight.Holding?
    ensures Watermark(Do(w, Complete).db.cycles) == Last(w.flight.batch, w.flight.watermark)
  {
    if w.db.cycles != [] {
      PersistedWatermark(w.db.cycles, w.clock, w.db.nextId, w.clock, Last(w.flight.batch, w.flight.watermark));
    }
  }

  lemma OneMoreBatch(w: World, batch: seq<int>)
    requires Exact(w) && Position(w) + |batch| <= |w.db.signals|
    requires batch == w.db.signals[Position(w)..Position(w) + |batch|]
    ensures var flat := Flat(w.batches + [batch]);
            flat == Flat(w.batches) + batch && flat == w.db.signals[..|flat|] && |flat| <= |w.db.signals|
  {
    var p := Position(w);
    FlatGrows(w.batches, batch);
    assert w.db.signals[..p] + w.db.signals[p..p + |batch|] == w.db.signals[..p + |batch|];
  }

  lemma LastOfMore(flat: seq<int>, batch: seq<int>)
    ensures Last(flat + batch, 0) == Last(batch, Last(flat, 0))
  {
    if batch == [] { assert flat + batch == flat; }
  }

  lemma PersistedWatermark(cycles: seq<Cycle>, clock: int, id: int, now: int, last: int)
    requires Stamped(cycles, clock, id) && cycles != [] && cycles[|cycles| - 1].mode == Triage
    ensures Watermark(Persisted(cycles, cycles[|cycles| - 1].id, now, last)) == last
  {
    PersistsNewest(cycles, clock, id, now, last);
  }

  lemma FlatGrows(batches: seq<seq<int>>, batch: seq<int>)
    ensures Flat(batches + [batch]) == Flat(batches) + batch
  {
    assert (batches + [batch])[..|batches|] == batches;
  }

  lemma EndReviewStays(w: World, ok: bool)
    requires Consistent(w)
    ensures Consistent(Do(w, EndReview(ok)))
  {
    if w.flight.Reviewing? && w.db.cycles != [] {
      PersistedReview(w.db.cycles, w.clock, w.db.nextId, w.clock, if ok then w.flight.watermark else 0);
    }
  }

  lemma PersistedReview(cycles: seq<Cycle>, clock: int, id: int, now: int, last: int)
    requires Stamped(cycles, clock, id) && cycles != []
    requires cycles[|cycles| - 1].mode != Triage && cycles[|cycles| - 1].completedAt.None?
    ensures var cycles' := Persisted(cycles, cycles[|cycles| - 1].id, now, last);
            Stamped(cycles', clock, id) && Watermark(cycles') == Watermark(cycles)
  {
    PersistsNewest(cycles, clock, id, now, last);
    var cycles' := Persisted(cycles, cycles[|cycles| - 1].id, now, last);
    assert cycles'[..|cycles'| - 1] == cycles[..|cycles| - 1];
  }

  lemma SweepStays(w: World, cutoff: int)
    requires Consistent(w) && Spares(w, cutoff)
    ensures Consistent(Do(w, Sweep(cutoff)))
  {
    SweptKeepsOrder(w.db.cycles, w.clock, w.db.nextId, cutoff);
    SweptNewest(w.db.cycles, w.clock, w.db.nextId, cutoff, Triage);
    SweptInFlight(w.db.cycles, w.clock, w.db.nextId, cutoff);
    SweepKeepsFlight(w, cutoff);
  }

  // The newest row goes only with all others.
  lemma SweptInFlight(cycles: seq<Cycle>, clock: int, id: int, cutoff: int)
    requires Stamped(cycles, clock, id)
    ensures var swept := Swept(cycles, cutoff);
            swept == []
            || (cycles != [] && cycles[|cycles| - 1].startedAt >= cutoff
                && swept[|swept| - 1] == cycles[|cycles| - 1])
  {
    if cycles != [] && cycles[|cycles| - 1].startedAt < cutoff {
      SweptNewest(cycles, cycles[|cycles| - 1].startedAt, id, cutoff, Triage);
    }
  }

  lemma SweepKeepsFlight(w: World, cutoff: int)
    requires Consistent(w) && Spares(w, cutoff)
    requires var swept := Swept(w.db.cycles, cutoff);
             && Watermark(swept) == Watermark(w.db.cycles)
             && (swept == []
                 || (w.db.cycles != [] && w.db.cycles[|w.db.cycles| - 1].startedAt >= cutoff
                     && swept[|swept| - 1] == w.db.cycles[|w.db.cycles| - 1]))
    ensures FlightFits(Do(w, Sweep(cutoff)))
  {
    if w.db.cycles != [] && w.db.cycles[|w.db.cycles| - 1].startedAt >= cutoff {
      assert Swept(w.db.cycles, cutoff) != [];
    }
  }

  lemma StepStays(w: World, s: Step)
    requires Consistent(w) && (s.Sweep? ==> Spares(w, s.cutoff))
    ensures Consistent(Do(w, s))
  {
    match s {
      case Tick(seconds) => StampedLater(w.db.cycles, w.clock, w.db.nextId, w.clock + seconds, w.db.nextId);
      case Arrive(id) => ArriveStays(w, id);
      case Begin =>
        if w.flight.Idle? {
          BeginStays(w, Triage, Watermark(w.db.cycles), Started(w.db.nextId, Watermark(w.db.cycles)));
        }
      case Collect => CollectStays(w);
      case Complete => CompleteStays(w);
      case BeginReview(mode) =>
        if w.flight.Idle? && mode != Triage {
          var watermark := if mode == Manager then Watermark(w.db.cycles) else 0;
          BeginStays(w, mode, watermark, Reviewing(w.db.nextId, mode, watermark));
        }
      case EndReview(ok) => EndReviewStays(w, ok);
      case Crash =>
      case Sweep(cutoff) => SweepStays(w, cutoff);
    }
  }

  // Over any run: the batches of the completed triage cycles concatenate to a prefix of the
  // signals, with no gap and no repeat, and the watermark is the end of that prefix.
  lemma {:induction false} RunsAreExact(w: World, steps: seq<Step>)
    requires Consistent(w) && SweepsSpare(w, steps)
    ensures Consistent(RunAll(w, steps))
  {
    if steps != [] {
      var init := steps[..|steps| - 1];
      assert forall k :: 0 <= k < |init| ==> init[..k] == steps[..k];
      RunsAreExact(w, init);
      var s := steps[|init|];
      assert s.Sweep? ==> Spares(RunAll(w, steps[..|init|]), s.cutoff);
      StepStays(RunAll(w, init), steps[|steps| - 1]);
    }
  }

  // In particular from an empty database.
  lemma RunsFromNothingAreExact(clock: int, steps: seq<Step>)
    requires SweepsSpare(World(Db([], [], 1), clock, Idle, []), steps)
    ensures var w := RunAll(World(Db([], [], 1), clock, Idle, []), steps);
            && Flat(w.batches) <= w.db.signals
            && Watermark(w.db.cycles) == Last(Flat(w.batches), 0)
            && forall i :: 0 <= i < |w.batches| ==> |w.batches[i]| <= BATCH
  {
    RunsAreExact(World(Db([], [], 1), clock, Idle, []), steps);
  }

  lemma SameBatchesSameWatermark(w: World, w': World)
    requires Exact(w) && Exact(w') && w'.batches == w.batches
    ensures Watermark(w'.db.cycles) == Watermark(w.db.cycles)
  {
  }

  lemma ReviewStepMovesNothing(w: World, s: Step)
    requires Consistent(w) && (s.BeginReview? || s.EndReview? || s.Crash?)
    ensures Consistent(Do(w, s)) && Do(w, s).batches == w.batches
    ensures Watermark(Do(w, s).db.cycles) == Watermark(w.db.cycles)
  {
    StepStays(w, s);
    SameBatchesSameWatermark(w, Do(w, s));
  }

  // A review consumes nothing and moves no watermark, whether it ends well, badly or not at all.
  lemma ReviewsMoveNothing(w: World, mode: Mode, end: Step)
    requires Consistent(w) && (end.EndReview? || end.Crash?)
    requires w.flight.Idle? && mode != Triage
    ensures var w' := RunAll(w, [BeginReview(mode), end]);
            Watermark(w'.db.cycles) == Watermark(w.db.cycles) && w'.batches == w.batches && w'.flight.Idle?
  {
    TwoSteps(w, BeginReview(mode), end);
    TwoStepsMoveNothing(w, BeginReview(mode), end);
    ReviewEnds(w, mode, end);
  }

  lemma TwoStepsMoveNothing(w: World, a: Step, b: Step)
    requires Consistent(w) && a.BeginReview? && (b.EndReview? || b.Crash?)
    ensures var w' := Do(Do(w, a), b);
            Watermark(w'.db.cycles) == Watermark(w.db.cycles) && w'.batches == w.batches
  {
    ReviewStepMovesNothing(w, a);
    ReviewStepMovesNothing(Do(w, a), b);
  }

  lemma ReviewEnds(w: World, mode: Mode, end: Step)
    requires w.flight.Idle? && mode != Triage && (end.EndReview? || end.Crash?)
    ensures Do(Do(w, BeginReview(mode)), end).flight.Idle?
  {
    assert Do(w, BeginReview(mode)).flight.Reviewing?;
  }

  lemma {:induction false} WatermarkNeverFalls(w: World, steps: seq<Step>)
    requires Consistent(w) && SweepsSpare(w, steps)
    ensures Watermark(RunAll(w, steps).db.cycles) >= Watermark(w.db.cycles)
    ensures w.batches <= RunAll(w, steps).batches
  {
    if steps != [] {
      var init := steps[..|steps| - 1];
      assert forall k :: 0 <= k < |init| ==> init[..k] == steps[..k];
      WatermarkNeverFalls(w, init);
      RunsAreExact(w, init);
      RunsAreExact(w, steps);
      BatchesGrow(RunAll(w, init), steps[|steps| - 1]);
    }
  }

  lemma CompletedGrows(w: World)
    requires Consistent(w) && Consistent(Do(w, Complete)) && w.flight.Holding?
    ensures w.batches <= Do(w, Complete).batches
    ensures Watermark(Do(w, Complete).db.cycles) >= Watermark(w.db.cycles)
  {
    var p, batch := Position(w), w.flight.batch;
    FlatGrows(w.batches, batch);
    assert Watermark(Do(w, Complete).db.cycles) == Last(Flat(w.batches) + batch, 0);
    if batch != [] && p > 0 {
      assert batch[|batch| - 1] == w.db.signals[p + |batch| - 1];
      assert Flat(w.batches)[p - 1] == w.db.signals[p - 1];
    }
  }

  lemma BatchesGrow(w: World, s: Step)
    requires Consistent(w) && Consistent(Do(w, s))
    ensures w.batches <= Do(w, s).batches
    ensures Watermark(Do(w, s).db.cycles) >= Watermark(w.db.cycles)
  {
    if s.Complete? && w.flight.Holding? {
      CompletedGrows(w);
    } else {
      assert Do(w, s).batches == w.batches;
    }
  }

  // ------------------------------------------------------------------------------------
  // The retention sweep

  // Whatever happens next, with no more than sparing sweeps in it, the bookkeeping is exact.
  ghost predicate StaysExact(w: World) {
    forall steps :: SweepsSpare(w, steps) ==> Exact(RunAll(w, steps))
  }

  // A sweep does no harm if and only if it spares those rows.
  lemma SweepIsHarmlessIffItSpares(w: World, cutoff: int)
    requires Consistent(w)
    ensures StaysExact(Do(w, Sweep(cutoff))) <==> Spares(w, cutoff)
  {
    var w1 := Do(w, Sweep(cutoff));
    if Spares(w, cutoff) {
      SweepStays(w, cutoff);
      forall steps | SweepsSpare(w1, steps) ensures Exact(RunAll(w1, steps)) {
        RunsAreExact(w1, steps);
      }
    } else {
      var steps := HarmShows(w, cutoff);
    }
  }

  // What brings the harm to light: nothing more when the watermark has gone, and otherwise the
  // rest of the triage cycle, given a signal.
  lemma HarmShows(w: World, cutoff: int) returns (steps: seq<Step>)
    requires Consistent(w) && !Spares(w, cutoff)
    ensures var w1 := Do(w, Sweep(cutoff)); SweepsSpare(w1, steps) && !Exact(RunAll(w1, steps))
  {
    var cycles, w1 := w.db.cycles, Do(w, Sweep(cutoff));
    SweptNewest(cycles, w.clock, w.db.nextId, cutoff, Triage);
    if Watermark(cycles) != Watermark(w1.db.cycles) {
      steps := [];
    } else {
      SweptNewest(cycles, cycles[|cycles| - 1].startedAt, w.db.nextId, cutoff, Triage);
      assert w1.db.cycles == [] && Watermark(cycles) == 0;
      if w.flight.Started? {
        steps := [Arrive(Last(w.db.signals, 0) + 1), Collect, Complete];
        LostRow(w1);
      } else {
        steps := [Complete];
        OneStep(w1, Complete);
        FlatGrows(w.batches, w.flight.batch);
      }
    }
  }

  // A triage cycle without its row consumes a signal and leaves the watermark at 0.
  lemma LostRow(w: World)
    requires Increasing(w.db.signals) && w.db.cycles == [] && w.flight.Started? && w.flight.watermark == 0
    ensures !Exact(RunAll(w, [Arrive(Last(w.db.signals, 0) + 1), Collect, Complete]))
  {
    var id := Last(w.db.signals, 0) + 1;
    ThreeSteps(w, Arrive(id), Collect, Complete);
    var signals := w.db.signals + [id];
    StillIncreasing(w.db.signals, id);
    NewerFromPosition(signals, 0);
    assert signals[..0] == [] && signals[0..] == signals;
    var batch := Collected(signals, 0);
    assert batch != [] && batch[|batch| - 1] > 0;
    FlatGrows(w.batches, batch);
  }

  lemma OneStep(w: World, s: Step)
    ensures RunAll(w, [s]) == Do(w, s)
  {
    assert [s][..|[s]| - 1] == [];
    assert RunAll(w, []) == w;
  }

  function OneCycle(): seq<Step> {
    [Begin, Collect, Complete]
  }

  // What one uninterrupted triage cycle does, starting anywhere.
  lemma OneCycleConsumes(w: World)
    requires w.flight.Idle?
    requires Stamped(w.db.cycles, w.clock, w.db.nextId)
    ensures var w' := RunAll(w, OneCycle());
            && w'.flight.Idle?
            && w'.db.signals == w.db.signals
            && w'.batches == w.batches + [Collected(w.db.signals, Watermark(w.db.cycles))]
  {
    ThreeSteps(w, Begin, Collect, Complete);
  }

  // After a sweep that does not spare the watermark, the next triage cycle consumes again from
  // the very first signal.
  lemma SweptWatermarkReplays(w: World, cutoff: int)
    requires Consistent(w) && w.flight.Idle? && !Spares(w, cutoff)
    ensures var w' := RunAll(Do(w, Sweep(cutoff)), OneCycle());
            && |w'.batches| == |w.batches| + 1
            && w'.batches[|w.batches|] != []
            && w'.batches[|w.batches|][0] == Flat(w.batches)[0]
  {
    var w1 := Do(w, Sweep(cutoff));
    SweptNewest(w.db.cycles, w.clock, w.db.nextId, cutoff, Triage);
    SweptKeepsOrder(w.db.cycles, w.clock, w.db.nextId, cutoff);
    OneCycleConsumes(w1);
    NewerFromPosition(w.db.signals, 0);
    assert w.db.signals[..0] == [];
    assert w.db.signals[0..] == w.db.signals;
  }

  // ------------------------------------------------------------------------------------
  // Progress

  function Cycles(k: nat): seq<Step> {
    if k == 0 then [] else Cycles(k - 1) + OneCycle()
  }

  lemma {:induction false} RunSplits(w: World, a: seq<Step>, b: seq<Step>)
    ensures RunAll(w, a + b) == RunAll(RunAll(w, a), b)
  {
    if b == [] {
      assert a + b == a;
    } else {
      RunSplits(w, a, b[..|b| - 1]);
      assert (a + b)[..|a + b| - 1] == a + b[..|b| - 1];
    }
  }

  // k uninterrupted cycles consume a hundred signals each, or all there are.
  lemma {:induction false} BacklogDrains(w: World, k: nat)
    requires Consistent(w) && w.flight.Idle?
    ensures var w' := RunAll(w, Cycles(k));
            && Consistent(w') && w'.flight.Idle? && w'.db.signals == w.db.signals
            && Position(w') ==
               if Position(w) + BATCH * k <= |w.db.signals| then Position(w) + BATCH * k else |w.db.signals|
  {
    if k > 0 {
      BacklogDrains(w, k - 1);
      var w1 := RunAll(w, Cycles(k - 1));
      RunSplits(w, Cycles(k - 1), OneCycle());
      OneCycleConsumes(w1);
      RunsAreExact(w1, OneCycle());
      NewerFromPosition(w1.db.signals, Position(w1));
      var w' := RunAll(w1, OneCycle());
      assert w'.batches[..|w1.batches|] == w1.batches;
    }
  }

  // ------------------------------------------------------------------------------------
  // When a cycle runs

  datatype Config = Config(minMinutes: int, maxMinutes: int, threshold: int, idleSkip: bool, managerHours: int)

  function Pending(db: Db): nat {
    |Newer(db.signals, Watermark(db.cycles))|
  }

  predicate ShouldRun(c: Config, db: Db, now: int) {
    var last, pending := Newest(db.cycles, Triage), Pending(db);
    if last.Some? && now - last.value.completedAt.value < 60 * c.minMinutes then false
    else if pending == 0 && c.idleSkip then false
    else if pending >= c.threshold then true
    else if pending == 0 then false
    else last.Some? && now - last.value.completedAt.value >= 60 * c.maxMinutes
  }

  predicate ManagerDue(c: Config, db: Db, activeThreads: nat, now: int) {
    var last := Newest(db.cycles, Manager);
    if last.None? then activeThreads > 0 else now - last.value.completedAt.value >= 3600 * c.managerHours
  }

  // From then on, every call that gets to triage runs a cycle.
  ghost predicate RunsFrom(c: Config, db: Db, from: int) {
    forall now :: now >= from ==> ShouldRun(c, db, now)
  }

  // A backlog is taken up in the end exactly when it reaches the threshold or some triage cycle
  // has completed before: until the first one, the longest interval never comes into play.
  lemma BacklogIsTakenUpIff(c: Config, db: Db)
    requires Pending(db) > 0
    ensures (exists from :: RunsFrom(c, db, from))
            <==> Pending(db) >= c.threshold || Newest(db.cycles, Triage).Some?
  {
    var last := Newest(db.cycles, Triage);
    if last.Some? {
      var completed := last.value.completedAt.value;
      assert RunsFrom(c, db, completed + 60 * if c.minMinutes >= c.maxMinutes then c.minMinutes else c.maxMinutes);
    } else if Pending(db) >= c.threshold {
      assert RunsFrom(c, db, 0);
    } else {
      forall from: int ensures !RunsFrom(c, db, from) {
        assert !ShouldRun(c, db, from);
      }
    }
  }

  // What the world does to one call: whether each role answers, and whether the last update of
  // the row gets through.
  datatype Outcome = Outcome(dump: bool, review: bool, think: bool, reflex: bool, persisted: bool)

  function Plan(c: Config, db: Db, activeThreads: nat, now: int, o: Outcome): seq<Step> {
    if ManagerDue(c, db, activeThreads, now)
    then [BeginReview(Manager), if o.persisted then EndReview(o.review) else Crash]
    else if ShouldRun(c, db, now) then [Begin, Collect, if o.persisted then Complete else Crash]
    else []
  }

  // A call, and what comes before it: time passes and signals arrive.
  datatype Call = Call(between: seq<Step>, outcome: Outcome)

  predicate Quiet(steps: seq<Step>) {
    forall s :: s in steps ==> s.Tick? || s.Arrive?
  }

  // Calls that come one after the other.
  function Calls(c: Config, w: World, activeThreads: nat, calls: seq<Call>): World {
    if calls == [] then w
    else
      var call := calls[|calls| - 1];
      var w1 := RunAll(Calls(c, w, activeThreads, calls[..|calls| - 1]), call.between);
      RunAll(w1, Plan(c, w1.db, activeThreads, w1.clock, call.outcome))
  }

  // A manager review comes before triage and is due until one completes: while none does, no
  // triage cycle starts and no signal is consumed, however many calls are made and however many
  // signals arrive.
  lemma {:induction false} UnfinishedReviewsBlockTriage(c: Config, w: World, activeThreads: nat, calls: seq<Call>)
    requires Consistent(w) && w.flight.Idle? && ManagerDue(c, w.db, activeThreads, w.clock)
    requires forall call :: call in calls ==> Quiet(call.between) && !call.outcome.persisted
    ensures var w' := Calls(c, w, activeThreads, calls);
            && Consistent(w') && w'.flight.Idle? && w'.batches == w.batches
            && ManagerDue(c, w'.db, activeThreads, w'.clock)
  {
    if calls != [] {
      var init, call := calls[..|calls| - 1], calls[|calls| - 1];
      UnfinishedReviewsBlockTriage(c, w, activeThreads, init);
      assert call in calls;
      var before := Calls(c, w, activeThreads, init);
      StillDue(c, before, activeThreads, call.between);
      UnfinishedReview(c, RunAll(before, call.between), activeThreads);
    }
  }

  lemma {:induction false} StillDue(c: Config, w: World, activeThreads: nat, steps: seq<Step>)
    requires Consistent(w) && w.flight.Idle? && ManagerDue(c, w.db, activeThreads, w.clock) && Quiet(steps)
    ensures var w' := RunAll(w, steps);
            && Consistent(w') && w'.flight.Idle? && w'.batches == w.batches
            && ManagerDue(c, w'.db, activeThreads, w'.clock)
  {
    if steps != [] {
      var init, s := steps[..|steps| - 1], steps[|steps| - 1];
      assert s in steps && forall s :: s in init ==> s in steps;
      StillDue(c, w, activeThreads, init);
      StillDueStep(c, RunAll(w, init), activeThreads, s);
    }
  }

  lemma StillDueStep(c: Config, w: World, activeThreads: nat, s: Step)
    requires Consistent(w) && w.flight.Idle? && ManagerDue(c, w.db, activeThreads, w.clock)
    requires s.Tick? || s.Arrive?
    ensures var w' := Do(w, s);
            && Consistent(w') && w'.flight.Idle? && w'.batches == w.batches
            && ManagerDue(c, w'.db, activeThreads, w'.clock)
  {
    StepStays(w, s);
  }

  lemma UnfinishedReview(c: Config, w: World, activeThreads: nat)
    requires Consistent(w) && w.flight.Idle? && ManagerDue(c, w.db, activeThreads, w.clock)
    ensures var w' := RunAll(w, [BeginReview(Manager), Crash]);
            && Consistent(w') && w'.flight.Idle? && w'.batches == w.batches
            && ManagerDue(c, w'.db, activeThreads, w'.clock)
  {
    TwoSteps(w, BeginReview(Manager), Crash);
    ReviewStepMovesNothing(w, BeginReview(Manager));
    ReviewStepMovesNothing(Do(w, BeginReview(Manager)), Crash);
    InsertKeepsNewest(w.db, Manager, w.clock, Watermark(w.db.cycles), Manager);
  }

  // One call when a review is due: it is due again right after exactly when the review did not
  // complete, whatever the review itself came to.
  lemma DueAgainIffUnfinished(c: Config, w: World, activeThreads: nat, o: Outcome)
    requires Consistent(w) && w.flight.Idle? && ManagerDue(c, w.db, activeThreads, w.clock) && c.managerHours > 0
    ensures var w' := RunAll(w, Plan(c, w.db, activeThreads, w.clock, o));
            ManagerDue(c, w'.db, activeThreads, w'.clock) <==> !o.persisted
  {
    if o.persisted {
      FinishedReviewIsNewest(w, o.review);
    } else {
      UnfinishedReview(c, w, activeThreads);
    }
  }

  lemma FinishedReviewIsNewest(w: World, ok: bool)
    requires Consistent(w) && w.flight.Idle?
    ensures var w' := RunAll(w, [BeginReview(Manager), EndReview(ok)]);
            var last := Newest(w'.db.cycles, Manager);
            last.Some? && last.value.completedAt == Some(w.clock) && w'.clock == w.clock
  {
    TwoSteps(w, BeginReview(Manager), EndReview(ok));
    var w1 := Do(w, BeginReview(Manager));
    ReviewBegins(w);
    NewestPersisted(w1.db.cycles, w1.clock, w1.db.nextId, if ok then w1.flight.watermark else 0);
  }

  lemma ReviewBegins(w: World)
    requires w.flight.Idle? && Stamped(w.db.cycles, w.clock, w.db.nextId)
    ensures var w1 := Do(w, BeginReview(Manager));
            w1.flight.Reviewing? && InFlight(w1, w1.flight.row, Manager)
            && Stamped(w1.db.cycles, w1.clock, w1.db.nextId)
  {
    var watermark := Watermark(w.db.cycles);
    assert Inserted(w.db, Manager, w.clock, watermark).cycles[..|w.db.cycles|] == w.db.cycles;
  }

  lemma NewestPersisted(cycles: seq<Cycle>, clock: int, id: int, last: int)
    requires Stamped(cycles, clock, id) && cycles != []
    ensures var c := cycles[|cycles| - 1];
            Newest(Persisted(cycles, c.id, clock, last), c.mode)
            == Some(c.(completedAt := Some(clock), lastSignalId := last))
  {
    PersistsNewest(cycles, clock, id, clock, last);
  }

  datatype Role = Review | Think | Reflex

  // role is the one that answered; processed is meant for triage.
  datatype Report = Report(ran: bool, mode: Mode, processed: nat, watermark: int, role: Role, degraded: bool)

  class ObservationCycle {
    const config: Config
    var signals: seq<int>
    var cycles: seq<Cycle>
    var nextId: int

    constructor (config: Config)
      ensures this.config == config && State() == Db([], [], 1)
    {
      this.config, signals, cycles, nextId := config, [], [], 1;
    }

    function State(): Db
      reads this
    {
      Db(signals, cycles, nextId)
    }

    method Open(mode: Mode, now: int, watermark: int) returns (id: int)
      modifies `cycles, `nextId
      ensures id == old(nextId) && State() == Inserted(old(State()), mode, now, watermark)
    {
      id := nextId;
      cycles, nextId := cycles + [Cycle(id, mode, now, None, watermark)], nextId + 1;
    }

    method PersistCycle(id: int, now: int, report: Report)
      modifies `cycles
      ensures cycles == Persisted(old(cycles), id, now, report.watermark)
    {
      cycles := Persisted(cycles, id, now, report.watermark);
    }

    // One call, with nothing else going on: it takes the steps of the plan, and the signals it
    // collected count as consumed whichever role answered, and even when none did.
    method Run(activeThreads: nat, now: int, o: Outcome) returns (r: Report)
      modifies this
      ensures State() == RunAll(World(old(State()), now, Idle, []),
                                         Plan(config, old(State()), activeThreads, now, o)).db
      ensures r.mode == if ManagerDue(config, old(State()), activeThreads, now) then Manager else Triage
      ensures r.mode == Triage && ShouldRun(config, old(State()), now) ==>
                var batch := Collected(old(signals), Watermark(old(cycles)));
                && r.processed == |batch|
                && r.watermark == Last(batch, Watermark(old(cycles)))
                && (r.ran <==> batch == [] || (o.dump && (o.review || o.think || o.reflex)))
                && (r.degraded <==> batch != [] && o.dump && !o.review && (o.think || o.reflex))
                && (r.role == Think <==> r.degraded && o.think)
                && (r.role == Reflex <==> r.degraded && !o.think)
      ensures r.mode == Manager ==> r.ran && r.processed == 0 && r.degraded == !o.review
                                    && r.watermark == if o.review then Watermark(old(cycles)) else 0
      ensures r.mode == Triage && !ShouldRun(config, old(State()), now) ==> !r.ran && r.processed == 0
    {
      if ManagerDue(config, State(), activeThreads, now) {
        r := RunManagerReview(now, o);
        return;
      }
      r := Report(false, Triage, 0, 0, Review, false);
      if !ShouldRun(config, State(), now) { return; }
      r := RunTriage(now, o);
    }

    method RunTriage(now: int, o: Outcome) returns (r: Report)
      modifies this
      ensures State() == RunAll(World(old(State()), now, Idle, []),
                                         [Begin, Collect, if o.persisted then Complete else Crash]).db
      ensures var batch := Collected(old(signals), Watermark(old(cycles)));
              && r.mode == Triage && r.processed == |batch|
              && r.watermark == Last(batch, Watermark(old(cycles)))
              && (r.ran <==> batch == [] || (o.dump && (o.review || o.think || o.reflex)))
              && (r.degraded <==> batch != [] && o.dump && !o.review && (o.think || o.reflex))
              && (r.role == Think <==> r.degraded && o.think)
              && (r.role == Reflex <==> r.degraded && !o.think)
    {
      ghost var w := World(State(), now, Idle, []);
      ThreeSteps(w, Begin, Collect, if o.persisted then Complete else Crash);
      var watermark := Watermark(cycles);
      var id := Open(Triage, now, watermark);
      var batch := Collected(signals, watermark);
      r := Report(false, Triage, |batch|, Last(batch, watermark), Review, false);
      if batch == [] || (o.dump && o.review) {
        r := r.(ran := true);
      } else if o.dump && (o.think || o.reflex) {
        r := r.(ran := true, role := if o.think then Think else Reflex, degraded := true);
      }
      if o.persisted { PersistCycle(id, now, r); }
    }

    // A review that fails keeps the default watermark of its report, which is 0.
    method RunManagerReview(now: int, o: Outcome) returns (r: Report)
      modifies this
      ensures State() == RunAll(World(old(State()), now, Idle, []),
                                         [BeginReview(Manager), if o.persisted then EndReview(o.review) else Crash]).db
      ensures r.mode == Manager && r.ran && r.processed == 0 && r.degraded == !o.review
      ensures r.watermark == if o.review then Watermark(old(cycles)) else 0
    {
      ghost var w := World(State(), now, Idle, []);
      TwoSteps(w, BeginReview(Manager), if o.persisted then EndReview(o.review) else Crash);
      var watermark := Watermark(cycles);
      var id := Open(Manager, now, watermark);
      r := Report(true, Manager, 0, if o.review then watermark else 0, Review, !o.review);
      if o.persisted { PersistCycle(id, now, r); }
    }
  }

  lemma TwoSteps(w: World, a: Step, b: Step)
    ensures RunAll(w, [a, b]) == Do(Do(w, a), b)
  {
    assert [a, b][..1] == [a] && [a][..0] == [];
    assert RunAll(w, [a]) == Do(w, a);
  }

  lemma ThreeSteps(w: World, a: Step, b: Step, c: Step)
    ensures RunAll(w, [a, b, c]) == Do(Do(Do(w, a), b), c)
  {
    assert [a, b, c][..2] == [a, b];
    TwoSteps(w, a, b);
  }
}
