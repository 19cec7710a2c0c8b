// Approval of parked actions: a tap reads the row, flips its status with a guarded update, and
// executes. Taps run at the same time and may die between any two database statements.
module Approvals {
  datatype Status = Pending | Approved | Rejected | ExecFailed

  datatype Request = Request(run: string, tool: string, args: string)

  datatype Row = Row(request: Request, status: Status)

  type Table = map<string, Row>

  // One call of the executor, for the row `id`.
  datatype Execution = Execution(id: string, tool: string, args: string)

  datatype Decision = Approve | Reject

  // What happens to an approved action. Unreadable: its args do not decode. Refused: the command
  // layer blocks it or there is no executor. The last three call the executor.
  datatype Outcome = Unreadable | Refused | Succeeds | Fails | Raises

  // Where a tap stands between two statements.
  datatype Tap =
    | Read(id: string, request: Request, decision: Decision)   // saw PENDING
    | Flipped(id: string, request: Request)                    // its update hit the row
    | Unsuccessful(id: string)                                 // ran, to be marked
    | RetryFound(id: string, request: Request)                 // saw EXEC_FAILED
    | RetryFree(id: string, request: Request)                  // saw no PENDING twin
    | Done

  // issued: every row ever inserted; approvals, rejections: the flips; retried: rows inserted by
  // retries; executed: the calls of the executor, in order.
  datatype World = World(
    rows: Table, taps: map<nat, Tap>, issued: map<string, Request>,
    approvals: set<string>, rejections: set<string>, retried: set<string>, executed: seq<Execution>)

  datatype Step =
    | Park(id: string, request: Request)      // the runtime inserts a row under a new id
    | TapAction(h: nat, id: string, decision: Decision)
    | Flip(h: nat)
    | Execute(h: nat, outcome: Outcome)
    | MarkFailed(h: nat)
    | TapRetry(h: nat, id: string)
    | LookForTwin(h: nat)
    | InsertRetry(h: nat, newId: string)
    | Die(h: nat)
    | Expire(run: string)                     // the rows of an expired run are deleted

  function At(w: World, h: nat): Tap {
    if h in w.taps then w.taps[h] else Done
  }

  function Move(w: World, h: nat, t: Tap): World {
    w.(taps := w.taps[h := t])
  }

  predicate HasTwin(rows: Table, request: Request) {
    exists id :: id in rows && rows[id] == Row(request, Pending)
  }

  function Marked(rows: Table, id: string, status: Status): Table {
    if id in rows then rows[id := rows[id].(status := status)] else rows
  }

  function Inserted(w: World, id: string, request: Request): World {
    w.(rows := w.rows[id := Row(request, Pending)], issued := w.issued[id := request])
  }

  // UPDATE ... WHERE id = ? AND status = 'PENDING', and its commit.
  function DoFlip(w: World, h: nat, id: string, request: Request, decision: Decision): World {
    if id !in w.rows || w.rows[id].status != Pending then Move(w, h, Done)
    else if decision == Approve then
      Move(w.(rows := Marked(w.rows, id, Approved), approvals := w.approvals + {id}), h, Flipped(id, request))
    else
      Move(w.(rows := Marked(w.rows, id, Rejected), rejections := w.rejections + {id}), h, Done)
  }

  function DoExecute(w: World, h: nat, id: string, request: Request, outcome: Outcome): World {
    var after := if outcome == Refused || outcome == Fails then Unsuccessful(id) else Done;
    var called := outcome == Succeeds || outcome == Fails || outcome == Raises;
    Move(w.(executed := w.executed + if called then [Execution(id, request.tool, request.args)] else []), h, after)
  }

  // A step that does not apply leaves the world alone.
  function Do(w: World, s: Step): World {
    match s
    case Park(id, request) => if id in w.issued then w else Inserted(w, id, request)
    case TapAction(h, id, decision) =>
      if h in w.taps then w
      else if id !in w.rows || w.rows[id].status != Pending then Move(w, h, Done)
      else Move(w, h, Read(id, w.rows[id].request, decision))
    case Flip(h) =>
      var t := At(w, h);
      if t.Read? then DoFlip(w, h, t.id, t.request, t.decision) else w
    case Execute(h, outcome) =>
      var t := At(w, h);
      if t.Flipped? then DoExecute(w, h, t.id, t.request, outcome) else w
    case MarkFailed(h) =>
      var t := At(w, h);
      if t.Unsuccessful? then Move(w.(rows := Marked(w.rows, t.id, ExecFailed)), h, Done) else w
    case TapRetry(h, id) =>
      if h in w.taps then w
      else if id !in w.rows || w.rows[id].status != ExecFailed then Move(w, h, Done)
      else Move(w, h, RetryFound(id, w.rows[id].request))
    case LookForTwin(h) =>
      var t := At(w, h);
      if !t.RetryFound? then w
      else if HasTwin(w.rows, t.request) then Move(w, h, Done)
      else Move(w, h, RetryFree(t.id, t.request))
    case InsertRetry(h, newId) =>
      var t := At(w, h);
      if t.RetryFree? && newId !in w.issued
      then Move(Inserted(w, newId, t.request).(retried := w.retried + {newId}), h, Done)
      else w
    case Die(h) => if h in w.taps then Move(w, h, Done) else w
    case Expire(run) => w.(rows := map id | id in w.rows && w.rows[id].request.run != run :: w.rows[id])
  }

  function DoAll(w: World, steps: seq<Step>): World {
    if steps == [] then w else Do(DoAll(w, steps[..|steps| - 1]), steps[|steps| - 1])
  }

  const START := World(map[], map[], map[], {}, {}, {}, [])

  // ------------------------------------------------------------------------------------
  // What every run keeps

  predicate HasExecuted(w: World, id: string) {
    exists k :: 0 <= k < |w.executed| && w.executed[k].id == id
  }

  predicate RowFits(w: World, id: string)
    requires id in w.rows
  {
    && id in w.issued && w.rows[id].request == w.issued[id]
    && (id in w.approvals <==> w.rows[id].status == Approved || w.rows[id].status == ExecFailed)
    && (id in w.rejections <==> w.rows[id].status == Rejected)
  }

  // The tap whose update approved a row is the only one that may still run it or mark it.
  predicate Owns(t: Tap) {
    t.Flipped? || t.Unsuccessful?
  }

  predicate TapFits(w: World, t: Tap) {
    match t
    case Read(id, request, _) => id in w.issued && w.issued[id] == request
    case Flipped(id, request) =>
      && id in w.issued && w.issued[id] == request
      && id in w.approvals && !HasExecuted(w, id)
      && (id in w.rows ==> w.rows[id].status == Approved)
    case Unsuccessful(id) => id in w.approvals && (id in w.rows ==> w.rows[id].status == Approved)
    case RetryFound(id, request) => true
    case RetryFree(id, request) => true
    case Done => true
  }

  predicate OwnersDiffer(taps: map<nat, Tap>) {
    forall h, g :: h in taps && g in taps && h != g && Owns(taps[h]) && Owns(taps[g]) ==> taps[h].id != taps[g].id
  }

  // Each row at most once, after its own approval, with the tool and args it was parked with.
  predicate ExecutionsFit(w: World) {
    && (forall k :: 0 <= k < |w.executed| ==>
          && w.executed[k].id in w.approvals
          && w.executed[k].id in w.issued
          && w.executed[k].tool == w.issued[w.executed[k].id].tool
          && w.executed[k].args == w.issued[w.executed[k].id].args)
    && (forall j, k :: 0 <= j < k < |w.executed| ==> w.executed[j].id != w.executed[k].id)
  }

  predicate Consistent(w: World) {
    && (forall id :: id in w.rows ==> RowFits(w, id))
    && w.approvals <= w.issued.Keys && w.rejections <= w.issued.Keys
    && w.approvals !! w.rejections
    && (forall h :: h in w.taps ==> TapFits(w, w.taps[h]))
    && OwnersDiffer(w.taps)
    && ExecutionsFit(w)
  }

  predicate MayMove(before: Status, after: Status) {
    || after == before
    || (before == Pending && (after == Approved || after == Rejected))
    || (before == Approved && after == ExecFailed)
  }

  // Requests stay as parked and statuses only move forward.
  predicate RowsAdvance(before: Table, after: Table) {
    forall id :: id in before && id in after ==>
      after[id].request == before[id].request && MayMove(before[id].status, after[id].status)
  }

  lemma InsertedFits(w: World, id: string, request: Request)
    requires Consistent(w) && id !in w.issued
    ensures Consistent(Inserted(w, id, request))
  {
    var w' := Inserted(w, id, request);
    forall h | h in w'.taps ensures TapFits(w', w'.taps[h]) {
      assert TapFits(w, w.taps[h]);
      assert forall i :: HasExecuted(w', i) <==> HasExecuted(w, i);
    }
    forall i | i in w'.rows ensures RowFits(w', i) {
      if i != id { assert RowFits(w, i); }
    }
  }

  // Any move to a state that owns no row.
  lemma MoveFits(w: World, h: nat, t: Tap)
    requires Consistent(w) && TapFits(w, t) && !Owns(t)
    ensures Consistent(Move(w, h, t))
  {
    var w' := Move(w, h, t);
    assert forall id :: HasExecuted(w', id) <==> HasExecuted(w, id);
    forall g | g in w'.taps ensures TapFits(w', w'.taps[g]) {
      assert g != h ==> TapFits(w, w.taps[g]);
    }
    forall id | id in w'.rows ensures RowFits(w', id) { assert RowFits(w, id); }
  }

  lemma FlipFits(w: World, h: nat)
    requires Consistent(w)
    ensures Consistent(Do(w, Flip(h)))
  {
    var t := At(w, h);
    if t.Read? {
      if t.id !in w.rows || w.rows[t.id].status != Pending {
        MoveFits(w, h, Done);
      } else {
        assert RowFits(w, t.id);
        FlippedFits(w, h, t.id, t.request, t.decision);
      }
    }
  }

  lemma FlippedFits(w: World, h: nat, id: string, request: Request, decision: Decision)
    requires Consistent(w) && h in w.taps && w.taps[h] == Read(id, request, decision)
    requires id in w.rows && w.rows[id].status == Pending && RowFits(w, id)
    ensures Consistent(DoFlip(w, h, id, request, decision))
  {
    var w' := DoFlip(w, h, id, request, decision);
    assert TapFits(w, w.taps[h]);
    assert forall i :: HasExecuted(w', i) <==> HasExecuted(w, i);
    forall i | i in w'.rows ensures RowFits(w', i) { assert RowFits(w, i); }
    forall g | g in w'.taps ensures TapFits(w', w'.taps[g]) {
      if g != h { assert TapFits(w, w.taps[g]); }
    }
  }

  lemma ExecuteFits(w: World, h: nat, outcome: Outcome)
    requires Consistent(w)
    ensures Consistent(Do(w, Execute(h, outcome)))
  {
    var t := At(w, h);
    if t.Flipped? {
      assert TapFits(w, w.taps[h]);
      var w' := Do(w, Execute(h, outcome));
      forall i | i in w'.rows ensures RowFits(w', i) { assert RowFits(w, i); }
      assert forall i :: HasExecuted(w', i) ==> HasExecuted(w, i) || i == t.id;
      forall g | g in w'.taps ensures TapFits(w', w'.taps[g]) {
        if g != h { assert TapFits(w, w.taps[g]); }
      }
      forall k | 0 <= k < |w.executed| ensures w.executed[k].id != t.id { assert !HasExecuted(w, t.id); }
    }
  }

  lemma MarkFits(w: World, h: nat)
    requires Consistent(w)
    ensures Consistent(Do(w, MarkFailed(h)))
  {
    var t := At(w, h);
    if t.Unsuccessful? {
      assert TapFits(w, w.taps[h]);
      var w' := Do(w, MarkFailed(h));
      assert forall i :: HasExecuted(w', i) <==> HasExecuted(w, i);
      forall i | i in w'.rows ensures RowFits(w', i) { assert RowFits(w, i); }
      forall g | g in w'.taps ensures TapFits(w', w'.taps[g]) {
        if g != h { assert TapFits(w, w.taps[g]); }
      }
    }
  }

  lemma ExpireFits(w: World, run: string)
    requires Consistent(w)
    ensures Consistent(Do(w, Expire(run)))
  {
    var w' := Do(w, Expire(run));
    assert forall i :: HasExecuted(w', i) <==> HasExecuted(w, i);
    forall i | i in w'.rows ensures RowFits(w', i) { assert RowFits(w, i); }
    forall g | g in w'.taps ensures TapFits(w', w'.taps[g]) { assert TapFits(w, w.taps[g]); }
  }

  lemma InsertRetryFits(w: World, h: nat, newId: string)
    requires Consistent(w)
    ensures Consistent(Do(w, InsertRetry(h, newId)))
  {
    var t := At(w, h);
    if t.RetryFree? && newId !in w.issued {
      InsertedFits(w, newId, t.request);
      var w1 := Inserted(w, newId, t.request);
      MoveFits(w1, h, Done);
      RetriedFits(Move(w1, h, Done), newId);
    }
  }

  lemma RetriedFits(w: World, newId: string)
    requires Consistent(w)
    ensures Consistent(w.(retried := w.retried + {newId}))
  {
    var w' := w.(retried := w.retried + {newId});
    assert forall i :: HasExecuted(w', i) <==> HasExecuted(w, i);
    forall i | i in w'.rows ensures RowFits(w', i) { assert RowFits(w, i); }
    forall g | g in w'.taps ensures TapFits(w', w'.taps[g]) { assert TapFits(w, w.taps[g]); }
  }

  lemma TapFitsAt(w: World, id: string)
    requires Consistent(w) && id in w.rows
    ensures id in w.issued && w.issued[id] == w.rows[id].request
  {
    assert RowFits(w, id);
  }

  lemma StepFits(w: World, s: Step)
    requires Consistent(w)
    ensures Consistent(Do(w, s))
  {
    match s {
      case Park(id, request) => if id !in w.issued { InsertedFits(w, id, request); }
      case TapAction(h, id, decision) =>
        if h !in w.taps {
          if id !in w.rows || w.rows[id].status != Pending {
            MoveFits(w, h, Done);
          } else {
            TapFitsAt(w, id);
            MoveFits(w, h, Read(id, w.rows[id].request, decision));
          }
        }
      case Flip(h) => FlipFits(w, h);
      case Execute(h, outcome) => ExecuteFits(w, h, outcome);
      case MarkFailed(h) => MarkFits(w, h);
      case TapRetry(h, id) =>
        if h !in w.taps {
          MoveFits(w, h,
                   if id !in w.rows || w.rows[id].status != ExecFailed then Done
                   else RetryFound(id, w.rows[id].request));
        }
      case LookForTwin(h) =>
        var t := At(w, h);
        if t.RetryFound? {
          MoveFits(w, h, if HasTwin(w.rows, t.request) then Done else RetryFree(t.id, t.request));
        }
      case InsertRetry(h, newId) => InsertRetryFits(w, h, newId);
      case Die(h) => if h in w.taps { MoveFits(w, h, Done); }
      case Expire(run) => ExpireFits(w, run);
    }
  }

  // One step moves a status forward or leaves it: the unguarded update of a failed execution
  // only ever finds a row that its own tap approved.
  lemma StepAdvances(w: World, s: Step)
    requires Consistent(w)
    ensures RowsAdvance(w.rows, Do(w, s).rows)
  {
    match s {
      case Park(id, request) => if id in w.rows { assert RowFits(w, id); }
      case Flip(h) => FlipAdvances(w, h);
      case MarkFailed(h) => MarkAdvances(w, h);
      case InsertRetry(h, newId) => if newId in w.rows { assert RowFits(w, newId); }
      case Expire(_) =>
      case _ => assert Do(w, s).rows == w.rows;
    }
  }

  lemma FlipAdvances(w: World, h: nat)
    ensures RowsAdvance(w.rows, Do(w, Flip(h)).rows)
  {
  }

  lemma MarkAdvances(w: World, h: nat)
    requires Consistent(w)
    ensures RowsAdvance(w.rows, Do(w, MarkFailed(h)).rows)
  {
    if At(w, h).Unsuccessful? { assert TapFits(w, w.taps[h]); }
  }

  // Over any run: no row is executed twice, none without its own approval, and none that was
  // rejected, even after the row itself has been deleted.
  lemma {:induction false} RunsFit(w: World, steps: seq<Step>)
    requires Consistent(w)
    ensures Consistent(DoAll(w, steps))
    ensures forall id :: id in DoAll(w, steps).rejections ==> !HasExecuted(DoAll(w, steps), id)
  {
    if steps != [] {
      RunsFit(w, steps[..|steps| - 1]);
      StepFits(DoAll(w, steps[..|steps| - 1]), steps[|steps| - 1]);
    }
  }

  // In particular from a start with no rows: what has been executed was parked, approved and not
  // rejected, with the tool and args of its request, once.
  lemma RunsFromNothingFit(steps: seq<Step>)
    ensures var w := DoAll(START, steps);
            && (forall k :: 0 <= k < |w.executed| ==>
                  var e := w.executed[k];
                  && e.id in w.approvals && e.id !in w.rejections && e.id in w.issued
                  && e.tool == w.issued[e.id].tool && e.args == w.issued[e.id].args)
            && forall j, k :: 0 <= j < k < |w.executed| ==> w.executed[j].id != w.executed[k].id
  {
    RunsFit(START, steps);
  }

  predicate MayReach(before: Status, after: Status) {
    before == after || before == Pending || (before == Approved && after == ExecFailed)
  }

  // What may have become of a row: it moved forward, or it was deleted and its id never comes back.
  predicate Followed(w: World, id: string, row: Row) {
    id in w.issued && (id in w.rows ==> w.rows[id].request == row.request && MayReach(row.status, w.rows[id].status))
  }

  lemma FollowedStep(w: World, s: Step, id: string, row: Row)
    requires Consistent(w) && Followed(w, id, row)
    ensures Followed(Do(w, s), id, row)
  {
    StepAdvances(w, s);
    var rows' := Do(w, s).rows;
    assert id in rows' ==> id in w.rows;
    assert id in rows' ==> MayMove(w.rows[id].status, rows'[id].status);
  }

  // From any point of a run to any later one.
  lemma {:induction false} RunsAdvance(w: World, steps: seq<Step>, id: string)
    requires Consistent(w) && id in w.rows
    ensures Followed(DoAll(w, steps), id, w.rows[id])
  {
    if steps == [] {
      TapFitsAt(w, id);
    } else {
      RunsFit(w, steps[..|steps| - 1]);
      RunsAdvance(w, steps[..|steps| - 1], id);
      FollowedStep(DoAll(w, steps[..|steps| - 1]), steps[|steps| - 1], id, w.rows[id]);
    }
  }

  // No tap is left that could run or mark the row.
  predicate Stranded(w: World, id: string) {
    && id in w.issued
    && (id in w.rows ==> w.rows[id].status == Approved)
    && forall h :: h in w.taps && Owns(w.taps[h]) ==> w.taps[h].id != id
  }

  // An approved row whose tap has ended, because it died, because the args did not decode or
  // because the executor raised, stays APPROVED for good: nothing runs it, marks it or retries it.
  lemma {:induction false} StrandedForGood(w: World, steps: seq<Step>, id: string)
    requires Consistent(w) && Stranded(w, id)
    ensures Stranded(DoAll(w, steps), id)
    ensures HasExecuted(DoAll(w, steps), id) <==> HasExecuted(w, id)
  {
    if steps != [] {
      var before, s := DoAll(w, steps[..|steps| - 1]), steps[|steps| - 1];
      StrandedForGood(w, steps[..|steps| - 1], id);
      StrandedStep(before, s, id);
    }
  }

  // As long as an approved row stays where it is, and is not run (again).
  ghost predicate NothingComes(w: World, id: string) {
    forall steps ::
      var w' := DoAll(w, steps);
      && (HasExecuted(w', id) <==> HasExecuted(w, id))
      && (id in w'.rows ==> w'.rows[id].status == Approved)
  }

  // An approved row is past all help exactly when no tap is left that flipped it.
  lemma StrandedIffNothingComes(w: World, id: string)
    requires Consistent(w) && id in w.rows && w.rows[id].status == Approved
    ensures Stranded(w, id) <==> NothingComes(w, id)
  {
    TapFitsAt(w, id);
    if Stranded(w, id) {
      forall steps
        ensures HasExecuted(DoAll(w, steps), id) <==> HasExecuted(w, id)
        ensures id in DoAll(w, steps).rows ==> DoAll(w, steps).rows[id].status == Approved
      {
        StrandedForGood(w, steps, id);
      }
    } else {
      var h :| h in w.taps && Owns(w.taps[h]) && w.taps[h].id == id;
      OwnerMoves(w, h);
    }
  }

  // The tap that flipped it has one more step, and that step shows.
  lemma OwnerMoves(w: World, h: nat)
    requires Consistent(w) && h in w.taps && Owns(w.taps[h])
    requires w.taps[h].id in w.rows && w.rows[w.taps[h].id].status == Approved
    ensures !NothingComes(w, w.taps[h].id)
  {
    var t := w.taps[h];
    assert TapFits(w, t);
    var s := if t.Flipped? then Execute(h, Succeeds) else MarkFailed(h);
    var w' := DoAll(w, [s]);
    OneStep(w, s);
    if t.Flipped? {
      assert w'.executed[|w.executed|].id == t.id;
      assert HasExecuted(w', t.id);
    } else {
      assert w'.rows[t.id].status == ExecFailed;
    }
  }

  lemma OneStep(w: World, s: Step)
    ensures DoAll(w, [s]) == Do(w, s)
  {
    assert [s][..|[s]| - 1] == [];
    assert DoAll(w, []) == w;
  }

  // From nothing: a tap that dies right after its update strands the row that it approved.
  lemma DyingTapStrands(id: string, request: Request)
    ensures var w := DoAll(START, [Park(id, request), TapAction(0, id, Approve), Flip(0), Die(0)]);
            && Consistent(w)
            && id in w.rows && w.rows[id] == Row(request, Approved)
            && !HasExecuted(w, id) && Stranded(w, id)
  {
    var steps := [Park(id, request), TapAction(0, id, Approve), Flip(0), Die(0)];
    FourSteps(START, steps[0], steps[1], steps[2], steps[3]);
    RunsFit(START, steps);
    DyingTap(id, request);
  }

  lemma DyingTap(id: string, request: Request)
    ensures var w := Do(Do(Do(Do(START, Park(id, request)), TapAction(0, id, Approve)), Flip(0)), Die(0));
            && w.rows == map[id := Row(request, Approved)] && w.taps == map[0 := Done]
            && w.executed == [] && id in w.issued
  {
    var w1 := Do(START, Park(id, request));
    var w2 := Do(w1, TapAction(0, id, Approve));
    assert w2.taps == map[0 := Read(id, request, Approve)] && w2.rows == map[id := Row(request, Pending)];
    var w3 := Do(w2, Flip(0));
    assert w3.taps == map[0 := Flipped(id, request)] && w3.rows == map[id := Row(request, Approved)];
  }

  lemma StrandedStep(w: World, s: Step, id: string)
    requires Stranded(w, id)
    ensures Stranded(Do(w, s), id)
    ensures HasExecuted(Do(w, s), id) <==> HasExecuted(w, id)
  {
    var w' := Do(w, s);
    if s.Execute? {
      StrandedExecution(w, s.h, s.outcome, id);
    } else {
      assert w'.executed == w.executed;
    }
  }

  lemma StrandedExecution(w: World, h: nat, outcome: Outcome, id: string)
    requires Stranded(w, id)
    ensures Stranded(Do(w, Execute(h, outcome)), id)
    ensures HasExecuted(Do(w, Execute(h, outcome)), id) <==> HasExecuted(w, id)
  {
    var w' := Do(w, Execute(h, outcome));
    assert |w'.executed| > |w.executed| ==> w'.executed[|w.executed|].id != id;
    if HasExecuted(w, id) {
      var k :| 0 <= k < |w.executed| && w.executed[k].id == id;
      assert w'.executed[k].id == id;
    }
  }

  // ------------------------------------------------------------------------------------
  // Retries

  predicate Retrying(t: Tap) {
    t.RetryFound? || t.RetryFree?
  }

  predicate NoneRetrying(w: World) {
    forall h :: h in w.taps ==> !Retrying(w.taps[h])
  }

  // Every retry starts when no other one is between its first query and its insert.
  ghost predicate OneRetryAtATime(w: World, steps: seq<Step>) {
    forall k :: 0 <= k < |steps| && steps[k].TapRetry? ==> NoneRetrying(DoAll(w, steps[..k]))
  }

  predicate RetriedPending(w: World, id: string, request: Request) {
    id in w.retried && id in w.rows && w.rows[id] == Row(request, Pending)
  }

  predicate OneRetrying(taps: map<nat, Tap>) {
    forall h, g :: h in taps && g in taps && Retrying(taps[h]) && Retrying(taps[g]) ==> h == g
  }

  // Between the look for a twin and the insert no retry adds one.
  predicate FreeIsFree(w: World) {
    forall h, id :: h in w.taps && w.taps[h].RetryFree? && id in w.retried ==> !RetriedPending(w, id, w.taps[h].request)
  }

  predicate OnePerRequest(w: World) {
    forall i, j :: i in w.retried && j in w.retried && i != j && i in w.rows ==> !TwoPending(w, i, j)
  }

  predicate TwoPending(w: World, i: string, j: string)
    requires i in w.rows
  {
    w.rows[i].status == Pending && RetriedPending(w, j, w.rows[i].request)
  }

  predicate RetriesFit(w: World) {
    && w.retried <= w.issued.Keys
    && OneRetrying(w.taps)
    && FreeIsFree(w)
    && OnePerRequest(w)
  }

  // A step that starts no retry, adds no retried row and makes none pending.
  lemma OtherStepsFit(w: World, w': World)
    requires RetriesFit(w)
    requires w'.retried == w.retried && w.issued.Keys <= w'.issued.Keys
    requires forall h :: h in w'.taps && Retrying(w'.taps[h]) ==> h in w.taps && w.taps[h] == w'.taps[h]
    requires forall id :: id in w.retried && id in w'.rows && w'.rows[id].status == Pending ==>
                            id in w.rows && w.rows[id] == w'.rows[id]
    ensures RetriesFit(w')
  {
    forall h, id | h in w'.taps && w'.taps[h].RetryFree? && id in w'.retried
      ensures !RetriedPending(w', id, w'.taps[h].request)
    {
      assert !RetriedPending(w, id, w.taps[h].request);
    }
    forall i, j | i in w'.retried && j in w'.retried && i != j && i in w'.rows ensures !TwoPending(w', i, j) {
      assert i in w.rows ==> !TwoPending(w, i, j);
    }
  }

  lemma LookFits(w: World, h: nat)
    requires RetriesFit(w)
    ensures RetriesFit(Do(w, LookForTwin(h)))
  {
    var t := At(w, h);
    var w' := Do(w, LookForTwin(h));
    if t.RetryFound? {
      forall g, id | g in w'.taps && w'.taps[g].RetryFree? && id in w'.retried
        ensures !RetriedPending(w', id, w'.taps[g].request)
      {
        assert g == h;
        assert id in w.rows ==> w.rows[id] != Row(t.request, Pending);
      }
      forall i, j | i in w'.retried && j in w'.retried && i != j && i in w'.rows ensures !TwoPending(w', i, j) {
        assert !TwoPending(w, i, j);
      }
    }
  }

  lemma InsertFits(w: World, h: nat, newId: string)
    requires Consistent(w) && RetriesFit(w)
    ensures RetriesFit(Do(w, InsertRetry(h, newId)))
  {
    var t := At(w, h);
    var w' := Do(w, InsertRetry(h, newId));
    if t.RetryFree? && newId !in w.issued {
      assert newId !in w.retried;
      forall i, j | i in w'.retried && j in w'.retried && i != j && i in w'.rows ensures !TwoPending(w', i, j) {
        if i == newId {
          assert !RetriedPending(w, j, t.request);
        } else if j == newId {
          assert !RetriedPending(w, i, t.request);
        } else {
          assert !TwoPending(w, i, j);
        }
      }
    }
  }

  lemma TapRetryFits(w: World, h: nat, id: string)
    requires RetriesFit(w) && NoneRetrying(w)
    ensures RetriesFit(Do(w, TapRetry(h, id)))
  {
    var w' := Do(w, TapRetry(h, id));
    forall i, j | i in w'.retried && j in w'.retried && i != j && i in w'.rows ensures !TwoPending(w', i, j) {
      assert !TwoPending(w, i, j);
    }
  }

  lemma RetryStepFits(w: World, s: Step)
    requires Consistent(w) && RetriesFit(w) && (s.TapRetry? ==> NoneRetrying(w))
    ensures RetriesFit(Do(w, s))
  {
    match s {
      case TapRetry(h, id) => TapRetryFits(w, h, id);
      case LookForTwin(h) => LookFits(w, h);
      case InsertRetry(h, newId) => InsertFits(w, h, newId);
      case Park(_, _) => OtherStepsFit(w, Do(w, s));
      case Expire(_) => OtherStepsFit(w, Do(w, s));
      case _ => TapStepFits(w, s);
    }
  }

  // Steps of the approving taps.
  lemma TapStepFits(w: World, s: Step)
    requires RetriesFit(w) && (s.TapAction? || s.Flip? || s.Execute? || s.MarkFailed? || s.Die?)
    ensures RetriesFit(Do(w, s))
  {
    if s.Flip? || s.MarkFailed? {
      StatusStepFits(w, s);
    } else {
      OtherStepsFit(w, Do(w, s));
    }
  }

  lemma StatusStepFits(w: World, s: Step)
    requires RetriesFit(w) && (s.Flip? || s.MarkFailed?)
    ensures RetriesFit(Do(w, s))
  {
    OtherStepsFit(w, Do(w, s));
  }

  // With retries one at a time, whatever the other taps do: at most one pending row that a retry
  // inserted for the same run, tool and args.
  lemma {:induction false} SerialRetriesInsertOne(w: World, steps: seq<Step>)
    requires Consistent(w) && RetriesFit(w) && OneRetryAtATime(w, steps)
    ensures Consistent(DoAll(w, steps)) && RetriesFit(DoAll(w, steps))
  {
    if steps != [] {
      var init := steps[..|steps| - 1];
      assert forall k :: 0 <= k < |init| ==> init[..k] == steps[..k];
      SerialRetriesInsertOne(w, init);
      assert steps[|init|].TapRetry? ==> NoneRetrying(DoAll(w, steps[..|init|]));
      StepFits(DoAll(w, init), steps[|init|]);
      RetryStepFits(DoAll(w, init), steps[|init|]);
    }
  }

  // In particular from a start with no rows.
  lemma SerialRetriesFromNothing(steps: seq<Step>)
    requires OneRetryAtATime(START, steps)
    ensures RetriesFit(DoAll(START, steps))
  {
    SerialRetriesInsertOne(START, steps);
  }

  // A retry that found no twin and inserts when one is there.
  predicate StaleRetry(w: World, s: Step) {
    && s.InsertRetry? && At(w, s.h).RetryFree? && s.newId !in w.issued
    && exists id :: id in w.retried && RetriedPending(w, id, At(w, s.h).request)
  }

  // Exactly these steps put a second retried row beside a pending one of its request.
  lemma OnePerRequestBrokenIffStale(w: World, s: Step)
    requires Consistent(w) && OnePerRequest(w) && w.retried <= w.issued.Keys
    ensures OnePerRequest(Do(w, s)) <==> !StaleRetry(w, s)
  {
    var w' := Do(w, s);
    if s.InsertRetry? && At(w, s.h).RetryFree? && s.newId !in w.issued {
      InsertBreaksIffStale(w, s.h, s.newId);
    } else {
      NoNewPending(w, s);
      forall i, j | i in w'.retried && j in w'.retried && i != j && i in w'.rows ensures !TwoPending(w', i, j) {
        assert i in w.rows ==> !TwoPending(w, i, j);
      }
    }
  }

  // Other steps make no retried row pending.
  lemma NoNewPending(w: World, s: Step)
    requires Consistent(w) && w.retried <= w.issued.Keys
    requires !(s.InsertRetry? && At(w, s.h).RetryFree? && s.newId !in w.issued)
    ensures Do(w, s).retried == w.retried
    ensures forall id :: id in w.retried && id in Do(w, s).rows && Do(w, s).rows[id].status == Pending ==>
                           id in w.rows && w.rows[id] == Do(w, s).rows[id]
  {
    StepAdvances(w, s);
    assert forall id :: id in w.issued && id in Do(w, s).rows ==> id in w.rows;
  }

  lemma RowsAreIssued(w: World)
    requires Consistent(w)
    ensures w.rows.Keys <= w.issued.Keys
  {
    forall id | id in w.rows ensures id in w.issued { TapFitsAt(w, id); }
  }

  lemma InsertBreaksIffStale(w: World, h: nat, newId: string)
    requires Consistent(w) && OnePerRequest(w) && w.retried <= w.issued.Keys
    requires At(w, h).RetryFree? && newId !in w.issued
    ensures OnePerRequest(Do(w, InsertRetry(h, newId))) <==> !StaleRetry(w, InsertRetry(h, newId))
  {
    var w', request := Do(w, InsertRetry(h, newId)), At(w, h).request;
    RowsAreIssued(w);
    assert RetriedPending(w', newId, request);
    if id :| id in w.retried && RetriedPending(w, id, request) {
      assert id != newId && TwoPending(w', id, newId);
    } else {
      forall i, j | i in w'.retried && j in w'.retried && i != j && i in w'.rows ensures !TwoPending(w', i, j) {
        if i == newId {
          assert !RetriedPending(w, j, request);
        } else if j == newId {
          assert !RetriedPending(w, i, request);
        } else {
          assert !TwoPending(w, i, j);
        }
      }
    }
  }

  // At no point of the run do two retried rows of one request wait side by side.
  predicate NeverTwo(w: World, steps: seq<Step>) {
    OnePerRequest(DoAll(w, steps)) && (steps != [] ==> NeverTwo(w, steps[..|steps| - 1]))
  }

  predicate NeverStale(w: World, steps: seq<Step>) {
    steps != [] ==>
      var init := steps[..|steps| - 1];
      !StaleRetry(DoAll(w, init), steps[|init|]) && NeverStale(w, init)
  }

  // So over a whole run there is never a second one exactly when no insert is stale.
  lemma {:induction false} NeverTwoIffNeverStale(w: World, steps: seq<Step>)
    requires Consistent(w) && OnePerRequest(w) && w.retried <= w.issued.Keys
    ensures NeverTwo(w, steps) <==> NeverStale(w, steps)
    ensures DoAll(w, steps).retried <= DoAll(w, steps).issued.Keys
  {
    if steps != [] {
      var init, s := steps[..|steps| - 1], steps[|steps| - 1];
      NeverTwoIffNeverStale(w, init);
      RunsFit(w, init);
      RetriedIsIssued(DoAll(w, init), s);
      if NeverTwo(w, init) {
        OnePerRequestBrokenIffStale(DoAll(w, init), s);
      }
    }
  }

  lemma RetriedIsIssued(w: World, s: Step)
    requires w.retried <= w.issued.Keys
    ensures Do(w, s).retried <= Do(w, s).issued.Keys
  {
  }

  // Two retries of one failed row whose queries both come before their inserts both insert, for
  // the queries open no transaction: the documented protection does not hold then.
  lemma OverlappingRetriesInsertTwo(w: World, id: string, h: nat, g: nat, a: string, b: string)
    requires id in w.rows && w.rows[id].status == ExecFailed && !HasTwin(w.rows, w.rows[id].request)
    requires h !in w.taps && g !in w.taps && h != g
    requires a !in w.issued && b !in w.issued && a != b
    ensures var w1 := Do(Do(Do(Do(w, TapRetry(h, id)), TapRetry(g, id)), LookForTwin(h)), LookForTwin(g));
            var w2 := Do(Do(w1, InsertRetry(h, a)), InsertRetry(g, b));
            RetriedPending(w2, a, w.rows[id].request) && RetriedPending(w2, b, w.rows[id].request)
  {
    var request := w.rows[id].request;
    var w1 := Do(Do(w, TapRetry(h, id)), TapRetry(g, id));
    assert w1.rows == w.rows && w1.taps[h] == RetryFound(id, request) && w1.taps[g] == RetryFound(id, request);
    var w2 := Do(Do(w1, LookForTwin(h)), LookForTwin(g));
    assert w2.taps[h] == RetryFree(id, request) && w2.taps[g] == RetryFree(id, request);
  }

  // One after the other, the second finds the first one's row.
  lemma SequentialRetriesInsertOne(w: World, id: string, h: nat, g: nat, a: string, b: string)
    requires Consistent(w)
    requires id in w.rows && w.rows[id].status == ExecFailed && !HasTwin(w.rows, w.rows[id].request)
    requires h !in w.taps && g !in w.taps && h != g && a !in w.issued
    ensures var w1 := Do(Do(Do(w, TapRetry(h, id)), LookForTwin(h)), InsertRetry(h, a));
            && RetriedPending(w1, a, w.rows[id].request)
            && Do(Do(Do(w1, TapRetry(g, id)), LookForTwin(g)), InsertRetry(g, b)).rows == w1.rows
  {
    assert RowFits(w, id);
    var request := w.rows[id].request;
    var w1 := Do(Do(Do(w, TapRetry(h, id)), LookForTwin(h)), InsertRetry(h, a));
    assert w1.rows[a] == Row(request, Pending);
    var w2 := Do(w1, TapRetry(g, id));
    assert At(w2, g) == RetryFound(id, request);
    assert HasTwin(w2.rows, request);
  }

  // ------------------------------------------------------------------------------------
  // One uninterrupted tap

  datatype Ending = NotFound | AlreadyHandled | RejectedIt | ArgsDecodeFailed | Executed | ExecutionFailed | Error
                 | RetryNotAvailable | AlreadyRetried | Retried

  function ActionSteps(id: string, decision: Decision, outcome: Outcome): seq<Step> {
    [TapAction(0, id, decision), Flip(0), Execute(0, outcome), MarkFailed(0)]
  }

  function RetrySteps(id: string, newId: string): seq<Step> {
    [TapRetry(0, id), LookForTwin(0), InsertRetry(0, newId)]
  }

  // What an uninterrupted tap does.
  function Handled(w: World, id: string, decision: Decision, outcome: Outcome): World {
    if id !in w.rows || w.rows[id].status != Pending then w
    else if decision == Reject then w.(rows := Marked(w.rows, id, Rejected), rejections := w.rejections + {id})
    else
      var request, approved := w.rows[id].request, Marked(w.rows, id, Approved);
      w.(rows := if outcome == Refused || outcome == Fails then Marked(approved, id, ExecFailed) else approved,
         approvals := w.approvals + {id},
         executed := w.executed + if outcome == Unreadable || outcome == Refused then []
                                  else [Execution(id, request.tool, request.args)])
  }

  function RetryHandled(w: World, id: string, newId: string): World
    requires newId !in w.issued
  {
    if id !in w.rows || w.rows[id].status != ExecFailed || HasTwin(w.rows, w.rows[id].request) then w
    else Inserted(w, newId, w.rows[id].request).(retried := w.retried + {newId})
  }

  // The world after these steps, once the tap has ended.
  function Ended(w: World, steps: seq<Step>): World {
    DoAll(w, steps).(taps := map[])
  }

  lemma HandledIsSteps(w: World, id: string, decision: Decision, outcome: Outcome)
    requires w.taps == map[]
    ensures Ended(w, ActionSteps(id, decision, outcome)) == Handled(w, id, decision, outcome)
  {
    FourSteps(w, TapAction(0, id, decision), Flip(0), Execute(0, outcome), MarkFailed(0));
    var w1 := Do(w, TapAction(0, id, decision));
    var w2 := Do(w1, Flip(0));
    if id in w.rows && w.rows[id].status == Pending {
      assert w1.taps[0] == Read(id, w.rows[id].request, decision);
      assert decision == Approve ==> w2.taps[0] == Flipped(id, w.rows[id].request);
    }
  }

  lemma RetryHandledIsSteps(w: World, id: string, newId: string)
    requires w.taps == map[] && newId !in w.issued
    ensures Ended(w, RetrySteps(id, newId)) == RetryHandled(w, id, newId)
  {
    FourSteps(w, TapRetry(0, id), LookForTwin(0), InsertRetry(0, newId), InsertRetry(0, newId));
    RetryMoves(w, id, newId);
  }

  lemma RetryMoves(w: World, id: string, newId: string)
    requires w.taps == map[] && newId !in w.issued
    ensures var w' := Do(Do(Do(w, TapRetry(0, id)), LookForTwin(0)), InsertRetry(0, newId));
            w'.(taps := map[]) == RetryHandled(w, id, newId)
  {
    var w1 := Do(w, TapRetry(0, id));
    var w2 := Do(w1, LookForTwin(0));
    if id !in w.rows || w.rows[id].status != ExecFailed {
      assert w1.taps == map[0 := Done] && w2 == w1;
    } else {
      var request := w.rows[id].request;
      assert w1.taps == map[0 := RetryFound(id, request)];
      assert w2.taps == map[0 := if HasTwin(w.rows, request) then Done else RetryFree(id, request)];
    }
  }

  class TelegramAdapter {
    var rows: Table
    var executed: seq<Execution>
    ghost var issued: map<string, Request>
    ghost var approvals: set<string>
    ghost var rejections: set<string>
    ghost var retried: set<string>

    ghost function State(): World
      reads this
    {
      World(rows, map[], issued, approvals, rejections, retried, executed)
    }

    method HandleAction(id: string, decision: Decision, outcome: Outcome) returns (ending: Ending)
      modifies this
      ensures State() == Ended(old(State()), ActionSteps(id, decision, outcome))
      ensures ending == if id !in old(rows) then NotFound
                       else if old(rows)[id].status != Pending then AlreadyHandled
                       else if decision == Reject then RejectedIt
                       else if outcome == Unreadable then ArgsDecodeFailed
                       else if outcome == Succeeds then Executed
                       else if outcome == Raises then Error else ExecutionFailed
      // A rejection marks the row and never calls the executor.
      ensures ending == RejectedIt ==>
                && rows == old(rows)[id := Row(old(rows)[id].request, Rejected)]
                && rejections == old(rejections) + {id} && approvals == old(approvals)
      ensures ending in {ArgsDecodeFailed, Executed, Error, ExecutionFailed} ==>
                && rows == old(rows)[id := Row(old(rows)[id].request,
                                               if ending == ExecutionFailed then ExecFailed else Approved)]
                && approvals == old(approvals) + {id} && rejections == old(rejections)
      ensures ending in {NotFound, AlreadyHandled} ==>
                rows == old(rows) && approvals == old(approvals) && rejections == old(rejections)
      ensures executed == if ending in {Executed, Error} || (ending == ExecutionFailed && outcome == Fails)
                          then old(executed) + [Execution(id, old(rows)[id].request.tool, old(rows)[id].request.args)]
                          else old(executed)
    {
      HandledIsSteps(State(), id, decision, outcome);
      if id !in rows { return NotFound; }
      var row := rows[id];
      if row.status != Pending { return AlreadyHandled; }
      if decision == Reject {
        rows, rejections := rows[id := row.(status := Rejected)], rejections + {id};
        return RejectedIt;
      }
      rows, approvals := rows[id := row.(status := Approved)], approvals + {id};
      if outcome == Unreadable { return ArgsDecodeFailed; }
      ending := Invoke(id, row.request, outcome);
      if ending == ExecutionFailed { rows := rows[id := rows[id].(status := ExecFailed)]; }
    }

    method Invoke(id: string, request: Request, outcome: Outcome) returns (ending: Ending)
      requires outcome != Unreadable
      modifies `executed
      ensures executed == old(executed) + if outcome == Refused then [] else [Execution(id, request.tool, request.args)]
      ensures ending == if outcome == Succeeds then Executed else if outcome == Raises then Error else ExecutionFailed
    {
      if outcome == Refused { return ExecutionFailed; }
      executed := executed + [Execution(id, request.tool, request.args)];
      ending := if outcome == Succeeds then Executed else if outcome == Raises then Error else ExecutionFailed;
    }

    method HandleRetry(id: string, newId: string) returns (ending: Ending)
      requires newId !in issued
      modifies this
      ensures State() == Ended(old(State()), RetrySteps(id, newId))
      ensures ending == if id !in old(rows) then NotFound
                       else if old(rows)[id].status != ExecFailed then RetryNotAvailable
                       else if HasTwin(old(rows), old(rows)[id].request) then AlreadyRetried else Retried
      // Only a PENDING row with the same run, tool and args keeps the retry from getting its own.
      ensures ending == AlreadyRetried ==>
                exists k :: k in old(rows) && old(rows)[k] == Row(old(rows)[id].request, Pending)
      ensures ending == Retried ==>
                && rows == old(rows)[newId := Row(old(rows)[id].request, Pending)]
                && forall k :: k in old(rows) && old(rows)[k].status == Pending ==>
                                 old(rows)[k].request != old(rows)[id].request
      ensures ending != Retried ==> rows == old(rows)
      ensures executed == old(executed) && approvals == old(approvals) && rejections == old(rejections)
    {
      RetryHandledIsSteps(State(), id, newId);
      if id !in rows { return NotFound; }
      var row := rows[id];
      if row.status != ExecFailed { return RetryNotAvailable; }
      if HasTwin(rows, row.request) { return AlreadyRetried; }
      rows, issued, retried := rows[newId := Row(row.request, Pending)],
                               issued[newId := row.request], retried + {newId};
      return Retried;
    }
  }

  lemma FourSteps(w: World, a: Step, b: Step, c: Step, d: Step)
    ensures DoAll(w, [a, b, c]) == Do(Do(Do(w, a), b), c)
    ensures DoAll(w, [a, b, c, d]) == Do(Do(Do(Do(w, a), b), c), d)
  {
    assert [a, b, c, d][..3] == [a, b, c] && [a, b, c][..2] == [a, b] && [a, b][..1] == [a] && [a][..0] == [];
    assert DoAll(w, [a]) == Do(w, a);
    assert DoAll(w, [a, b]) == Do(Do(w, a), b);
  }
}
