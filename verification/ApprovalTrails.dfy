// What every state of the approvals says about the taps behind it, and what single steps do to
// the rows.
module ApprovalTrails {
  import opened Approvals

  // ------------------------------------------------------------------------------------
  // Behind every effect of a run there is a tap that asked for it

  predicate Failing(o: Outcome) { o == Refused || o == Fails }

  predicate Calling(o: Outcome) { o == Succeeds || o == Fails || o == Raises }

  // Tap h is an approval of this row, and its update has been sent.
  predicate Approving(steps: seq<Step>, h: nat, id: string) {
    TapAction(h, id, Approve) in steps && Flip(h) in steps
  }

  predicate Rejecting(steps: seq<Step>, h: nat, id: string) {
    TapAction(h, id, Reject) in steps && Flip(h) in steps
  }

  predicate ExecutedBy(steps: seq<Step>, h: nat, o: Outcome, id: string) {
    Approving(steps, h, id) && Execute(h, o) in steps && Calling(o)
  }

  predicate FailedBy(steps: seq<Step>, h: nat, o: Outcome, id: string) {
    Approving(steps, h, id) && Execute(h, o) in steps && Failing(o)
  }

  predicate RetriedBy(w: World, steps: seq<Step>, h: nat, id: string, newId: string) {
    && TapRetry(h, id) in steps && LookForTwin(h) in steps && InsertRetry(h, newId) in steps
    && id in w.issued && newId in w.issued && w.issued[newId] == w.issued[id]
  }

  ghost predicate TapTrail(w: World, steps: seq<Step>, h: nat) {
    match At(w, h)
    case Read(id, request, decision) => TapAction(h, id, decision) in steps
    case Flipped(id, request) => Approving(steps, h, id)
    case Unsuccessful(id) => exists o :: FailedBy(steps, h, o, id)
    case RetryFound(id, request) => TapRetry(h, id) in steps && id in w.issued && w.issued[id] == request
    case RetryFree(id, request) =>
      TapRetry(h, id) in steps && LookForTwin(h) in steps && id in w.issued && w.issued[id] == request
    case Done => true
  }

  ghost predicate SetTrails(w: World, steps: seq<Step>) {
    && (forall id :: id in w.approvals ==> exists h :: Approving(steps, h, id))
    && (forall id :: id in w.rejections ==> exists h :: Rejecting(steps, h, id))
    && (forall id :: id in w.retried ==> exists h, failed :: RetriedBy(w, steps, h, failed, id))
  }

  ghost predicate ExecutedTrails(w: World, steps: seq<Step>) {
    forall e :: e in w.executed ==> exists h, o :: ExecutedBy(steps, h, o, e.id)
  }

  ghost predicate RowTrails(w: World, steps: seq<Step>) {
    forall id :: id in w.rows && w.rows[id].status == ExecFailed ==>
                   exists h, o :: FailedBy(steps, h, o, id) && MarkFailed(h) in steps
  }

  ghost predicate Trails(w: World, steps: seq<Step>) {
    && (forall h: nat :: TapTrail(w, steps, h))
    && SetTrails(w, steps) && ExecutedTrails(w, steps) && RowTrails(w, steps)
  }

  // What a step leaves alone of the rows that have been issued.
  lemma IssuedStays(w: World, s: Step, id: string)
    requires id in w.issued
    ensures id in Do(w, s).issued && Do(w, s).issued[id] == w.issued[id]
  {
  }

  lemma TapTrailLater(w: World, init: seq<Step>, s: Step, h: nat)
    requires TapTrail(w, init, h) && At(Do(w, s), h) == At(w, h)
    ensures TapTrail(Do(w, s), init + [s], h)
  {
    match At(w, h) {
      case Unsuccessful(id) =>
        var o :| FailedBy(init, h, o, id);
        assert FailedBy(init + [s], h, o, id);
      case RetryFound(id, request) => IssuedStays(w, s, id);
      case RetryFree(id, request) => IssuedStays(w, s, id);
      case _ =>
    }
  }

  lemma TapTrailStep(w: World, init: seq<Step>, s: Step, h: nat)
    requires Consistent(w) && TapTrail(w, init, h)
    ensures TapTrail(Do(w, s), init + [s], h)
  {
    if At(Do(w, s), h) == At(w, h) {
      TapTrailLater(w, init, s, h);
    } else if s.TapRetry? && s.h == h && s.id in w.rows {
      assert RowFits(w, s.id);
    } else if s.Execute? && s.h == h && At(w, h).Flipped? && Failing(s.outcome) {
      assert FailedBy(init + [s], h, s.outcome, At(w, h).id);
    }
  }

  lemma SetTrailsStep(w: World, init: seq<Step>, s: Step)
    requires Consistent(w) && SetTrails(w, init) && forall h: nat :: TapTrail(w, init, h)
    ensures SetTrails(Do(w, s), init + [s])
  {
    var w', steps := Do(w, s), init + [s];
    forall id | id in w'.approvals ensures exists h :: Approving(steps, h, id) {
      if id in w.approvals {
        var h :| Approving(init, h, id);
        assert Approving(steps, h, id);
      } else {
        assert TapTrail(w, init, s.h) && Approving(steps, s.h, id);
      }
    }
    forall id | id in w'.rejections ensures exists h :: Rejecting(steps, h, id) {
      if id in w.rejections {
        var h :| Rejecting(init, h, id);
        assert Rejecting(steps, h, id);
      } else {
        assert TapTrail(w, init, s.h) && Rejecting(steps, s.h, id);
      }
    }
    forall id | id in w'.retried ensures exists h, failed :: RetriedBy(w', steps, h, failed, id) {
      if id in w.retried {
        var h, failed :| RetriedBy(w, init, h, failed, id);
        IssuedStays(w, s, id);
        IssuedStays(w, s, failed);
        assert RetriedBy(w', steps, h, failed, id);
      } else {
        assert TapTrail(w, init, s.h);
        IssuedStays(w, s, At(w, s.h).id);
        assert RetriedBy(w', steps, s.h, At(w, s.h).id, id);
      }
    }
  }

  lemma ExecutedTrailsStep(w: World, init: seq<Step>, s: Step)
    requires ExecutedTrails(w, init) && forall h: nat :: TapTrail(w, init, h)
    ensures ExecutedTrails(Do(w, s), init + [s])
  {
    var w', steps := Do(w, s), init + [s];
    forall e | e in w'.executed ensures exists h, o :: ExecutedBy(steps, h, o, e.id) {
      if e in w.executed {
        var h, o :| ExecutedBy(init, h, o, e.id);
        assert ExecutedBy(steps, h, o, e.id);
      } else {
        assert TapTrail(w, init, s.h) && ExecutedBy(steps, s.h, s.outcome, e.id);
      }
    }
  }

  lemma RowTrailsStep(w: World, init: seq<Step>, s: Step)
    requires RowTrails(w, init) && forall h: nat :: TapTrail(w, init, h)
    ensures RowTrails(Do(w, s), init + [s])
  {
    var w', steps := Do(w, s), init + [s];
    forall id | id in w'.rows && w'.rows[id].status == ExecFailed
      ensures exists h, o :: FailedBy(steps, h, o, id) && MarkFailed(h) in steps
    {
      if id in w.rows && w.rows[id].status == ExecFailed {
        var h, o :| FailedBy(init, h, o, id) && MarkFailed(h) in init;
        assert FailedBy(steps, h, o, id) && MarkFailed(h) in steps;
      } else {
        assert TapTrail(w, init, s.h);
        var o :| FailedBy(init, s.h, o, id);
        assert FailedBy(steps, s.h, o, id) && MarkFailed(s.h) in steps;
      }
    }
  }

  lemma {:induction false} RunsLeaveTrails(steps: seq<Step>)
    ensures Trails(DoAll(START, steps), steps)
  {
    if steps != [] {
      var init, s := steps[..|steps| - 1], steps[|steps| - 1];
      assert steps == init + [s];
      RunsLeaveTrails(init);
      RunsFit(START, init);
      var w := DoAll(START, init);
      forall h: nat ensures TapTrail(Do(w, s), steps, h) { TapTrailStep(w, init, s, h); }
      SetTrailsStep(w, init, s);
      ExecutedTrailsStep(w, init, s);
      RowTrailsStep(w, init, s);
    }
  }

  // Over any run from no rows, of any taps in any order: what has been approved or executed some
  // user approved, what has been rejected some user rejected, nothing is both, what is marked
  // as failed was refused or failed, and a retry row repeats the request of the row retried.
  lemma EffectsFollowTaps(steps: seq<Step>)
    ensures var w := DoAll(START, steps);
            && (forall id :: id in w.approvals ==> exists h :: TapAction(h, id, Approve) in steps)
            && (forall e :: e in w.executed ==>
                  exists h, o :: TapAction(h, e.id, Approve) in steps && Execute(h, o) in steps && Calling(o))
            && (forall id :: id in w.rejections ==>
                  (exists h :: TapAction(h, id, Reject) in steps) && id !in w.approvals && !HasExecuted(w, id))
            && (forall id :: id in w.rows && w.rows[id].status == Approved ==>
                  exists h :: TapAction(h, id, Approve) in steps)
            && (forall id :: id in w.rows && w.rows[id].status == Rejected ==>
                  exists h :: TapAction(h, id, Reject) in steps)
            && (forall id :: id in w.rows && w.rows[id].status == ExecFailed ==>
                  exists h, o :: FailedBy(steps, h, o, id) && MarkFailed(h) in steps)
            && (forall id :: id in w.retried ==> exists h, failed :: RetriedBy(w, steps, h, failed, id))
  {
    RunsLeaveTrails(steps);
    RunsFit(START, steps);
    var w := DoAll(START, steps);
    forall id | id in w.approvals ensures exists h :: TapAction(h, id, Approve) in steps {
      var h :| Approving(steps, h, id);
    }
    forall id | id in w.rejections ensures exists h :: TapAction(h, id, Reject) in steps {
      var h :| Rejecting(steps, h, id);
    }
    forall e | e in w.executed
      ensures exists h, o :: TapAction(h, e.id, Approve) in steps && Execute(h, o) in steps && Calling(o)
    {
      var h, o :| ExecutedBy(steps, h, o, e.id);
    }
    forall id | id in w.rows ensures RowFits(w, id) {}
  }

  // ------------------------------------------------------------------------------------
  // What the steps of a tap do

  // The row, and nothing else, gets this status.
  predicate OnlyStatus(before: Table, after: Table, id: string, status: Status) {
    id in before && after == before[id := Row(before[id].request, status)]
  }

  // The update of a tap that saw PENDING decides the row as the user did, if it is still PENDING;
  // otherwise the tap ends and nothing happens. A rejection ends the tap.
  lemma FlipDecides(w: World, h: nat)
    requires At(w, h).Read?
    ensures var Read(id, request, decision) := At(w, h);
            var w' := Do(w, Flip(h));
            && w'.executed == w.executed && w'.issued == w.issued && w'.retried == w.retried
            && (forall g :: g != h ==> At(w', g) == At(w, g))
            && (if id !in w.rows || w.rows[id].status != Pending then
                  && w'.rows == w.rows && At(w', h) == Done
                  && w'.approvals == w.approvals && w'.rejections == w.rejections
                else if decision == Reject then
                  && OnlyStatus(w.rows, w'.rows, id, Rejected) && At(w', h) == Done
                  && w'.approvals == w.approvals && w'.rejections == w.rejections + {id}
                else
                  && OnlyStatus(w.rows, w'.rows, id, Approved) && At(w', h) == Flipped(id, request)
                  && w'.approvals == w.approvals + {id} && w'.rejections == w.rejections)
  {
  }

  // The rest of an approval: the executor is called, or not, and a failure is marked on the row.
  lemma ExecutionIsMarked(w: World, h: nat, outcome: Outcome)
    requires Consistent(w) && At(w, h).Flipped? && At(w, h).id in w.rows
    ensures var Flipped(id, request) := At(w, h);
            var w1 := Do(w, Execute(h, outcome));
            var w2 := Do(w1, MarkFailed(h));
            && w1.rows == w.rows && w2.executed == w1.executed && At(w2, h) == Done
            && w1.executed
               == w.executed + (if Calling(outcome) then [Execution(id, request.tool, request.args)] else [])
            && OnlyStatus(w.rows, w2.rows, id, if Failing(outcome) then ExecFailed else Approved)
  {
    assert TapFits(w, w.taps[h]);
    var id := At(w, h).id;
    assert w.rows[id] == Row(w.rows[id].request, Approved);
    assert w.rows[id := w.rows[id]] == w.rows;
    assert At(Do(w, Execute(h, outcome)), h) == if Failing(outcome) then Unsuccessful(id) else Done;
  }

  // New rows are PENDING with their request; an expired run loses its rows and no others.
  lemma RowsComeAndGo(w: World, id: string, request: Request, run: string)
    ensures id !in w.issued ==> Do(w, Park(id, request)).rows == w.rows[id := Row(request, Pending)]
    ensures forall k :: k in Do(w, Expire(run)).rows <==> k in w.rows && w.rows[k].request.run != run
    ensures forall k :: k in Do(w, Expire(run)).rows ==> Do(w, Expire(run)).rows[k] == w.rows[k]
  {
  }
}
