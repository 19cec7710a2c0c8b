// The same breaker with every database transaction and every clock reading a step of its own,
// shared by any number of callers.
module BreakerInterleaving {
  import opened Wrappers
  import opened CircuitBreaker

  // What a caller will do next on what it has read. WillTime has read an OPEN row and will look
  // at the clock; WillStamp will take the time of the opening that WillOpen(at) then writes.
  datatype Pc =
    | Idle
    | WillTime(openedAt: Option<int>)
    | WillHalfOpen
    | WillCount
    | WillClear
    | WillReset
    | WillRead(failures: nat)
    | WillStamp
    | WillOpen(at: int)

  datatype World = World(row: Row, pcs: map<nat, Pc>, now: int)

  datatype Action =
    | Tick
    | AskRead(p: nat)
    | SuccessRead(p: nat)
    | Increment(p: nat)
    | Proceed(p: nat)

  function Pcs(w: World, p: nat): Pc { if p in w.pcs then w.pcs[p] else Idle }

  function Put(w: World, p: nat, row: Row, pc: Pc): World {
    w.(row := row, pcs := w.pcs[p := pc])
  }

  // Calls start from Idle; Proceed is the next step of a call under way.
  function Act(c: Config, w: World, a: Action): World {
    match a
    case Tick => w.(now := w.now + 1)
    case AskRead(p) =>
      if Pcs(w, p) != Idle then w
      else Put(w, p, w.row, if w.row.state == Open then WillTime(w.row.openedAt) else Idle)
    case SuccessRead(p) =>
      if Pcs(w, p) != Idle then w
      else Put(w, p, w.row, match w.row.state { case HalfOpen => WillCount case Closed => WillClear case Open => Idle })
    case Increment(p) =>
      if Pcs(w, p) != Idle then w
      else Put(w, p, w.row.(failures := w.row.failures + 1), WillRead(w.row.failures + 1))
    case Proceed(p) => Go(c, w, p, Pcs(w, p))
  }

  function Go(c: Config, w: World, p: nat, pc: Pc): World {
    match pc
    case Idle => w
    case WillTime(openedAt) =>
      Put(w, p, w.row, if Expired(c, w.row.(openedAt := openedAt), w.now) then WillHalfOpen else Idle)
    case WillHalfOpen => Put(w, p, w.row.(state := HalfOpen), Idle)
    case WillCount =>
      Put(w, p, w.row.(successes := w.row.successes + 1),
          if w.row.successes + 1 >= c.successThreshold then WillReset else Idle)
    case WillClear => Put(w, p, w.row.(failures := 0), Idle)
    case WillReset => Put(w, p, Reset(w.row), Idle)
    case WillRead(f) =>
      Put(w, p, w.row, if w.row.state != Open && f >= c.failureThreshold then WillStamp else Idle)
    case WillStamp => Put(w, p, w.row, WillOpen(w.now))
    case WillOpen(at) => Put(w, p, w.row.(state := Open, openedAt := Some(at)), Idle)
  }

  function ActAll(c: Config, w: World, acts: seq<Action>): World {
    if acts == [] then w else Act(c, ActAll(c, w, acts[..|acts| - 1]), acts[|acts| - 1])
  }

  predicate Start(w: World) { w.row == INITIAL && w.pcs == map[] && w.now > 0 }

  lemma Next(c: Config, w: World, acts: seq<Action>, a: Action) returns (more: seq<Action>)
    ensures more == acts + [a] && ActAll(c, w, more) == Act(c, ActAll(c, w, acts), a)
  {
    more := acts + [a];
    assert more[..|more| - 1] == acts;
  }

  lemma {:induction false} ActSplit(c: Config, w: World, a: seq<Action>, b: seq<Action>)
    ensures ActAll(c, w, a + b) == ActAll(c, ActAll(c, w, a), b)
  {
    if b == [] {
      assert a + b == a;
    } else {
      assert (a + b)[..|a + b| - 1] == a + b[..|b| - 1];
      ActSplit(c, w, a, b[..|b| - 1]);
    }
  }

  // ------------------------------------------------------------------------------------
  // A caller that is not interrupted does what the whole call does

  lemma UninterruptedCalls(c: Config, w: World, p: nat)
    requires Pcs(w, p) == Idle
    ensures Act(c, Act(c, Act(c, w, AskRead(p)), Proceed(p)), Proceed(p)).row == After(c, w.row, Asked(w.now))
    ensures Act(c, Act(c, Act(c, w, SuccessRead(p)), Proceed(p)), Proceed(p)).row == After(c, w.row, Succeeded)
    ensures Act(c, Act(c, Act(c, Act(c, w, Increment(p)), Proceed(p)), Proceed(p)), Proceed(p)).row
         == After(c, w.row, Failed(Persistent, w.now))
  {
    AskedCall(c, w, p);
    FailedCall(c, w, p);
  }

  lemma AskedCall(c: Config, w: World, p: nat)
    requires Pcs(w, p) == Idle
    ensures Act(c, Act(c, Act(c, w, AskRead(p)), Proceed(p)), Proceed(p)).row == After(c, w.row, Asked(w.now))
  {
    var w1 := Act(c, w, AskRead(p));
    assert Pcs(w1, p) == if w.row.state == Open then WillTime(w.row.openedAt) else Idle;
    assert w.row.(openedAt := w.row.openedAt) == w.row;
  }

  lemma FailedCall(c: Config, w: World, p: nat)
    requires Pcs(w, p) == Idle
    ensures Act(c, Act(c, Act(c, Act(c, w, Increment(p)), Proceed(p)), Proceed(p)), Proceed(p)).row
         == After(c, w.row, Failed(Persistent, w.now))
  {
    var w1 := Act(c, w, Increment(p));
    var w2 := Act(c, w1, Proceed(p));
    assert Pcs(w1, p) == WillRead(w.row.failures + 1);
    assert Pcs(w2, p) == if w.row.state != Open && w.row.failures + 1 >= c.failureThreshold then WillStamp else Idle;
  }

  // ------------------------------------------------------------------------------------
  // What survives every interleaving

  // Opening times, written or about to be, lie in the past.
  predicate CanRecover(w: World) {
    && w.now > 0
    && (w.row.state == Open ==> w.row.openedAt.Some?)
    && (w.row.openedAt.Some? ==> 0 < w.row.openedAt.value <= w.now)
    && (forall p :: p in w.pcs && w.pcs[p].WillOpen? ==> 0 < w.pcs[p].at <= w.now)
  }

  lemma RecoverStep(c: Config, w: World, a: Action)
    requires CanRecover(w)
    ensures CanRecover(Act(c, w, a)) && w.now <= Act(c, w, a).now
  {
  }

  lemma {:induction false} AlwaysCanRecover(c: Config, w: World, acts: seq<Action>)
    requires Start(w)
    ensures CanRecover(ActAll(c, w, acts)) && w.now <= ActAll(c, w, acts).now
  {
    if acts != [] {
      AlwaysCanRecover(c, w, acts[..|acts| - 1]);
      RecoverStep(c, ActAll(c, w, acts[..|acts| - 1]), acts[|acts| - 1]);
    }
  }

  lemma {:induction false} Ticks(c: Config, w: World, n: nat)
    ensures ActAll(c, w, seq(n, _ => Tick)) == w.(now := w.now + n)
  {
    if n > 0 {
      assert seq(n, _ => Tick)[..n - 1] == seq(n - 1, _ => Tick);
      Ticks(c, w, n - 1);
    }
  }

  // No interleaving leaves the breaker stuck open: once the timeout has passed, the next
  // caller to ask is let through and moves it to HALF_OPEN.
  lemma NeverStuckOpen(c: Config, w: World, acts: seq<Action>, n: nat, p: nat)
    requires Start(w) && n > c.recoveryTimeout
    ensures var w1 := ActAll(c, w, acts);
            var w2 := ActAll(c, w1, seq(n, _ => Tick));
            && !Blocks(c, w2.row, w2.now)
            && (w1.row.state == Open && Pcs(w1, p) == Idle ==>
                  Act(c, Act(c, Act(c, w2, AskRead(p)), Proceed(p)), Proceed(p)).row.state == HalfOpen)
  {
    AlwaysCanRecover(c, w, acts);
    Ticks(c, ActAll(c, w, acts), n);
    var w2 := ActAll(c, ActAll(c, w, acts), seq(n, _ => Tick));
    if Pcs(w2, p) == Idle { AskedCall(c, w2, p); }
  }

  // ------------------------------------------------------------------------------------
  // What does not

  // Not closed means enough failures were counted.
  predicate Counted(c: Config, r: Row) {
    r.state != Closed ==> r.failures >= c.failureThreshold
  }

  // A write decided on a row that has changed since it was read.
  predicate Stale(c: Config, w: World, a: Action) {
    && a.Proceed?
    && match Pcs(w, a.p)
       case WillClear => w.row.state != Closed && c.failureThreshold > 0
       case WillHalfOpen => w.row.state == Closed && w.row.failures < c.failureThreshold
       case WillOpen(_) => w.row.failures < c.failureThreshold
       case _ => false
  }

  // Exactly these steps break the count.
  lemma CountBrokenIffStale(c: Config, w: World, a: Action)
    requires Counted(c, w.row)
    ensures Counted(c, Act(c, w, a).row) <==> !Stale(c, w, a)
  {
  }

  // The first transaction of a call whose second one opens or closes the breaker.
  predicate HalfDone(c: Config, w: World, a: Action) {
    || (a.Increment? && Pcs(w, a.p) == Idle && w.row.state == Closed && w.row.failures + 1 >= c.failureThreshold)
    || (a.Proceed? && Pcs(w, a.p) == WillCount && w.row.state != Closed && w.row.successes + 1 >= c.successThreshold)
  }

  // A write decided when the breaker was in another state.
  predicate Late(w: World, a: Action) {
    && a.Proceed?
    && match Pcs(w, a.p)
       case WillClear => w.row.state != Closed
       case WillCount => w.row.state == Closed
       case WillHalfOpen => w.row.state == Closed
       case WillOpen(_) => w.row.state == Closed
       case _ => false
  }

  // The whole invariant of uninterrupted calls, closed rows included, is broken by exactly two
  // kinds of step: one between the two halves of a call, and a late write.
  lemma ValidBrokenIff(c: Config, w: World, a: Action)
    requires Sane(c) && CanRecover(w) && Valid(c, w.row)
    ensures Valid(c, Act(c, w, a).row) <==> !HalfDone(c, w, a) && !Late(w, a)
  {
    if a.Proceed? {
      match Pcs(w, a.p) {
        case WillOpen(at) => assert at != 0 && Act(c, w, a).row.failures == w.row.failures;
        case _ =>
      }
    }
  }

  // ------------------------------------------------------------------------------------
  // Runs that get there

  // n failures, all below the threshold, by caller 1.
  lemma {:induction false} FailuresAdd(c: Config, w: World, n: nat) returns (acts: seq<Action>)
    requires Start(w) && n < c.failureThreshold
    ensures var w' := ActAll(c, w, acts);
            w'.row == INITIAL.(failures := n) && Pcs(w', 1) == Idle && Pcs(w', 2) == Idle && w'.now == w.now
  {
    acts := [];
    if n > 0 {
      acts := FailuresAdd(c, w, n - 1);
      OneFailureAdds(c, ActAll(c, w, acts));
      acts := Next(c, w, acts, Increment(1));
      acts := Next(c, w, acts, Proceed(1));
    }
  }

  // A failure below the threshold, by caller 1.
  lemma OneFailureAdds(c: Config, w: World)
    requires w.row.state == Closed && w.row.failures + 1 < c.failureThreshold && Pcs(w, 1) == Idle
    ensures var w' := Act(c, Act(c, w, Increment(1)), Proceed(1));
            && w'.row == w.row.(failures := w.row.failures + 1) && w'.now == w.now
            && Pcs(w', 1) == Idle && Pcs(w', 2) == Pcs(w, 2)
  {
    var w1 := Act(c, w, Increment(1));
    assert Pcs(w1, 1) == WillRead(w.row.failures + 1) && Pcs(w1, 2) == Pcs(w, 2);
  }

  // A failure that reaches the threshold, up to the write: caller p is about to open the breaker
  // with the present time.
  lemma FailureStamps(c: Config, w: World, p: nat, acts: seq<Action>) returns (more: seq<Action>)
    requires var v := ActAll(c, w, acts);
             v.row.state != Open && v.row.failures + 1 >= c.failureThreshold && Pcs(v, p) == Idle
    ensures var v, v' := ActAll(c, w, acts), ActAll(c, w, more);
            && v'.row == v.row.(failures := v.row.failures + 1) && v'.now == v.now
            && Pcs(v', p) == WillOpen(v.now) && forall q: nat :: q != p ==> Pcs(v', q) == Pcs(v, q)
  {
    var v := ActAll(c, w, acts);
    more := Next(c, w, acts, Increment(p));
    var v1 := ActAll(c, w, more);
    assert Pcs(v1, p) == WillRead(v.row.failures + 1);
    more := Next(c, w, more, Proceed(p));
    var v2 := ActAll(c, w, more);
    assert Pcs(v2, p) == WillStamp && v2.row == v1.row;
    more := Next(c, w, more, Proceed(p));
  }

  lemma WriteOpens(c: Config, w: World, p: nat, acts: seq<Action>) returns (more: seq<Action>)
    requires Pcs(ActAll(c, w, acts), p).WillOpen?
    ensures var v, v' := ActAll(c, w, acts), ActAll(c, w, more);
            && v'.row == v.row.(state := Open, openedAt := Some(Pcs(v, p).at)) && v'.now == v.now
            && Pcs(v', p) == Idle && forall q: nat :: q != p ==> Pcs(v', q) == Pcs(v, q)
  {
    more := Next(c, w, acts, Proceed(p));
  }

  lemma Wait(c: Config, w: World, n: nat, acts: seq<Action>) returns (more: seq<Action>)
    ensures var v := ActAll(c, w, acts); ActAll(c, w, more) == v.(now := v.now + n)
  {
    more := acts + seq(n, _ => Tick);
    ActSplit(c, w, acts, seq(n, _ => Tick));
    Ticks(c, ActAll(c, w, acts), n);
  }

  // With any threshold: caller 2 reads CLOSED for its success, caller 1 counts the failure that
  // reaches the threshold, caller 2 clears the count, caller 1 writes OPEN. The breaker is open
  // on a count of zero, and takes the full threshold of failures to open again after recovery.
  lemma InterleavingOpensOnZero(c: Config, w: World) returns (acts: seq<Action>)
    requires Start(w) && c.failureThreshold >= 1
    ensures var r := ActAll(c, w, acts).row;
            r.state == Open && r.failures == 0 && !Counted(c, r)
  {
    acts := FailuresAdd(c, w, c.failureThreshold - 1);
    acts := Next(c, w, acts, SuccessRead(2));
    assert Pcs(ActAll(c, w, acts), 2) == WillClear;
    acts := FailureStamps(c, w, 1, acts);
    acts := Next(c, w, acts, Proceed(2));
    assert ActAll(c, w, acts).row.failures == 0;
    acts := WriteOpens(c, w, 1, acts);
  }

  lemma FailuresOpen(c: Config, w: World) returns (acts: seq<Action>)
    requires Start(w) && c.failureThreshold >= 1
    ensures var w' := ActAll(c, w, acts);
            && w'.row == Row(Open, c.failureThreshold, 0, 0, Some(w.now)) && w'.now == w.now
            && Pcs(w', 1) == Idle && Pcs(w', 2) == Idle
  {
    acts := FailuresAdd(c, w, c.failureThreshold - 1);
    acts := FailureStamps(c, w, 1, acts);
    acts := WriteOpens(c, w, 1, acts);
  }

  // A caller that asks an OPEN breaker after its timeout is about to write HALF_OPEN.
  lemma AskExpires(c: Config, w: World, p: nat, acts: seq<Action>) returns (more: seq<Action>)
    requires var v := ActAll(c, w, acts); v.row.state == Open && Expired(c, v.row, v.now) && Pcs(v, p) == Idle
    ensures var v, v' := ActAll(c, w, acts), ActAll(c, w, more);
            && v'.row == v.row && v'.now == v.now
            && Pcs(v', p) == WillHalfOpen && forall q: nat :: q != p ==> Pcs(v', q) == Pcs(v, q)
  {
    var v := ActAll(c, w, acts);
    more := Next(c, w, acts, AskRead(p));
    var v1 := ActAll(c, w, more);
    assert Pcs(v1, p) == WillTime(v.row.openedAt) && v1.row.(openedAt := v.row.openedAt) == v.row;
    more := Next(c, w, more, Proceed(p));
  }

  // The breaker opened, and asked after the timeout by callers 1 and 2; caller 1 has written.
  lemma HalfOpens(c: Config, w: World) returns (acts: seq<Action>)
    requires Start(w) && c.failureThreshold >= 1 && c.recoveryTimeout >= 0
    ensures var w' := ActAll(c, w, acts);
            && w'.row == Row(HalfOpen, c.failureThreshold, 0, 0, Some(w.now))
            && Pcs(w', 1) == Idle && Pcs(w', 2) == WillHalfOpen && w'.now == w.now + c.recoveryTimeout + 1
  {
    acts := FailuresOpen(c, w);
    acts := Wait(c, w, c.recoveryTimeout + 1, acts);
    acts := AskExpires(c, w, 2, acts);
    acts := AskExpires(c, w, 1, acts);
    acts := Next(c, w, acts, Proceed(1));
  }

  lemma StaleHalfOpenIsReachable(c: Config, w: World) returns (acts: seq<Action>)
    requires Start(w) && c.failureThreshold >= 1 && c.recoveryTimeout >= 0
    ensures var w' := ActAll(c, w, acts);
            w'.row.state == Open && Blocks(c, w'.row, w'.now) && Pcs(w', 2) == WillHalfOpen
  {
    acts := HalfOpens(c, w);
    acts := FailureStamps(c, w, 1, acts);
    acts := WriteOpens(c, w, 1, acts);
  }

  // n successes, all below the threshold, by caller 1.
  lemma {:induction false} SuccessesAdd(c: Config, w: World, n: nat, acts: seq<Action>) returns (more: seq<Action>)
    requires var v := ActAll(c, w, acts); v.row.state == HalfOpen && v.row.successes == 0 && Pcs(v, 1) == Idle
    requires n > 0 ==> n < c.successThreshold
    ensures var v, v' := ActAll(c, w, acts), ActAll(c, w, more);
            v'.row == v.row.(successes := n) && Pcs(v', 1) == Idle && Pcs(v', 2) == Pcs(v, 2) && v'.now == v.now
  {
    more := acts;
    if n > 0 {
      more := SuccessesAdd(c, w, n - 1, acts);
      OneSuccessAdds(c, ActAll(c, w, more));
      more := Next(c, w, more, SuccessRead(1));
      more := Next(c, w, more, Proceed(1));
    }
  }

  // A success below the threshold, by caller 1.
  lemma OneSuccessAdds(c: Config, w: World)
    requires w.row.state == HalfOpen && w.row.successes + 1 < c.successThreshold && Pcs(w, 1) == Idle
    ensures var w' := Act(c, Act(c, w, SuccessRead(1)), Proceed(1));
            && w'.row == w.row.(successes := w.row.successes + 1) && w'.now == w.now
            && Pcs(w', 1) == Idle && Pcs(w', 2) == Pcs(w, 2)
  {
    var w1 := Act(c, w, SuccessRead(1));
    assert Pcs(w1, 1) == WillCount && Pcs(w1, 2) == Pcs(w, 2);
  }

  // A reset can be pending too, for any thresholds: the last success is counted, and before its
  // reset a failure opens the breaker again.
  lemma StaleResetIsReachable(c: Config, w: World) returns (acts: seq<Action>)
    requires Start(w) && c.failureThreshold >= 1 && c.recoveryTimeout >= 0
    ensures var w' := ActAll(c, w, acts);
            w'.row.state == Open && Blocks(c, w'.row, w'.now) && Pcs(w', 2) == WillReset
  {
    acts := HalfOpens(c, w);
    acts := Next(c, w, acts, Proceed(2));
    assert Pcs(ActAll(c, w, acts), 2) == Idle;
    acts := SuccessesAdd(c, w, if c.successThreshold == 0 then 0 else c.successThreshold - 1, acts);
    acts := Next(c, w, acts, SuccessRead(2));
    assert Pcs(ActAll(c, w, acts), 2) == WillCount;
    acts := Next(c, w, acts, Proceed(2));
    assert Pcs(ActAll(c, w, acts), 2) == WillReset;
    acts := FailureStamps(c, w, 1, acts);
    acts := WriteOpens(c, w, 1, acts);
  }

  // And so can an OPEN with an older reading. Caller 1 takes the time and waits for the database,
  // caller 2 opens the breaker d seconds later, caller 1 writes: d seconds before the timeout of
  // the opening at w.now + d is over, requests are let through.
  lemma LateOpenIsReachable(c: Config, w: World, d: nat) returns (acts: seq<Action>, more: seq<Action>)
    requires Start(w) && c.failureThreshold >= 1 && 0 < d <= c.recoveryTimeout
    ensures var w1 := ActAll(c, w, acts);
            && w1.row.state == Open && w1.row.openedAt == Some(w.now + d) && w1.now == w.now + d
            && Pcs(w1, 1) == WillOpen(w.now)
    ensures var w2 := ActAll(c, ActAll(c, w, acts), more);
            && w2.row.openedAt == Some(w.now) && w2.now == w.now + c.recoveryTimeout + 1
            && w2.now <= (w.now + d) + c.recoveryTimeout && !Blocks(c, w2.row, w2.now)
  {
    acts := FailuresAdd(c, w, c.failureThreshold - 1);
    acts := FailureStamps(c, w, 1, acts);
    acts := Wait(c, w, d, acts);
    acts := FailureStamps(c, w, 2, acts);
    acts := WriteOpens(c, w, 2, acts);
    var w1 := ActAll(c, w, acts);
    more := WriteOpens(c, w1, 1, []);
    more := Wait(c, w1, c.recoveryTimeout + 1 - d, more);
  }

  // ------------------------------------------------------------------------------------
  // How long an opening blocks

  // Two writes let requests through at once: HALF_OPEN by a caller that saw an earlier timeout
  // pass, and the reset of a caller whose success reached its threshold before the breaker
  // opened.
  predicate LetsThrough(w: World, a: Action) {
    a.Proceed? && Pcs(w, a.p) in {WillHalfOpen, WillReset}
  }

  // An OPEN whose reading is older than the timeout.
  predicate OpensTooLate(c: Config, w: World, a: Action) {
    a.Proceed? && Pcs(w, a.p).WillOpen? && w.now - Pcs(w, a.p).at > c.recoveryTimeout
  }

  // Apart from the clock, exactly these steps let requests through a blocking breaker.
  lemma BlockEndsIff(c: Config, w: World, a: Action)
    requires Blocks(c, w.row, w.now) && CanRecover(w) && a != Tick
    ensures !Blocks(c, Act(c, w, a).row, w.now) <==> LetsThrough(w, a) || OpensTooLate(c, w, a)
  {
  }

  // The reading of the OPEN written last.
  function LastOpening(c: Config, w: World, acts: seq<Action>): int
    requires w.row.openedAt.Some?
  {
    if acts == [] then w.row.openedAt.value
    else
      var init, a := acts[..|acts| - 1], acts[|acts| - 1];
      var pc := if a.Proceed? then Pcs(ActAll(c, w, init), a.p) else Idle;
      if pc.WillOpen? then pc.at else LastOpening(c, w, init)
  }

  // At every point of the run a request would be refused.
  predicate BlocksThroughout(c: Config, w: World, acts: seq<Action>) {
    var w' := ActAll(c, w, acts);
    Blocks(c, w'.row, w'.now) && (acts != [] ==> BlocksThroughout(c, w, acts[..|acts| - 1]))
  }

  // No write lets requests through, and the clock never passes the timeout of the OPEN written
  // last, counted from its reading: a reading older than the one it replaces brings that forward.
  predicate Undisturbed(c: Config, w: World, acts: seq<Action>)
    requires w.row.openedAt.Some?
  {
    && ActAll(c, w, acts).now <= LastOpening(c, w, acts) + c.recoveryTimeout
    && (acts != [] ==>
          var init := acts[..|acts| - 1];
          !LetsThrough(ActAll(c, w, init), acts[|init|]) && Undisturbed(c, w, init))
  }

  // From an opening on, any run of any callers is blocked all along exactly when it is
  // undisturbed.
  lemma {:induction false} BlocksThroughoutIff(c: Config, w: World, acts: seq<Action>)
    requires CanRecover(w) && w.row.state == Open
    ensures BlocksThroughout(c, w, acts) <==> Undisturbed(c, w, acts)
    ensures CanRecover(ActAll(c, w, acts))
    ensures BlocksThroughout(c, w, acts) ==> ActAll(c, w, acts).row.openedAt == Some(LastOpening(c, w, acts))
  {
    if acts != [] {
      var init, a := acts[..|acts| - 1], acts[|acts| - 1];
      BlocksThroughoutIff(c, w, init);
      RecoverStep(c, ActAll(c, w, init), a);
      if BlocksThroughout(c, w, init) { BlockedStep(c, ActAll(c, w, init), a); }
    }
  }

  lemma BlockedStep(c: Config, w: World, a: Action)
    requires CanRecover(w) && w.row.state == Open
    ensures var w' := Act(c, w, a);
            var pc := if a.Proceed? then Pcs(w, a.p) else Idle;
            var at := if pc.WillOpen? then pc.at else w.row.openedAt.value;
            && (Blocks(c, w'.row, w'.now) <==> !LetsThrough(w, a) && w'.now <= at + c.recoveryTimeout)
            && (!LetsThrough(w, a) ==> w'.row.openedAt == Some(at))
  {
  }

  // Every OPEN written in the run carries a reading of `since` or later.
  predicate NoOlderOpening(c: Config, w: World, acts: seq<Action>, since: int) {
    acts != [] ==>
      var init, a := acts[..|acts| - 1], acts[|acts| - 1];
      var pc := if a.Proceed? then Pcs(ActAll(c, w, init), a.p) else Idle;
      (pc.WillOpen? ==> pc.at >= since) && NoOlderOpening(c, w, init, since)
  }

  predicate NothingLetsThrough(c: Config, w: World, acts: seq<Action>) {
    acts != [] ==>
      var init := acts[..|acts| - 1];
      !LetsThrough(ActAll(c, w, init), acts[|init|]) && NothingLetsThrough(c, w, init)
  }

  // So within the timeout of an opening, and with no older reading written over it, only the two
  // writes matter.
  lemma {:induction false} BlocksWholeTimeoutIff(c: Config, w: World, acts: seq<Action>)
    requires CanRecover(w) && w.row.state == Open
    requires NoOlderOpening(c, w, acts, w.row.openedAt.value)
    requires ActAll(c, w, acts).now <= w.row.openedAt.value + c.recoveryTimeout
    ensures BlocksThroughout(c, w, acts) <==> NothingLetsThrough(c, w, acts)
    ensures LastOpening(c, w, acts) >= w.row.openedAt.value
  {
    BlocksThroughoutIff(c, w, acts);
    if acts != [] {
      var init := acts[..|acts| - 1];
      BlocksThroughoutIff(c, w, init);
      RecoverStep(c, ActAll(c, w, init), acts[|init|]);
      BlocksWholeTimeoutIff(c, w, init);
    }
  }
}
