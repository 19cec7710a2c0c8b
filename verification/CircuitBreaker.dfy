// One provider's circuit breaker, each call taken as a whole.
module CircuitBreaker {
  import opened Wrappers

  datatype State = Closed | Open | HalfOpen

  datatype FailureType = Persistent | Transient

  // The breaker's row. openedAt is NULL or a clock reading, which is never zero.
  datatype Row = Row(state: State, failures: nat, successes: nat, transients: nat, openedAt: Option<int>)

  datatype Config = Config(failureThreshold: nat, recoveryTimeout: int, successThreshold: nat)

  const INITIAL := Row(Closed, 0, 0, 0, None)

  datatype Event = Asked(now: int) | Succeeded | Failed(kind: FailureType, now: int)

  // OPEN for longer than the recovery timeout.
  predicate Expired(c: Config, r: Row, now: int) {
    r.openedAt.Some? && r.openedAt.value != 0 && now - r.openedAt.value > c.recoveryTimeout
  }

  predicate Blocks(c: Config, r: Row, now: int) {
    r.state == Open && !Expired(c, r, now)
  }

  function Reset(r: Row): Row {
    r.(state := Closed, failures := 0, successes := 0, openedAt := None)
  }

  function After(c: Config, r: Row, e: Event): Row {
    match e
    case Asked(now) =>
      if r.state == Open && Expired(c, r, now) then r.(state := HalfOpen) else r
    case Succeeded =>
      (match r.state
       case Closed => r.(failures := 0)
       case Open => r
       case HalfOpen =>
         var r' := r.(successes := r.successes + 1);
         if r'.successes >= c.successThreshold then Reset(r') else r')
    case Failed(Transient, _) => r.(transients := r.transients + 1)
    case Failed(Persistent, now) =>
      var r' := r.(failures := r.failures + 1);
      if r.state != Open && r'.failures >= c.failureThreshold then r'.(state := Open, openedAt := Some(now)) else r'
  }

  function AfterAll(c: Config, r: Row, es: seq<Event>): Row {
    if es == [] then r else After(c, AfterAll(c, r, es[..|es| - 1]), es[|es| - 1])
  }

  // The breaker object, with each database transaction a statement on its row.
  class Breaker {
    const config: Config
    var row: Row

    constructor (config: Config)
      ensures this.config == config && row == INITIAL
    {
      this.config, row := config, INITIAL;
    }

    // UPDATE .. SET state = ?, opened_at = COALESCE(?, opened_at)
    method SetState(state: State, openedAt: Option<int>)
      modifies this
      ensures row == old(row).(state := state, openedAt := if openedAt.Some? then openedAt else old(row).openedAt)
    {
      row := row.(state := state, openedAt := if openedAt.Some? then openedAt else row.openedAt);
    }

    method IncrementFailure() returns (failures: nat)
      modifies this
      ensures row == old(row).(failures := old(row).failures + 1) && failures == row.failures
    {
      row := row.(failures := row.failures + 1);
      failures := row.failures;
    }

    method ResetRow()
      modifies this
      ensures row == Reset(old(row))
    {
      row := row.(state := Closed, failures := 0, successes := 0, openedAt := None);
    }

    method IsOpen(now: int) returns (open: bool)
      modifies this
      ensures row == After(config, old(row), Asked(now))
      ensures open == Blocks(config, old(row), now)
    {
      var seen := row;
      if seen.state == Open {
        if Expired(config, seen, now) {
          SetState(HalfOpen, None);
          return false;
        }
        return true;
      }
      return false;
    }

    method RecordSuccess()
      modifies this
      ensures row == After(config, old(row), Succeeded)
    {
      var seen := row;
      if seen.state == HalfOpen {
        row := row.(successes := row.successes + 1);
        if row.successes >= config.successThreshold { ResetRow(); }
      } else if seen.state == Closed {
        row := row.(failures := 0);
      }
    }

    method RecordFailure(kind: FailureType, now: int)
      modifies this
      ensures row == After(config, old(row), Failed(kind, now))
    {
      if kind == Persistent {
        var failures := IncrementFailure();
        var seen := row;
        if seen.state != Open && failures >= config.failureThreshold { SetState(Open, Some(now)); }
      } else {
        row := row.(transients := row.transients + 1);
      }
    }
  }

  // ------------------------------------------------------------------------------------
  // Every run of whole calls

  predicate Sane(c: Config) { c.failureThreshold >= 1 && c.successThreshold >= 1 }

  predicate Valid(c: Config, r: Row) {
    if r.state == Closed then
      r.failures < c.failureThreshold && r.successes == 0 && r.openedAt == None
    else
      r.failures >= c.failureThreshold && r.successes < c.successThreshold && r.openedAt.Some? && r.openedAt.value != 0
  }

  predicate Timed(es: seq<Event>) {
    forall e :: e in es && e.Failed? ==> e.now != 0
  }

  lemma {:induction false} AlwaysValid(c: Config, es: seq<Event>)
    requires Sane(c) && Timed(es)
    ensures Valid(c, AfterAll(c, INITIAL, es))
  {
    if es != [] {
      var init, last := es[..|es| - 1], es[|es| - 1];
      assert last in es && forall e :: e in init ==> e in es;
      AlwaysValid(c, init);
    }
  }

  lemma {:induction false} AfterSplit(c: Config, r: Row, a: seq<Event>, b: seq<Event>)
    ensures AfterAll(c, r, a + b) == AfterAll(c, AfterAll(c, r, a), b)
  {
    if b == [] {
      assert a + b == a;
    } else {
      assert (a + b)[..|a + b| - 1] == a + b[..|b| - 1];
      AfterSplit(c, r, a, b[..|b| - 1]);
    }
  }

  // From an opening at time t to t + timeout nothing at all closes the breaker: it blocks every
  // request in that time, whatever successes and failures are recorded meanwhile.
  lemma {:induction false} BlocksWholeTimeout(c: Config, r: Row, es: seq<Event>, now: int)
    requires r.state == Open && r.openedAt.Some? && now <= r.openedAt.value + c.recoveryTimeout
    requires forall e :: e in es && e.Asked? ==> e.now <= r.openedAt.value + c.recoveryTimeout
    ensures var r' := AfterAll(c, r, es);
            r'.state == Open && r'.openedAt == r.openedAt && r'.successes == r.successes && Blocks(c, r', now)
  {
    if es != [] {
      var init, last := es[..|es| - 1], es[|es| - 1];
      assert last in es && forall e :: e in init ==> e in es;
      BlocksWholeTimeout(c, r, init, now);
    }
  }

  // Questions alone do no more than let an open breaker half open.
  lemma {:induction false} QuestionsHalfOpen(c: Config, r: Row, es: seq<Event>)
    requires forall e :: e in es ==> e.Asked?
    ensures AfterAll(c, r, es) == r || (r.state == Open && AfterAll(c, r, es) == r.(state := HalfOpen))
  {
    if es != [] {
      assert es[|es| - 1] in es;
      QuestionsHalfOpen(c, r, es[..|es| - 1]);
    }
  }

  // Afterwards the first question is let through.
  lemma ExpiredLetsThrough(c: Config, r: Row, asked: int)
    requires r.state == Open && r.openedAt.Some? && r.openedAt.value != 0
    requires asked > r.openedAt.value + c.recoveryTimeout
    ensures !Blocks(c, r, asked) && After(c, r, Asked(asked)) == r.(state := HalfOpen)
  {
  }

  // And then a single persistent failure, whatever came in between without closing the breaker,
  // opens it again for another whole timeout.
  lemma OneFailureReopens(c: Config, es: seq<Event>, failed: int)
    requires Sane(c) && Timed(es) && AfterAll(c, INITIAL, es).state == HalfOpen
    ensures var r := AfterAll(c, INITIAL, es);
            var r' := After(c, r, Failed(Persistent, failed));
            && r'.state == Open && r'.openedAt == Some(failed) && r'.successes == r.successes
            && forall now :: now <= failed + c.recoveryTimeout ==> Blocks(c, r', now)
  {
    AlwaysValid(c, es);
  }

  // The successes that a run of events records while HALF_OPEN.
  function HalfOpenSuccesses(c: Config, r: Row, es: seq<Event>): nat {
    if es == [] then 0
    else
      HalfOpenSuccesses(c, r, es[..|es| - 1])
      + if es[|es| - 1].Succeeded? && AfterAll(c, r, es[..|es| - 1]).state == HalfOpen then 1 else 0
  }

  predicate NeverCloses(c: Config, r: Row, es: seq<Event>) {
    forall i :: 0 <= i <= |es| ==> AfterAll(c, r, es[..i]).state != Closed
  }

  // Reopening forgets no success: until the breaker closes, the count runs on through any
  // number of half-open episodes.
  lemma {:induction false} SuccessesOutliveReopening(c: Config, r: Row, es: seq<Event>)
    requires NeverCloses(c, r, es)
    ensures AfterAll(c, r, es).successes == r.successes + HalfOpenSuccesses(c, r, es)
  {
    if es != [] {
      var init := es[..|es| - 1];
      forall i | 0 <= i <= |init| ensures AfterAll(c, r, init[..i]).state != Closed {
        assert init[..i] == es[..i];
      }
      assert es[..|es|] == es;
      SuccessesOutliveReopening(c, r, init);
    }
  }

  function Successes(es: seq<Event>): nat {
    if es == [] then 0 else Successes(es[..|es| - 1]) + if es[|es| - 1].Succeeded? then 1 else 0
  }

  // In HALF_OPEN, with no persistent failure in between and whoever asks meanwhile, it is exactly
  // the success that reaches the threshold that closes the breaker, with a clean row; and the
  // next ones keep it so.
  lemma {:induction false} SuccessesClose(c: Config, r: Row, es: seq<Event>)
    requires r.state == HalfOpen && r.successes < c.successThreshold
    requires forall e :: e in es ==> !(e.Failed? && e.kind == Persistent)
    ensures var r' := AfterAll(c, r, es);
            if r.successes + Successes(es) < c.successThreshold
            then r' == r.(successes := r.successes + Successes(es), transients := r'.transients)
            else r' == Row(Closed, 0, 0, r'.transients, None)
  {
    if es != [] {
      var init, last := es[..|es| - 1], es[|es| - 1];
      assert last in es && forall e :: e in init ==> e in es;
      SuccessesClose(c, r, init);
    }
  }

  // Every persistent failure counts, whatever the state; a transient one is tallied and no more.
  lemma FailuresCount(c: Config, r: Row, now: int)
    ensures After(c, r, Failed(Persistent, now)).failures == r.failures + 1
    ensures After(c, r, Failed(Persistent, now)).transients == r.transients
    ensures After(c, r, Failed(Transient, now)) == r.(transients := r.transients + 1)
  {
  }

  // A success wipes the failures of a closed breaker and does nothing to an open one; so only
  // failures with no success between them add up to an opening.
  lemma SuccessWipes(c: Config, r: Row)
    ensures r.state == Closed ==> After(c, r, Succeeded) == r.(failures := 0)
    ensures r.state == Open ==> After(c, r, Succeeded) == r
  {
  }

  function Strikes(es: seq<Event>): nat {
    if es == [] then 0
    else Strikes(es[..|es| - 1]) + if es[|es| - 1].Failed? && es[|es| - 1].kind == Persistent then 1 else 0
  }

  // Without a success in between, and whoever asks meanwhile, it is exactly the threshold-th
  // persistent failure that opens a closed breaker, at the time of that failure; transient
  // failures never count.
  lemma {:induction false} StrikesOpen(c: Config, r: Row, es: seq<Event>) returns (k: nat)
    requires Valid(c, r) && r.state == Closed
    requires forall e :: e in es ==> !e.Succeeded?
    ensures if r.failures + Strikes(es) < c.failureThreshold
            then AfterAll(c, r, es).state == Closed && AfterAll(c, r, es).failures == r.failures + Strikes(es)
            else k < |es| && Opens(c, r, es, k)
  {
    k := 0;
    if es != [] {
      var init, last := es[..|es| - 1], es[|es| - 1];
      assert last in es && forall e :: e in init ==> e in es;
      k := StrikesOpen(c, r, init);
      if r.failures + Strikes(init) < c.failureThreshold {
        k := |es| - 1;
        assert es[..k + 1] == es;
      } else {
        assert init[..k + 1] == es[..k + 1] && init[..k] == es[..k];
      }
    }
  }

  // Event k is the failure that reaches the threshold and opens the breaker.
  predicate Opens(c: Config, r: Row, es: seq<Event>, k: nat)
    requires k < |es|
  {
    && es[k].Failed? && es[k].kind == Persistent
    && r.failures + Strikes(es[..k + 1]) == c.failureThreshold
    && AfterAll(c, r, es[..k]).state == Closed
    && AfterAll(c, r, es[..k + 1]).state == Open
    && AfterAll(c, r, es[..k + 1]).openedAt == Some(es[k].now)
  }
}
