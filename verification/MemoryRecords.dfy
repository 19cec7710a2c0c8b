// What a call to compress a session reports, and what the rows that it stores say.
module MemoryRecords {
  import opened Memory

  // The turns of a session are its own, all of them, each as often as it was said.
  lemma {:induction false} TurnsOfIs(turns: seq<Turn>, session: string)
    ensures forall t :: t in TurnsOf(turns, session) <==> t in turns && t.session == session
    ensures multiset(TurnsOf(turns, session)) <= multiset(turns)
  {
    if turns != [] {
      var init, last := turns[..|turns| - 1], turns[|turns| - 1];
      assert turns == init + [last];
      TurnsOfIs(init, session);
    }
  }

  // With the first n blocks summarised: what a call reports, and why.
  lemma CallReports(st: Store, session: string, c: Settings, reply: Reply, n: nat)
    requires 0 < c.batch <= c.threshold && Prefix(st, session, c, n)
    ensures var s, turns := After(st, session, c, reply).status, |TurnsOf(st.turns, session)|;
            var due := n < Reach(st, session, c);
            && (s == BelowThreshold <==> turns < c.threshold)
            && (s == NothingOld <==> turns >= c.threshold && turns - (c.threshold - c.batch) < c.batch)
            && (s == AllCompressed <==>
                  turns >= c.threshold && turns - (c.threshold - c.batch) >= c.batch && !due)
            && (s == Status.Error <==> due && reply == Raises)
            && (s == EmptySummary <==> due && reply == Blank)
            && (s.Success? <==> due && reply.Says?)
  {
    DueIff(st, session, c, n);
    MissingIs(st, session, c, n);
    StartIs(n, c.batch);
    if n < Reach(st, session, c) {
      AfterIsAttempt(st, session, c, reply);
      AttemptIs(st, session, StartOf(n, c.batch), c.batch, reply);
    } else {
      SkippedIs(st, session, c, reply);
    }
  }

  lemma SkippedIs(st: Store, session: string, c: Settings, reply: Reply)
    requires 0 < c.batch
    requires |TurnsOf(st.turns, session)| < c.threshold || Missing(st, session, c).Nowhere?
    ensures After(st, session, c, reply).status
            == if |TurnsOf(st.turns, session)| < c.threshold then BelowThreshold
               else if |TurnsOf(st.turns, session)| - (c.threshold - c.batch) < c.batch then NothingOld
               else AllCompressed
  {
  }

  // The row holds what the model said in call k, about the range that the call took. CallStores
  // says which turns the model was given.
  predicate WrittenBy(c: Settings, events: seq<Event>, k: nat, row: Summary) {
    && k < |events| && events[k] == Compress(row.session, Says(row.text)) && row.compression
    && row.turnRange.end == row.turnRange.start + c.batch - 1
    && Took(After(DoAll(Store([], []), c, events[..k]), row.session, c, Says(row.text)).status, row.turnRange.start)
  }

  predicate Took(s: Status, start: int) {
    s.Success? && s.start == start
  }

  lemma WrittenByLater(c: Settings, events: seq<Event>, e: Event, k: nat, row: Summary)
    requires WrittenBy(c, events, k, row)
    ensures WrittenBy(c, events + [e], k, row)
  {
    assert (events + [e])[..k] == events[..k];
  }

  // What a success leaves: one more row, with the text that the model gave, about the turns that it
  // was given.
  predicate Stores(st: Store, st': Store, s: Status, session: string, batch: int, reply: Reply) {
    && s.Success? && reply.Says? && st'.turns == st.turns
    && |st'.summaries| == |st.summaries| + 1 && st'.summaries[..|st.summaries|] == st.summaries
    && 0 < s.start <= |TurnsOf(st.turns, session)|
    && st'.summaries[|st.summaries|] == Summary(session, TurnRange(s.start, s.start + batch - 1), reply.text, true)
    && s.prompt == Between(TurnsOf(st.turns, session), s.start, s.start + batch - 1) != []
  }

  lemma AttemptStores(st: Store, session: string, start: nat, batch: int, reply: Reply)
    requires start > 0
    ensures var o := Attempt(st, session, start, start + batch - 1, reply);
            if o.status.Success? then Stores(st, o.store, o.status, session, batch, reply) else o.store == st
  {
  }

  // A call adds a row exactly when it succeeds.
  lemma CallStores(st: Store, session: string, c: Settings, reply: Reply)
    ensures var o := After(st, session, c, reply);
            if o.status.Success? then Stores(st, o.store, o.status, session, c.batch, reply) else o.store == st
  {
    var start := CallCases(st, session, c, reply);
    if start > 0 { AttemptStores(st, session, start, c.batch, reply); }
  }

  // A call is an attempt at one range, or none.
  lemma CallCases(st: Store, session: string, c: Settings, reply: Reply) returns (start: nat)
    ensures start > 0 ==> After(st, session, c, reply) == Attempt(st, session, start, start + c.batch - 1, reply)
    ensures start == 0 ==> After(st, session, c, reply).store == st && !After(st, session, c, reply).status.Success?
  {
    start := 0;
    if c.batch <= 0 {
      start := EmptyBatchCases(st, session, c, reply);
    } else if |TurnsOf(st.turns, session)| < c.threshold || Missing(st, session, c).Nowhere? {
      AfterIsNothing(st, session, c, reply);
    } else {
      start := Missing(st, session, c).start;
      MissingFits(st, session, c);
      AfterIsAttempt(st, session, c, reply);
    }
  }

  lemma MissingFits(st: Store, session: string, c: Settings)
    requires 0 < c.batch && Missing(st, session, c).Block?
    ensures c.batch <= Limit(st, session, c)
  {
  }

  lemma EmptyBatchCases(st: Store, session: string, c: Settings, reply: Reply) returns (start: nat)
    requires c.batch <= 0
    ensures start > 0 ==> After(st, session, c, reply) == Attempt(st, session, start, start + c.batch - 1, reply)
    ensures start == 0 ==> After(st, session, c, reply).store == st && !After(st, session, c, reply).status.Success?
  {
    start := if |TurnsOf(st.turns, session)| >= c.threshold && Limit(st, session, c) >= c.batch then 1 else 0;
  }

  lemma NewRowIsWritten(c: Settings, init: seq<Event>, session: string, reply: Reply, row: Summary)
    requires var st := DoAll(Store([], []), c, init);
             row !in st.summaries && row in After(st, session, c, reply).store.summaries
    ensures WrittenBy(c, init + [Compress(session, reply)], |init|, row)
  {
    var st := DoAll(Store([], []), c, init);
    CallStores(st, session, c, reply);
    var o := After(st, session, c, reply);
    StoredIs(st, o.store, o.status, session, c.batch, reply, row);
    assert (init + [Compress(session, reply)])[..|init|] == init;
  }

  lemma StoredIs(st: Store, st': Store, s: Status, session: string, batch: int, reply: Reply, row: Summary)
    requires Stores(st, st', s, session, batch, reply) && row in st'.summaries && row !in st.summaries
    ensures reply == Says(row.text) && row.session == session && row.compression
    ensures row.turnRange.end == row.turnRange.start + batch - 1 && Took(s, row.turnRange.start)
  {
    assert st'.summaries == st'.summaries[..|st.summaries|] + [st'.summaries[|st.summaries|]];
  }

  // Over any run, of any sessions, every stored row was written so.
  lemma {:induction false} RowsHoldWhatWasSaid(c: Settings, events: seq<Event>, row: Summary)
    requires row in DoAll(Store([], []), c, events).summaries
    ensures exists k: nat :: WrittenBy(c, events, k, row)
  {
    var init, e := events[..|events| - 1], events[|events| - 1];
    assert events == init + [e];
    if row in DoAll(Store([], []), c, init).summaries {
      RowsHoldWhatWasSaid(c, init, row);
      var k: nat :| WrittenBy(c, init, k, row);
      WrittenByLater(c, init, e, k, row);
    } else {
      NewRowIsWritten(c, init, e.session, e.reply, row);
    }
  }

  // The turns between two numbers, both included, as far as there are any.
  lemma BetweenIs(rows: seq<Turn>, start: nat, end: int, i: nat)
    requires 0 < start && i < |rows|
    ensures rows[i] in Between(rows, start, end) || !(start <= i + 1 <= end)
    ensures start <= end && start <= |rows| ==>
              |Between(rows, start, end)| == (if end <= |rows| then end else |rows|) - start + 1
              && Between(rows, start, end)[0] == rows[start - 1]
  {
    if start <= i + 1 <= end {
      assert Between(rows, start, end)[i + 1 - start] == rows[i];
    }
  }
}
