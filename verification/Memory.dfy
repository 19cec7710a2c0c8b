// Session memory: old turns of a session are summarised in blocks of a fixed size, oldest block
// first, and the newest turns are left alone.
module Memory {
  datatype Turn = Turn(session: string, text: string)

  // The turns from `start` to `end`, numbered from 1; the table holds it as a text. A batch of
  // zero or less makes a range with no turns.
  datatype TurnRange = TurnRange(start: nat, end: int)

  // A row of belief_summaries; compression: source is 'llm_compression'.
  datatype Summary = Summary(session: string, turnRange: TurnRange, text: string, compression: bool)

  // turns are in order of creation.
  datatype Store = Store(turns: seq<Turn>, summaries: seq<Summary>)

  datatype Settings = Settings(threshold: int, batch: int)

  // What the model says, stripped: it raises, says nothing, or says something.
  datatype Reply = Raises | Blank | Says(text: string)

  // What a call leaves, and what it reports.
  datatype Outcome = Outcome(store: Store, status: Status)

  // A block found, or none.
  datatype Found = Block(start: nat) | Nowhere

  // Success: the block, and the turns that went into the prompt.
  datatype Status = NoClient | BelowThreshold | NothingOld | AllCompressed | NoTurns | EmptySummary | Error
                  | Success(start: int, prompt: seq<Turn>)

  // ------------------------------------------------------------------------------------
  // The text of a range

  function Decimal(n: nat): (s: string)
    ensures s != [] && forall c :: c in s ==> '0' <= c <= '9'
  {
    if n < 10 then ['0' + n as char] else Decimal(n / 10) + ['0' + (n % 10) as char]
  }

  lemma {:induction false} DecimalsDiffer(a: nat, b: nat)
    requires Decimal(a) == Decimal(b)
    ensures a == b
  {
    if a < 10 || b < 10 {
      assert |Decimal(a)| == 1 <==> a < 10;
    } else {
      assert Decimal(a)[..|Decimal(a)| - 1] == Decimal(a / 10);
      assert Decimal(b)[..|Decimal(b)| - 1] == Decimal(b / 10);
      DecimalsDiffer(a / 10, b / 10);
      assert Decimal(a)[|Decimal(a)| - 1] == Decimal(b)[|Decimal(b)| - 1];
    }
  }

  function Signed(n: int): string {
    if n < 0 then "-" + Decimal(-n) else Decimal(n)
  }

  lemma SignedDiffer(a: int, b: int)
    requires Signed(a) == Signed(b)
    ensures a == b
  {
    assert a >= 0 ==> Signed(a)[0] in Decimal(a);
    assert b >= 0 ==> Signed(b)[0] in Decimal(b);
    if a < 0 {
      assert Decimal(-a) == Signed(a)[1..] == Signed(b)[1..] == Decimal(-b);
      DecimalsDiffer(-a, -b);
    } else {
      DecimalsDiffer(a, b);
    }
  }

  function Text(r: TurnRange): string {
    Decimal(r.start) + "-" + Signed(r.end)
  }

  // The first dash tells where the start ends.
  lemma FirstDash(a: string, x: string, b: string, y: string)
    requires a + "-" + x == b + "-" + y && '-' !in a && '-' !in b
    ensures a == b && x == y
  {
    var s := a + "-" + x;
    assert s[|a|] == '-' && s[|b|] == '-';
    assert forall i :: 0 <= i < |a| ==> s[i] == a[i] && s[i] in a;
    assert forall i :: 0 <= i < |b| ==> s[i] == b[i] && s[i] in b;
    assert |a| == |b|;
    assert a == s[..|a|] && b == s[..|b|] && x == s[|a| + 1..] && y == s[|b| + 1..];
  }

  // Two ranges never share a text, so comparing texts is comparing ranges.
  lemma TextsDiffer(a: TurnRange, b: TurnRange)
    requires Text(a) == Text(b)
    ensures a == b
  {
    FirstDash(Decimal(a.start), Signed(a.end), Decimal(b.start), Signed(b.end));
    DecimalsDiffer(a.start, b.start);
    SignedDiffer(a.end, b.end);
  }

  // ------------------------------------------------------------------------------------
  // The store

  function TurnsOf(turns: seq<Turn>, session: string): seq<Turn> {
    if turns == [] then []
    else
      var t := turns[|turns| - 1];
      TurnsOf(turns[..|turns| - 1], session) + if t.session == session then [t] else []
  }

  function RangesOf(summaries: seq<Summary>, session: string): seq<TurnRange> {
    if summaries == [] then []
    else
      var s := summaries[|summaries| - 1];
      RangesOf(summaries[..|summaries| - 1], session)
      + if s.session == session && s.compression then [s.turnRange] else []
  }

  // The start of the first block within the limit that has no summary yet.
  function FirstMissing(ranges: seq<TurnRange>, limit: int, batch: int, start: nat): (r: Found)
    requires batch > 0
    ensures r.Block? ==> r.start >= start && r.start + batch - 1 <= limit
    decreases limit - start
  {
    if start + batch - 1 > limit then Nowhere
    else if TurnRange(start, start + batch - 1) !in ranges then Block(start)
    else FirstMissing(ranges, limit, batch, start + batch)
  }

  // Rows numbered from 1, from `start` to `end`.
  function Between(rows: seq<Turn>, start: nat, end: int): seq<Turn>
    requires start > 0
  {
    if start > |rows| || end < start then []
    else if end <= |rows| then rows[start - 1..end]
    else rows[start - 1..]
  }

  function StartOf(k: nat, batch: int): (start: nat)
    requires batch > 0
    ensures start > 0
  {
    if k == 0 then 1 else StartOf(k - 1, batch) + batch
  }

  // The ranges of the first n blocks.
  function Blocks(n: nat, batch: int): (r: seq<TurnRange>)
    requires batch > 0
    ensures |r| == n
  {
    if n == 0 then []
    else Blocks(n - 1, batch) + [TurnRange(StartOf(n - 1, batch), StartOf(n - 1, batch) + batch - 1)]
  }

  function Limit(st: Store, session: string, c: Settings): int {
    |TurnsOf(st.turns, session)| - (c.threshold - c.batch)
  }

  // How many whole blocks fit.
  function Fitting(limit: int, batch: int): nat
    requires batch > 0
  {
    if limit < batch then 0 else 1 + Fitting(limit - batch, batch)
  }

  // How many blocks the turns are worth.
  function Reach(st: Store, session: string, c: Settings): nat
    requires c.batch > 0
  {
    if |TurnsOf(st.turns, session)| < c.threshold then 0 else Fitting(Limit(st, session, c), c.batch)
  }

  function Add(st: Store, session: string, start: nat, end: int, text: string): Store {
    st.(summaries := st.summaries + [Summary(session, TurnRange(start, end), text, true)])
  }

  // Summarising the turns from `start` to `end`.
  function Attempt(st: Store, session: string, start: nat, end: int, reply: Reply): Outcome
    requires 0 < start
  {
    var rows := Between(TurnsOf(st.turns, session), start, end);
    if rows == [] then Outcome(st, NoTurns)
    else if reply == Raises then Outcome(st, Error)
    else if reply == Blank then Outcome(st, EmptySummary)
    else Outcome(Add(st, session, start, end, reply.text), Success(start, rows))
  }

  function Missing(st: Store, session: string, c: Settings): (r: Found)
    requires c.batch > 0
    ensures r.Block? ==> r.start > 0
  {
    FirstMissing(RangesOf(st.summaries, session), Limit(st, session, c), c.batch, 1)
  }

  // What one call does.
  function After(st: Store, session: string, c: Settings, reply: Reply): Outcome {
    if |TurnsOf(st.turns, session)| < c.threshold then Outcome(st, BelowThreshold)
    else if Limit(st, session, c) < c.batch then Outcome(st, NothingOld)
    else if c.batch <= 0 then Attempt(st, session, 1, c.batch, reply)
    else
      var missing := Missing(st, session, c);
      if missing.Nowhere? then Outcome(st, AllCompressed)
      else Attempt(st, session, missing.start, missing.start + c.batch - 1, reply)
  }

  class SessionMemory {
    var turns: seq<Turn>
    var summaries: seq<Summary>

    function State(): Store
      reads this
    {
      Store(turns, summaries)
    }

    // No run stores a range without turns, so that the requirement always holds: see
    // RunsStoreRealRanges.
    method CompressSessionTurns(session: string, client: bool, c: Settings, reply: Reply) returns (s: Status)
      requires c.batch > 0 || TurnRange(1, c.batch) !in RangesOf(summaries, session)
      modifies `summaries
      ensures !client ==> s == NoClient && summaries == old(summaries)
      ensures client ==> Outcome(State(), s) == After(old(State()), session, c, reply)
    {
      if !client { return NoClient; }
      var total := |TurnsOf(turns, session)|;
      if total < c.threshold { return BelowThreshold; }
      var ranges := RangesOf(summaries, session);
      var limit := total - (c.threshold - c.batch);
      if limit < c.batch { return NothingOld; }
      s := CompressFirstMissing(session, ranges, limit, c.batch, reply);
    }

    method CompressFirstMissing(session: string, ranges: seq<TurnRange>, limit: int, batch: int, reply: Reply)
      returns (s: Status)
      requires batch > 0 || (TurnRange(1, batch) !in ranges && batch <= limit)
      modifies `summaries
      ensures var missing := if batch > 0 then FirstMissing(ranges, limit, batch, 1) else Block(1);
              if missing.Nowhere? then Outcome(State(), s) == Outcome(old(State()), AllCompressed)
              else Outcome(State(), s) ==
                   Attempt(old(State()), session, missing.start, missing.start + batch - 1, reply)
    {
      var missing := FindMissing(ranges, limit, batch);
      if missing.Nowhere? { return AllCompressed; }
      s := DoCompression(session, missing.start, missing.start + batch - 1, reply);
    }

    // The search for the first batch without a summary.
    static method FindMissing(ranges: seq<TurnRange>, limit: int, batch: int) returns (r: Found)
      requires batch > 0 || (TurnRange(1, batch) !in ranges && batch <= limit)
      ensures r == if batch > 0 then FirstMissing(ranges, limit, batch, 1) else Block(1)
      ensures r.Block? ==> r.start > 0
    {
      var start: nat := 1;
      while start + batch - 1 <= limit
        invariant start > 0
        invariant if batch > 0 then FirstMissing(ranges, limit, batch, start) == FirstMissing(ranges, limit, batch, 1)
                  else start == 1
        decreases limit - start
      {
        if TurnRange(start, start + batch - 1) !in ranges { return Block(start); }
        start := start + batch;
      }
      return Nowhere;
    }

    method DoCompression(session: string, start: nat, end: int, reply: Reply) returns (s: Status)
      requires 0 < start
      modifies `summaries
      ensures Outcome(State(), s) == Attempt(old(State()), session, start, end, reply)
    {
      var rows := Between(TurnsOf(turns, session), start, end);
      if rows == [] { return NoTurns; }
      if reply == Raises { return Error; }
      if reply == Blank { return EmptySummary; }
      summaries := summaries + [Summary(session, TurnRange(start, end), reply.text, true)];
      return Success(start, rows);
    }
  }

  // ------------------------------------------------------------------------------------
  // Runs

  lemma {:induction false} BlockAt(n: nat, batch: int, k: nat)
    requires batch > 0 && k < n
    ensures Blocks(n, batch)[k] == TurnRange(StartOf(k, batch), StartOf(k, batch) + batch - 1)
  {
    if k < n - 1 { BlockAt(n - 1, batch, k); }
  }

  lemma {:induction false} StartsGrow(j: nat, n: nat, batch: int)
    requires batch > 0 && j < n
    ensures StartOf(j, batch) + batch <= StartOf(n, batch)
  {
    if j < n - 1 { StartsGrow(j, n - 1, batch); }
  }

  lemma {:induction false} StartIs(k: nat, batch: int)
    requires batch > 0
    ensures StartOf(k, batch) == k * batch + 1
  {
    if k > 0 {
      StartIs(k - 1, batch);
      assert (k - 1) * batch + batch == k * batch;
    }
  }

  lemma NextBlockIsNew(n: nat, batch: int)
    requires batch > 0
    ensures TurnRange(StartOf(n, batch), StartOf(n, batch) + batch - 1) !in Blocks(n, batch)
  {
    var start := StartOf(n, batch);
    forall j | 0 <= j < n ensures Blocks(n, batch)[j] != TurnRange(start, start + batch - 1) {
      BlockAt(n, batch, j);
      StartsGrow(j, n, batch);
    }
  }

  // With the first n blocks summarised, the search passes over them and stops at the next.
  lemma {:induction false} NextBlockIsMissing(n: nat, batch: int, limit: int, k: nat)
    requires batch > 0 && k <= n && (k < n ==> StartOf(n, batch) - 1 <= limit)
    ensures FirstMissing(Blocks(n, batch), limit, batch, StartOf(k, batch))
            == if StartOf(n, batch) + batch - 1 <= limit then Block(StartOf(n, batch)) else Nowhere
    decreases n - k
  {
    if k < n {
      BlockAt(n, batch, k);
      StartsGrow(k, n, batch);
      NextBlockIsMissing(n, batch, limit, k + 1);
    } else {
      NextBlockIsNew(n, batch);
    }
  }

  // These ranges are the first n blocks, and none reaches beyond the limit.
  predicate FirstBlocks(ranges: seq<TurnRange>, limit: int, batch: int, n: nat)
    requires batch > 0
  {
    ranges == Blocks(n, batch) && (n > 0 ==> StartOf(n, batch) - 1 <= limit)
  }

  lemma NextBlockFollows(ranges: seq<TurnRange>, limit: int, batch: int, n: nat)
    requires batch > 0 && FirstBlocks(ranges, limit, batch, n) && StartOf(n, batch) + batch - 1 <= limit
    ensures StartOf(n + 1, batch) == StartOf(n, batch) + batch
    ensures FirstBlocks(ranges + [TurnRange(StartOf(n, batch), StartOf(n, batch) + batch - 1)], limit, batch, n + 1)
  {
  }

  // The summarised ranges of a session are its first n blocks, and all of them are old.
  predicate Prefix(st: Store, session: string, c: Settings, n: nat)
    requires c.batch > 0
  {
    FirstBlocks(RangesOf(st.summaries, session), Limit(st, session, c), c.batch, n)
  }

  lemma {:induction false} FittingIs(limit: int, batch: int, n: nat)
    requires batch > 0
    ensures n < Fitting(limit, batch) <==> StartOf(n + 1, batch) - 1 <= limit
  {
    if limit < batch {
      if n > 0 { StartsGrow(0, n, batch); }
    } else if n > 0 {
      FittingIs(limit - batch, batch, n - 1);
    }
  }

  // The blocks due: the turns beyond the ones that are kept, divided by the batch and rounded down.
  lemma ReachIsQuotient(st: Store, session: string, c: Settings)
    requires 0 < c.batch <= c.threshold <= |TurnsOf(st.turns, session)|
    ensures var reach, spare := Reach(st, session, c), |TurnsOf(st.turns, session)| - (c.threshold - c.batch);
            reach * c.batch <= spare < reach * c.batch + c.batch
  {
    var reach, limit := Reach(st, session, c), Limit(st, session, c);
    FittingIs(limit, c.batch, reach);
    StartIs(reach, c.batch);
    if reach > 0 { FittingIs(limit, c.batch, reach - 1); }
  }

  lemma AddExtends(st: Store, session: string, start: nat, end: int, text: string)
    ensures RangesOf(Add(st, session, start, end, text).summaries, session)
            == RangesOf(st.summaries, session) + [TurnRange(start, end)]
    ensures forall other :: other != session ==>
              RangesOf(Add(st, session, start, end, text).summaries, other) == RangesOf(st.summaries, other)
  {
    var summaries := Add(st, session, start, end, text).summaries;
    assert summaries[..|summaries| - 1] == st.summaries;
  }

  lemma MissingIs(st: Store, session: string, c: Settings, n: nat)
    requires 0 < c.batch && Prefix(st, session, c, n)
    ensures Missing(st, session, c)
         == if StartOf(n, c.batch) + c.batch - 1 <= Limit(st, session, c)
            then Block(StartOf(n, c.batch)) else Nowhere
  {
    NextBlockIsMissing(n, c.batch, Limit(st, session, c), 0);
  }

  // A success after n blocks: the next one has been summarised, from exactly its turns, and it
  // leaves the newest turns alone.
  predicate TakesBlock(st: Store, st': Store, s: Status, session: string, c: Settings, n: nat)
    requires c.batch > 0
  {
    var first, next := StartOf(n, c.batch), StartOf(n + 1, c.batch);
    && s.Success? && s.start == first
    && Prefix(st', session, c, n + 1)
    && next - 1 <= |TurnsOf(st.turns, session)| - (c.threshold - c.batch)
    && next - 1 <= |TurnsOf(st.turns, session)|
    && s.prompt == TurnsOf(st.turns, session)[first - 1..next - 1]
  }

  lemma AttemptTakesBlock(st: Store, session: string, c: Settings, n: nat, text: string)
    requires 0 < c.batch <= c.threshold && Prefix(st, session, c, n)
    requires StartOf(n, c.batch) + c.batch - 1 <= Limit(st, session, c)
    ensures var start := StartOf(n, c.batch);
            var o := Attempt(st, session, start, start + c.batch - 1, Says(text));
            TakesBlock(st, o.store, o.status, session, c, n)
  {
    AttemptIs(st, session, StartOf(n, c.batch), c.batch, Says(text));
    BlockIsTaken(st, session, c, n, text);
  }

  lemma AttemptIs(st: Store, session: string, start: nat, batch: int, reply: Reply)
    requires start > 0 && batch > 0 && start + batch - 1 <= |TurnsOf(st.turns, session)|
    ensures Attempt(st, session, start, start + batch - 1, reply) ==
            match reply
            case Raises => Outcome(st, Error)
            case Blank => Outcome(st, EmptySummary)
            case Says(text) => Outcome(Add(st, session, start, start + batch - 1, text),
                                       Success(start, TurnsOf(st.turns, session)[start - 1..start + batch - 1]))
  {
    BetweenIsBlock(TurnsOf(st.turns, session), start, batch);
  }

  lemma BlockIsTaken(st: Store, session: string, c: Settings, n: nat, text: string)
    requires 0 < c.batch <= c.threshold && Prefix(st, session, c, n)
    requires StartOf(n, c.batch) + c.batch - 1 <= Limit(st, session, c)
    ensures var start := StartOf(n, c.batch);
            TakesBlock(st, Add(st, session, start, start + c.batch - 1, text),
                       Success(start, TurnsOf(st.turns, session)[start - 1..start + c.batch - 1]), session, c, n)
  {
    PrefixGrows(st, session, c, n, text);
  }

  lemma BetweenIsBlock(rows: seq<Turn>, start: nat, batch: int)
    requires start > 0 && batch > 0 && start + batch - 1 <= |rows|
    ensures Between(rows, start, start + batch - 1) == rows[start - 1..start + batch - 1] != []
  {
  }

  lemma PrefixGrows(st: Store, session: string, c: Settings, n: nat, text: string)
    requires 0 < c.batch && Prefix(st, session, c, n) && StartOf(n, c.batch) + c.batch - 1 <= Limit(st, session, c)
    ensures Prefix(Add(st, session, StartOf(n, c.batch), StartOf(n, c.batch) + c.batch - 1, text), session, c, n + 1)
  {
    NextBlockFollows(RangesOf(st.summaries, session), Limit(st, session, c), c.batch, n);
    AddExtends(st, session, StartOf(n, c.batch), StartOf(n, c.batch) + c.batch - 1, text);
  }

  // A call summarises the next block, or nothing: it succeeds exactly when a block is due and
  // the model says something, and the model is given the turns of that block and no others.
  lemma CallExtendsPrefix(st: Store, session: string, c: Settings, reply: Reply, n: nat)
    requires 0 < c.batch <= c.threshold && Prefix(st, session, c, n)
    ensures var Outcome(st', s) := After(st, session, c, reply);
            if n < Reach(st, session, c) && reply.Says?
            then TakesBlock(st, st', s, session, c, n)
            else st' == st && !s.Success?
  {
    NextCall(st, session, c, reply, n);
    if n < Reach(st, session, c) {
      if reply.Says? {
        AttemptTakesBlock(st, session, c, n, reply.text);
      } else {
        AttemptIs(st, session, StartOf(n, c.batch), c.batch, reply);
      }
    }
  }

  lemma DueIff(st: Store, session: string, c: Settings, n: nat)
    requires 0 < c.batch <= c.threshold
    ensures n < Reach(st, session, c) <==>
            |TurnsOf(st.turns, session)| >= c.threshold && StartOf(n, c.batch) + c.batch - 1 <= Limit(st, session, c)
  {
    FittingIs(Limit(st, session, c), c.batch, n);
  }

  // What the call comes to: an attempt at the next block if it is due, and nothing otherwise.
  lemma NextCall(st: Store, session: string, c: Settings, reply: Reply, n: nat)
    requires 0 < c.batch <= c.threshold && Prefix(st, session, c, n)
    ensures n < Reach(st, session, c) <==>
            |TurnsOf(st.turns, session)| >= c.threshold && StartOf(n, c.batch) + c.batch - 1 <= Limit(st, session, c)
    ensures var start := StartOf(n, c.batch);
            if n < Reach(st, session, c)
            then After(st, session, c, reply) == Attempt(st, session, start, start + c.batch - 1, reply)
            else After(st, session, c, reply).store == st && !After(st, session, c, reply).status.Success?
  {
    DueIff(st, session, c, n);
    MissingIs(st, session, c, n);
    if n < Reach(st, session, c) {
      AfterIsAttempt(st, session, c, reply);
    } else {
      AfterIsNothing(st, session, c, reply);
    }
  }

  lemma AfterIsAttempt(st: Store, session: string, c: Settings, reply: Reply)
    requires 0 < c.batch <= Limit(st, session, c) && |TurnsOf(st.turns, session)| >= c.threshold
    requires Missing(st, session, c).Block?
    ensures var start := Missing(st, session, c).start;
            After(st, session, c, reply) == Attempt(st, session, start, start + c.batch - 1, reply)
  {
  }

  lemma AfterIsNothing(st: Store, session: string, c: Settings, reply: Reply)
    requires 0 < c.batch
    requires |TurnsOf(st.turns, session)| < c.threshold || Missing(st, session, c).Nowhere?
    ensures After(st, session, c, reply).store == st && !After(st, session, c, reply).status.Success?
  {
  }

  datatype Event = Say(turn: Turn) | Compress(session: string, reply: Reply)

  function Do(st: Store, c: Settings, e: Event): Store {
    match e
    case Say(t) => st.(turns := st.turns + [t])
    case Compress(session, reply) => After(st, session, c, reply).store
  }

  function DoAll(st: Store, c: Settings, events: seq<Event>): Store {
    if events == [] then st else Do(DoAll(st, c, events[..|events| - 1]), c, events[|events| - 1])
  }

  lemma StepKeepsPrefix(st: Store, session: string, c: Settings, e: Event, n: nat)
    requires 0 < c.batch <= c.threshold && Prefix(st, session, c, n)
    ensures Prefix(Do(st, c, e), session, c, |RangesOf(Do(st, c, e).summaries, session)|)
    ensures |RangesOf(Do(st, c, e).summaries, session)| >= n
  {
    match e {
      case Say(t) => assert (st.turns + [t])[..|st.turns|] == st.turns;
      case Compress(s, reply) =>
        if s == session {
          CallExtendsPrefix(st, session, c, reply, n);
        } else {
          OthersUntouched(st, s, c, reply, session);
        }
    }
  }

  lemma OthersUntouched(st: Store, session: string, c: Settings, reply: Reply, other: string)
    requires other != session
    ensures RangesOf(After(st, session, c, reply).store.summaries, other) == RangesOf(st.summaries, other)
    ensures After(st, session, c, reply).store.turns == st.turns
  {
    var Outcome(st', s) := After(st, session, c, reply);
    if s.Success? {
      var r := st'.summaries[|st.summaries|].turnRange;
      AddExtends(st, session, r.start, r.end, reply.text);
    }
  }

  // Whatever the settings of each call, a stored range holds a turn at least.
  lemma {:induction false} RunsStoreRealRanges(calls: seq<(Settings, Event)>, session: string, r: TurnRange)
    requires r in RangesOf(DoEach(calls).summaries, session)
    ensures 0 < r.start <= r.end
  {
    if calls != [] {
      var before, call := DoEach(calls[..|calls| - 1]), calls[|calls| - 1];
      if r in RangesOf(before.summaries, session) {
        RunsStoreRealRanges(calls[..|calls| - 1], session, r);
      } else {
        NewRangeIsReal(before, call.0, call.1, session, r);
      }
    }
  }

  lemma NewRangeIsReal(st: Store, c: Settings, e: Event, session: string, r: TurnRange)
    requires r in RangesOf(Do(st, c, e).summaries, session) && r !in RangesOf(st.summaries, session)
    ensures 0 < r.start <= r.end
  {
    if e.Compress? {
      var Outcome(st', s) := After(st, e.session, c, e.reply);
      if s.Success? {
        assert st'.summaries[..|st.summaries|] == st.summaries;
        assert st'.summaries[|st.summaries|].turnRange == r;
      }
    }
  }

  // A run in which the settings change from call to call.
  function DoEach(calls: seq<(Settings, Event)>): Store {
    if calls == [] then Store([], [])
    else Do(DoEach(calls[..|calls| - 1]), calls[|calls| - 1].0, calls[|calls| - 1].1)
  }

  // Over any run of turns and calls, of any sessions: what is summarised of a session is always
  // its first so many blocks, in order, each once, and never one of its newest turns.
  lemma {:induction false} RunsCompressPrefixes(c: Settings, events: seq<Event>, session: string)
    requires 0 < c.batch <= c.threshold
    ensures var st := DoAll(Store([], []), c, events);
            Prefix(st, session, c, |RangesOf(st.summaries, session)|)
  {
    if events != [] {
      RunsCompressPrefixes(c, events[..|events| - 1], session);
      var before := DoAll(Store([], []), c, events[..|events| - 1]);
      StepKeepsPrefix(before, session, c, events[|events| - 1], |RangesOf(before.summaries, session)|);
    }
  }

  function Calls(session: string, replies: seq<Reply>): (r: seq<Event>)
    ensures |r| == |replies|
  {
    if replies == [] then [] else Calls(session, replies[..|replies| - 1]) + [Compress(session, replies[|replies| - 1])]
  }

  // The number of blocks after k more successes, when `reach` are due.
  function Caught(n: nat, k: nat, reach: nat): nat {
    if n >= reach then n else if n + k <= reach then n + k else reach
  }

  // k successes after n blocks, as long as blocks are due.
  predicate CaughtUp(st: Store, st': Store, session: string, c: Settings, n: nat, k: nat)
    requires c.batch > 0
  {
    st'.turns == st.turns && Prefix(st', session, c, Caught(n, k, Reach(st, session, c)))
  }

  // Calls that the model answers reach every block that is due, one a call.
  lemma {:induction false} CallsCatchUp(st: Store, session: string, c: Settings, replies: seq<Reply>, n: nat)
    requires 0 < c.batch <= c.threshold && Prefix(st, session, c, n)
    requires forall r :: r in replies ==> r.Says?
    ensures CaughtUp(st, DoAll(st, c, Calls(session, replies)), session, c, n, |replies|)
  {
    if replies != [] {
      var init, r := replies[..|replies| - 1], replies[|replies| - 1];
      assert forall r :: r in init ==> r in replies;
      CallsCatchUp(st, session, c, init, n);
      assert r in replies;
      CallsStep(st, session, c, replies);
      OneMoreCall(st, DoAll(st, c, Calls(session, init)), session, c, r, n, |init|);
    }
  }

  lemma CallsStep(st: Store, session: string, c: Settings, replies: seq<Reply>)
    requires replies != []
    ensures var init, r := replies[..|replies| - 1], replies[|replies| - 1];
            DoAll(st, c, Calls(session, replies)) == Do(DoAll(st, c, Calls(session, init)), c, Compress(session, r))
  {
    assert Calls(session, replies)[..|replies| - 1] == Calls(session, replies[..|replies| - 1]);
  }

  lemma OneMoreCall(st: Store, before: Store, session: string, c: Settings, reply: Reply, n: nat, k: nat)
    requires 0 < c.batch <= c.threshold && CaughtUp(st, before, session, c, n, k)
    requires reply.Says?
    ensures CaughtUp(st, Do(before, c, Compress(session, reply)), session, c, n, k + 1)
  {
    CaughtMore(n, k, Reach(st, session, c));
    AnsweredCall(before, session, c, reply, Caught(n, k, Reach(st, session, c)));
  }

  lemma CaughtMore(n: nat, k: nat, reach: nat)
    ensures Caught(n, k + 1, reach) == Caught(n, k, reach) + if Caught(n, k, reach) < reach then 1 else 0
  {
  }

  lemma AnsweredCall(st: Store, session: string, c: Settings, reply: Reply, n: nat)
    requires 0 < c.batch <= c.threshold && Prefix(st, session, c, n) && reply.Says?
    ensures var st' := Do(st, c, Compress(session, reply));
            st'.turns == st.turns && Prefix(st', session, c, n + if n < Reach(st, session, c) then 1 else 0)
  {
    CallExtendsPrefix(st, session, c, reply, n);
    OthersUntouched(st, session, c, reply, session + "'");
  }

  lemma {:induction false} OwnTurns(turns: seq<Turn>, session: string)
    requires forall t :: t in turns ==> t.session == session
    ensures TurnsOf(turns, session) == turns
  {
    if turns != [] {
      assert turns[|turns| - 1] in turns;
      assert turns == turns[..|turns| - 1] + [turns[|turns| - 1]];
      OwnTurns(turns[..|turns| - 1], session);
    }
  }

  // Every summary that any run makes is made from as many turns as its range says.
  ghost predicate BlocksAreFull(c: Settings) {
    forall events, session, reply ::
      var s := After(DoAll(Store([], []), c, events), session, c, reply).status;
      s.Success? ==> |s.prompt| == c.batch
  }

  // The settings matter: with a batch larger than the threshold a block is summarised before its
  // turns are all there, and its range then hides the missing ones for good.
  lemma BlocksAreFullIff(c: Settings)
    requires c.batch > 0
    ensures BlocksAreFull(c) <==> c.batch <= c.threshold || c.batch == 1
  {
    if c.batch <= c.threshold || c.batch == 1 {
      forall events, session, reply
        ensures var s := After(DoAll(Store([], []), c, events), session, c, reply).status;
                s.Success? ==> |s.prompt| == c.batch
      {
        FullPrompt(c, events, session, reply);
      }
    } else {
      var events := TooFewTurns(c);
      assert |After(DoAll(Store([], []), c, events), "s", c, Says("b")).status.prompt| != c.batch;
    }
  }

  lemma FullPrompt(c: Settings, events: seq<Event>, session: string, reply: Reply)
    requires 0 < c.batch && (c.batch <= c.threshold || c.batch == 1)
    ensures var s := After(DoAll(Store([], []), c, events), session, c, reply).status;
            s.Success? ==> |s.prompt| == c.batch
  {
    var st := DoAll(Store([], []), c, events);
    if c.batch <= c.threshold {
      RunsCompressPrefixes(c, events, session);
      FullBlock(st, session, c, reply, |RangesOf(st.summaries, session)|);
    } else {
      SingleTurn(st, session, c, reply);
    }
  }

  lemma FullBlock(st: Store, session: string, c: Settings, reply: Reply, n: nat)
    requires 0 < c.batch <= c.threshold && Prefix(st, session, c, n)
    ensures var s := After(st, session, c, reply).status; s.Success? ==> |s.prompt| == c.batch
  {
    CallExtendsPrefix(st, session, c, reply, n);
    assert StartOf(n + 1, c.batch) == StartOf(n, c.batch) + c.batch;
  }

  lemma SingleTurn(st: Store, session: string, c: Settings, reply: Reply)
    requires c.batch == 1
    ensures var s := After(st, session, c, reply).status; s.Success? ==> |s.prompt| == 1
  {
    if |TurnsOf(st.turns, session)| < c.threshold || Missing(st, session, c).Nowhere? {
      AfterIsNothing(st, session, c, reply);
    } else {
      AfterIsAttempt(st, session, c, reply);
      OneTurn(st, session, Missing(st, session, c).start, reply);
    }
  }

  lemma OneTurn(st: Store, session: string, start: nat, reply: Reply)
    requires start > 0
    ensures var s := Attempt(st, session, start, start, reply).status; s.Success? ==> |s.prompt| == 1
  {
  }

  function Turns(n: nat): (r: seq<Turn>)
    ensures |r| == n && forall t :: t in r ==> t == Turn("s", "t")
  {
    if n == 0 then [] else Turns(n - 1) + [Turn("s", "t")]
  }

  function Chat(n: nat): seq<Event> {
    if n == 0 then [] else Chat(n - 1) + [Say(Turn("s", "t"))]
  }

  lemma {:induction false} SaysGiveTurns(c: Settings, n: nat)
    ensures DoAll(Store([], []), c, Chat(n)) == Store(Turns(n), [])
  {
    if n > 0 {
      SaysGiveTurns(c, n - 1);
      assert Chat(n)[..|Chat(n)| - 1] == Chat(n - 1);
    }
  }

  lemma TooFewTurns(c: Settings) returns (events: seq<Event>)
    requires c.batch > c.threshold && c.batch > 1
    ensures var s := After(DoAll(Store([], []), c, events), "s", c, Says("b")).status;
            s.Success? && |s.prompt| < c.batch
  {
    var n := if c.threshold > 0 then c.threshold else 1;
    events := Chat(n);
    SaysGiveTurns(c, n);
    FirstBlockIsShort(c, Store(Turns(n), []), "s", "b");
  }

  lemma FirstBlockIsShort(c: Settings, st: Store, session: string, text: string)
    requires c.threshold <= |st.turns| < c.batch && st.turns != [] && st.summaries == []
    requires forall t :: t in st.turns ==> t.session == session
    ensures After(st, session, c, Says(text)).status == Success(1, st.turns)
  {
    OwnTurns(st.turns, session);
    MissingIs(st, session, c, 0);
    AfterIsAttempt(st, session, c, Says(text));
    ShortBlock(c, st, session, text);
  }

  lemma ShortBlock(c: Settings, st: Store, session: string, text: string)
    requires |st.turns| < c.batch && st.turns != [] && TurnsOf(st.turns, session) == st.turns
    ensures Attempt(st, session, 1, c.batch, Says(text)).status == Success(1, st.turns)
  {
    assert Between(st.turns, 1, c.batch) == st.turns;
  }
}
