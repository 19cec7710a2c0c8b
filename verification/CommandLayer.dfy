// The gates in front of every tool call, the audit log, and nudge deduplication.
module CommandLayer {
  import opened Wrappers
  import opened Json
  import opened Tools

  type Input = map<string, Value>

  // What the sensitive-content scan answers about an input.
  datatype Scan = Clean | Sensitive | ScanRaises

  datatype Policy = Policy(tables: Tables, overrides: map<string, Override>, interactive: bool,
                           hasDb: bool, dedupSecs: int)

  // One access_log row written for a tool call.
  datatype AuditRow = AuditRow(tool: string, thread: Value, category: Value, refs: Value, at: int,
                               source: Option<string>, bumped: bool, baseTier: Tier, tier: Tier,
                               input: Input, output: Value)

  // The block reason of a refusal, for its text.
  datatype Reason =
    | NoReason
    | InternalError
    | Invalid(errors: seq<string>)
    | NeedsUser(tool: string)
    | SensitiveContent(tool: string)
    | DuplicateAction

  datatype CommandResult = CommandResult(allowed: bool, tier: Tier, errors: seq<string>, dedupSuppressed: bool,
                                         auditRequired: bool, blockReason: Reason, retryHint: string,
                                         sourceBumped: bool)

  function Field(input: Input, key: string, missing: Value): Value {
    if key in input then input[key] else missing
  }

  predicate Hashable(v: Value) { !v.Items? && !v.Fields? }

  // set(v): the elements of a list, the characters of a string, the keys of a dictionary.
  function AsSet(v: Value): Option<set<Value>> {
    match v
    case Items(vs) => if forall x :: x in vs ==> Hashable(x) then Some(set x | x in vs) else None
    case Text(s) => Some(set c | c in s :: Text([c]))
    case Fields(m) => Some(set k | k in m :: Text(k))
    case _ => None
  }

  lemma FieldReads(input: Input, key: string, missing: Value)
    ensures Field(input, key, missing) == missing || (key in input && Field(input, key, missing) == input[key])
    ensures key in input ==> Field(input, key, missing) == input[key]
  {
  }

  // A list of plain values gives its elements, and one with a list or a dictionary in it nothing.
  lemma RefsAreElements(vs: seq<Value>)
    ensures AsSet(Items(vs)).Some? <==> forall x :: x in vs ==> !x.Items? && !x.Fields?
    ensures AsSet(Items(vs)).Some? ==> forall x :: x in AsSet(Items(vs)).value <==> x in vs
  {
  }

  // This stored row suppresses a nudge with this input at this time.
  predicate Covers(row: AuditRow, input: Input, now: int, dedupSecs: int) {
    && row.tool == "nudge" && row.at > now - dedupSecs
    && row.thread == Field(input, "thread_id", Text(""))
    && row.category == Field(input, "category", Text(""))
    && AsSet(row.refs).Some? && AsSet(Field(input, "refs", Items([]))).Some?
    && AsSet(Field(input, "refs", Items([]))).value <= AsSet(row.refs).value
  }

  predicate Duplicate(p: Policy, log: seq<AuditRow>, tool: string, input: Input, now: int) {
    tool == "nudge" && p.hasDb && exists i :: 0 <= i < |log| && Covers(log[i], input, now, p.dedupSecs)
  }

  // The content bump, for a tier that override and source bump have settled.
  function AfterScan(p: Policy, tool: string, resolved: Tier, scan: Scan): Result<Tier> {
    if resolved == Red || tool !in p.tables.writes then Ok(resolved)
    else match scan
      case Clean => Ok(resolved)
      case Sensitive => Ok(Red)
      case ScanRaises => Err
  }

  // The tier after the override, the source bump and the content bump. Err when any of the
  // steps raises.
  function EffectiveTier(p: Policy, tool: string, source: Option<string>, scan: Scan): Result<Tier> {
    match ResolveTier(p.tables, tool, p.overrides, source)
    case Err => Err
    case Ok(t) => AfterScan(p, tool, t, scan)
  }

  // The gates other than deduplication: the input fits the schema, and the tier is known and
  // needs no absent user.
  predicate PassesGates(p: Policy, tool: string, errors: seq<string>, source: Option<string>, scan: Scan) {
    && errors == []
    && EffectiveTier(p, tool, source, scan).Ok?
    && (EffectiveTier(p, tool, source, scan).value == Red ==> p.interactive)
  }

  // A call goes ahead exactly when it passes them and is no duplicate.
  predicate Permitted(p: Policy, log: seq<AuditRow>, tool: string, input: Input, errors: seq<string>,
                      source: Option<string>, scan: Scan, now: int) {
    PassesGates(p, tool, errors, source, scan) && !Duplicate(p, log, tool, input, now)
  }

  function Joined(parts: seq<string>): string {
    if parts == [] then "" else if |parts| == 1 then parts[0] else parts[0] + ", " + Joined(parts[1..])
  }

  function RetryHint(tool: string, errors: seq<string>): string {
    "Schema validation failed for " + tool + ": " + Joined(errors) + ". Please fix the parameters and try again."
  }

  // Why a call whose input fits the schema stops at the tier.
  function BlockReason(p: Policy, tool: string, source: Option<string>, scan: Scan): Reason {
    TierReason(ResolveTier(p.tables, tool, p.overrides, source), EffectiveTier(p, tool, source, scan), tool)
  }

  function TierReason(resolved: Result<Tier>, effective: Result<Tier>, tool: string): Reason {
    if effective.Err? then InternalError
    else if resolved == Ok(Red) then NeedsUser(tool)
    else SensitiveContent(tool)
  }

  // The text of an exception is left out.
  function Sentence(reason: Reason): string {
    match reason
    case NoReason => ""
    case InternalError => "CommandLayer internal error"
    case Invalid(errors) => "Validation failed: " + Joined(errors)
    case NeedsUser(tool) => "Tool '" + tool + "' requires user confirmation and cannot be run in non-interactive mode."
    case SensitiveContent(tool) =>
      "Tool '" + tool + "' contains sensitive content and requires user confirmation, but cannot be run in "
      + "non-interactive mode."
    case DuplicateAction => "Duplicate action suppressed"
  }

  // The refusal carries something that makes dispatch return.
  predicate HasReason(r: CommandResult) {
    r.errors != [] || r.dedupSuppressed || r.blockReason != NoReason
  }

  class Layer {
    const policy: Policy
    var log: seq<AuditRow>

    constructor (policy: Policy)
      ensures this.policy == policy && log == []
    {
      this.policy, log := policy, [];
    }

    method CheckDedup(tool: string, input: Input, now: int) returns (dup: bool)
      ensures dup == Duplicate(policy, log, tool, input, now)
    {
      if tool != "nudge" || !policy.hasDb { return false; }
      var thread := Field(input, "thread_id", Text(""));
      var category := Field(input, "category", Text(""));
      var newRefs := AsSet(Field(input, "refs", Items([])));
      if newRefs.None? { return false; }
      var since := now - policy.dedupSecs;
      for i := 0 to |log|
        invariant forall j :: 0 <= j < i ==> !Covers(log[j], input, now, policy.dedupSecs)
      {
        var row := log[i];
        if row.tool == "nudge" && row.at > since && row.thread == thread && row.category == category {
          var stored := AsSet(row.refs);
          if stored.Some? && newRefs.value <= stored.value { return true; }
        }
      }
      return false;
    }

    // errors: the outcome of the schema validation.
    method Check(tool: string, input: Input, errors: seq<string>, source: Option<string>, scan: Scan, now: int)
      returns (r: CommandResult)
      ensures r.allowed <==> Permitted(policy, log, tool, input, errors, source, scan, now)
      ensures r.allowed ==> EffectiveTier(policy, tool, source, scan) == Ok(r.tier)
      ensures r.allowed ==> (r.auditRequired <==> r.tier == Yellow)
      ensures r.allowed ==> (r.sourceBumped <==> ResolveTier(policy.tables, tool, policy.overrides, None) != Ok(r.tier))
      ensures !r.allowed ==> HasReason(r) && !r.auditRequired
      ensures r.errors == if ResolveTier(policy.tables, tool, policy.overrides, source).Ok? then errors else []
      ensures r.errors != [] ==> r.retryHint == RetryHint(tool, errors)
      ensures r.dedupSuppressed <==> PassesGates(policy, tool, errors, source, scan) && !r.allowed
      ensures !r.allowed && r.errors == [] && !r.dedupSuppressed ==>
                r.blockReason == BlockReason(policy, tool, source, scan)
      // A write tool with a sensitive input goes ahead at Red only, with the user present.
      ensures r.allowed && tool in policy.tables.writes && scan != Clean ==>
                policy.interactive && r.tier == Red && !r.auditRequired
    {
      var base := ResolveTier(policy.tables, tool, policy.overrides, None);
      var resolved := ResolveTier(policy.tables, tool, policy.overrides, source);
      RedStaysRed(tool, source);
      ScanDecides(policy, tool, source, scan);
      r := CheckResolved(tool, input, errors, scan, now, base, resolved);
    }

    // The cascade behind the tiers.
    method CheckResolved(tool: string, input: Input, errors: seq<string>, scan: Scan, now: int,
                         base: Result<Tier>, resolved: Result<Tier>) returns (r: CommandResult)
      requires base.Ok? <==> resolved.Ok?
      requires base == Ok(Red) ==> resolved == Ok(Red)   // the bump only tightens
      ensures var effective := if resolved.Err? then Err else AfterScan(policy, tool, resolved.value, scan);
              var passes := errors == [] && effective.Ok? && (effective.value == Red ==> policy.interactive);
              && (r.allowed <==> passes && !Duplicate(policy, log, tool, input, now))
              && (r.allowed ==> Ok(r.tier) == effective && (r.sourceBumped <==> base != effective))
              && (r.dedupSuppressed <==> passes && !r.allowed)
              && (r.errors == [] && !passes ==> r.blockReason == TierReason(resolved, effective, tool))
      ensures r.allowed ==> (r.auditRequired <==> r.tier == Yellow)
      ensures !r.allowed ==> HasReason(r) && !r.auditRequired
      ensures r.errors == if resolved.Ok? then errors else []
      ensures r.errors != [] ==> r.retryHint == RetryHint(tool, errors)
    {
      if resolved.Err? {
        return CommandResult(false, Red, [], false, false, InternalError, "", false);
      }
      if errors != [] {
        return CommandResult(false, resolved.value, errors, false, false, Invalid(errors),
                             RetryHint(tool, errors), false);
      }
      r := CheckTier(tool, input, scan, now, base.value, resolved.value);
    }

    lemma RedStaysRed(tool: string, source: Option<string>)
      ensures var base := ResolveTier(policy.tables, tool, policy.overrides, None);
              var resolved := ResolveTier(policy.tables, tool, policy.overrides, source);
              (base.Ok? <==> resolved.Ok?) && (base == Ok(Red) ==> resolved == Ok(Red))
    {
    }

    // The rest of it, for an input that fits the schema.
    method CheckTier(tool: string, input: Input, scan: Scan, now: int, base: Tier, resolved: Tier)
      returns (r: CommandResult)
      requires base == Red ==> resolved == Red   // the bump only tightens
      ensures var effective := AfterScan(policy, tool, resolved, scan);
              var passes := effective.Ok? && (effective.value == Red ==> policy.interactive);
              && (r.allowed <==> passes && !Duplicate(policy, log, tool, input, now))
              && (r.allowed ==> r.tier == effective.value)
              && (r.dedupSuppressed <==> passes && !r.allowed)
              && (!passes ==> r.blockReason == TierReason(Ok(resolved), effective, tool))
      ensures r.allowed ==> (r.auditRequired <==> r.tier == Yellow) && (r.sourceBumped <==> base != r.tier)
      ensures !r.allowed ==> HasReason(r) && !r.auditRequired
      ensures r.errors == []
    {
      var tier := resolved;
      var bumped := tier != base;
      if tier == Red && !policy.interactive {
        return CommandResult(false, tier, [], false, false, NeedsUser(tool), "", bumped);
      }
      if tier != Red && tool in policy.tables.writes {
        if scan == ScanRaises {
          return CommandResult(false, Red, [], false, false, InternalError, "", false);
        }
        if scan == Sensitive {
          tier, bumped := Red, true;
          if !policy.interactive {
            return CommandResult(false, tier, [], false, false, SensitiveContent(tool), "", bumped);
          }
        }
      }
      var dup := CheckDedup(tool, input, now);
      if dup {
        return CommandResult(false, tier, [], true, false, DuplicateAction, "", false);
      }
      return CommandResult(true, tier, [], false, tier == Yellow, NoReason, "", bumped);
    }

    method Audit(tool: string, input: Input, output: Value, source: Option<string>, bumped: bool,
                 baseTier: Tier, tier: Tier, now: int)
      modifies this
      ensures log == old(log)
                     + if policy.hasDb then [Row(tool, input, output, source, bumped, baseTier, tier, now)] else []
    {
      if !policy.hasDb { return; }
      log := log + [Row(tool, input, output, source, bumped, baseTier, tier, now)];
    }
  }

  function Row(tool: string, input: Input, output: Value, source: Option<string>, bumped: bool,
               baseTier: Tier, tier: Tier, now: int): AuditRow {
    AuditRow(tool, Field(input, "thread_id", Text("")), Field(input, "category", Text("")),
             Field(input, "refs", Items([])), now, source, bumped, baseTier, tier, input, output)
  }

  // ------------------------------------------------------------------------------------
  // Runs of calls

  // answer: what the executor does if it is called; None is an exception.
  datatype Request = Request(tool: string, input: Input, errors: seq<string>, source: Option<string>,
                             scan: Scan, at: int, answer: Option<Value>)

  datatype Trace = Trace(log: seq<AuditRow>, calls: seq<Request>)

  // An executed call leaves a row in the log exactly when it was made at Yellow and the executor
  // answered.
  predicate Audited(p: Policy, q: Request) {
    EffectiveTier(p, q.tool, q.source, q.scan) == Ok(Yellow) && p.hasDb && q.answer.Some?
  }

  function RowOf(p: Policy, q: Request): AuditRow
    requires Audited(p, q)
  {
    var base := ResolveTier(p.tables, q.tool, p.overrides, None).value;
    Row(q.tool, q.input, q.answer.value, q.source, base != Yellow, base, Yellow, q.at)
  }

  // The rows of some executed calls.
  function RowsOf(p: Policy, calls: seq<Request>): seq<AuditRow> {
    if calls == [] then []
    else
      var q := calls[|calls| - 1];
      RowsOf(p, calls[..|calls| - 1]) + if Audited(p, q) then [RowOf(p, q)] else []
  }

  // What one gated call adds to the executor's calls and to the log.
  function Perform(p: Policy, t: Trace, q: Request): Trace {
    if !Permitted(p, t.log, q.tool, q.input, q.errors, q.source, q.scan, q.at) then t
    else
      Trace(t.log + if Audited(p, q) then [RowOf(p, q)] else [], t.calls + [q])
  }

  function PerformAll(p: Policy, qs: seq<Request>): Trace {
    if qs == [] then Trace([], []) else Perform(p, PerformAll(p, qs[..|qs| - 1]), qs[|qs| - 1])
  }

  // With no user present, no sequence of calls ever reaches the executor at tier Red.
  lemma {:induction false} NeverRedUnattended(p: Policy, qs: seq<Request>)
    requires !p.interactive
    ensures forall q :: q in PerformAll(p, qs).calls ==>
                          && q.errors == []
                          && EffectiveTier(p, q.tool, q.source, q.scan).Ok?
                          && EffectiveTier(p, q.tool, q.source, q.scan).value != Red
  {
    if qs != [] { NeverRedUnattended(p, qs[..|qs| - 1]); }
  }

  // Over any run: a write tool whose input the scan finds sensitive, or fails on, reaches the
  // executor only with a user present, at Red, and leaves no audit row.
  lemma {:induction false} ScannedWritesNeedUser(p: Policy, qs: seq<Request>)
    ensures forall q :: q in PerformAll(p, qs).calls && q.tool in p.tables.writes && q.scan != Clean ==>
                          && p.interactive && !Audited(p, q)
                          && EffectiveTier(p, q.tool, q.source, q.scan) == Ok(Red)
                          && (q.scan == ScanRaises ==> ResolveTier(p.tables, q.tool, p.overrides, q.source) == Ok(Red))
  {
    if qs != [] {
      ScannedWritesNeedUser(p, qs[..|qs| - 1]);
      var q := qs[|qs| - 1];
      ScanDecides(p, q.tool, q.source, q.scan);
    }
  }

  // For write tools a sensitive input is Red, whatever the profile says; for all others, and for
  // clean inputs, the scan changes nothing.
  lemma ScanDecides(p: Policy, tool: string, source: Option<string>, scan: Scan)
    ensures var resolved := ResolveTier(p.tables, tool, p.overrides, source);
            var effective := EffectiveTier(p, tool, source, scan);
            && (tool !in p.tables.writes || scan == Clean || resolved.Err? ==> effective == resolved)
            && (tool in p.tables.writes && scan == Sensitive && resolved.Ok? ==> effective == Ok(Red))
            && (tool in p.tables.writes && scan == ScanRaises && resolved.Ok? && resolved != Ok(Red) ==> effective.Err?)
            && (resolved == Ok(Red) ==> effective == Ok(Red))
  {
  }

  // With no user present nothing is ever sent, deleted or replied to by a tool that the profile
  // leaves alone.
  lemma NothingIsSentUnattended(p: Policy, qs: seq<Request>)
    requires !p.interactive && p.tables == TABLES
    ensures forall q :: q in PerformAll(p, qs).calls && q.tool !in p.overrides ==> q.tool !in FINAL_TOOLS
  {
    NeverRedUnattended(p, qs);
    forall q | q in PerformAll(p, qs).calls && q.tool !in p.overrides ensures q.tool !in FINAL_TOOLS {
      if q.tool in FINAL_TOOLS {
        FinalToolsAreRed(q.tool, p.overrides, q.source);
        ScanDecides(p, q.tool, q.source, q.scan);
        assert false;
      }
    }
  }

  // Two audited nudges of one thread and category, the later inside the window of the
  // earlier: the later one names something that the earlier one does not.
  predicate Informative(earlier: AuditRow, later: AuditRow, dedupSecs: int) {
    earlier.tool == later.tool == "nudge" && earlier.thread == later.thread && earlier.category == later.category
    && earlier.at > later.at - dedupSecs && AsSet(earlier.refs).Some? && AsSet(later.refs).Some?
    ==> exists ref :: ref in AsSet(later.refs).value && ref !in AsSet(earlier.refs).value
  }

  lemma {:induction false} AuditedNudgesAreInformative(p: Policy, qs: seq<Request>, i: nat, j: nat)
    requires i < j < |PerformAll(p, qs).log|
    ensures Informative(PerformAll(p, qs).log[i], PerformAll(p, qs).log[j], p.dedupSecs)
  {
    var init, q := qs[..|qs| - 1], qs[|qs| - 1];
    var t := PerformAll(p, init);
    if j < |t.log| {
      AuditedNudgesAreInformative(p, init, i, j);
    } else {
      assert !Duplicate(p, t.log, q.tool, q.input, q.at);
      assert q.tool == "nudge" ==> !Covers(t.log[i], q.input, q.at, p.dedupSecs);
    }
  }

  // The log is exactly the rows of the executed calls that are audited, in order.
  lemma {:induction false} LogIsOfCalls(p: Policy, qs: seq<Request>)
    ensures PerformAll(p, qs).log == RowsOf(p, PerformAll(p, qs).calls)
  {
    if qs != [] {
      var init, q := qs[..|qs| - 1], qs[|qs| - 1];
      LogIsOfCalls(p, init);
      assert (PerformAll(p, init).calls + [q])[..|PerformAll(p, init).calls|] == PerformAll(p, init).calls;
    }
  }

  lemma {:induction false} RowsOfIs(p: Policy, calls: seq<Request>, r: AuditRow)
    ensures r in RowsOf(p, calls) <==> exists e :: e in calls && Audited(p, e) && RowOf(p, e) == r
  {
    if calls != [] {
      var init, q := calls[..|calls| - 1], calls[|calls| - 1];
      RowsOfIs(p, init, r);
      assert forall e :: e in calls <==> e in init || e == q;
    }
  }

  // The row says what was called, with what, when, after which content and at which tiers.
  predicate Records(p: Policy, r: AuditRow, q: Request) {
    && r.tool == q.tool && r.input == q.input && Some(r.output) == q.answer && r.at == q.at && r.source == q.source
    && r.tier == Yellow && Ok(r.baseTier) == ResolveTier(p.tables, q.tool, p.overrides, None)
    && (r.bumped <==> r.baseTier != Yellow)
    && r.thread == Field(q.input, "thread_id", Text("")) && r.category == Field(q.input, "category", Text(""))
    && r.refs == Field(q.input, "refs", Items([]))
  }

  // The executed calls that must have a row: made at Yellow, answered, with a database at hand.
  predicate Auditable(p: Policy, q: Request) {
    EffectiveTier(p, q.tool, q.source, q.scan) == Ok(Yellow) && p.hasDb && q.answer.Some?
  }

  // Every executed call at Yellow that was answered has its row, and every row of the log belongs
  // to one; calls at Green or Red leave none.
  lemma OnlyYellowIsAudited(p: Policy, qs: seq<Request>)
    ensures forall e :: e in PerformAll(p, qs).calls && Auditable(p, e) ==>
                          exists r :: r in PerformAll(p, qs).log && Records(p, r, e)
    ensures forall r :: r in PerformAll(p, qs).log ==>
                          exists e :: e in PerformAll(p, qs).calls && Auditable(p, e) && Records(p, r, e)
    ensures forall r :: r in PerformAll(p, qs).log <==>
                        exists e :: e in PerformAll(p, qs).calls && Audited(p, e) && RowOf(p, e) == r
  {
    LogIsOfCalls(p, qs);
    var t := PerformAll(p, qs);
    forall r ensures r in t.log <==> exists e :: e in t.calls && Audited(p, e) && RowOf(p, e) == r {
      RowsOfIs(p, t.calls, r);
    }
    forall e | e in t.calls && Auditable(p, e) ensures exists r :: r in t.log && Records(p, r, e) {
      RowRecords(p, e);
      assert RowOf(p, e) in t.log;
    }
    forall r | r in t.log ensures exists e :: e in t.calls && Auditable(p, e) && Records(p, r, e) {
      var e :| e in t.calls && Audited(p, e) && RowOf(p, e) == r;
      RowRecords(p, e);
    }
  }

  lemma RowRecords(p: Policy, e: Request)
    requires Audited(p, e)
    ensures Auditable(p, e) && Records(p, RowOf(p, e), e)
  {
  }

  // An earlier audited nudge of the same thread and category, no longer ago than the window, that
  // names everything this one does.
  predicate CoveredBy(p: Policy, q: Request, e: Request) {
    && Auditable(p, e) && e.tool == "nudge" && q.at - e.at < p.dedupSecs
    && Field(e.input, "thread_id", Text("")) == Field(q.input, "thread_id", Text(""))
    && Field(e.input, "category", Text("")) == Field(q.input, "category", Text(""))
    && AsSet(Field(e.input, "refs", Items([]))).Some? && AsSet(Field(q.input, "refs", Items([]))).Some?
    && forall ref :: ref in AsSet(Field(q.input, "refs", Items([]))).value ==>
                       ref in AsSet(Field(e.input, "refs", Items([]))).value
  }

  lemma CoversIs(p: Policy, q: Request, e: Request)
    requires Audited(p, e)
    ensures CoveredBy(p, q, e) <==> Covers(RowOf(p, e), q.input, q.at, p.dedupSecs)
  {
  }

  // After any run, a nudge that passes the other gates is suppressed if and only if an executed
  // call that was audited covers it.
  lemma NudgeSuppressedIff(p: Policy, qs: seq<Request>, q: Request)
    requires q.tool == "nudge" && PassesGates(p, q.tool, q.errors, q.source, q.scan)
    ensures var t := PerformAll(p, qs);
            Perform(p, t, q).calls == t.calls <==> exists e :: e in t.calls && CoveredBy(p, q, e)
  {
    CoveredIffDuplicate(p, qs, q);
  }

  lemma CoveredIffDuplicate(p: Policy, qs: seq<Request>, q: Request)
    requires q.tool == "nudge"
    ensures var t := PerformAll(p, qs);
            Duplicate(p, t.log, q.tool, q.input, q.at) <==> exists e :: e in t.calls && CoveredBy(p, q, e)
  {
    var t := PerformAll(p, qs);
    LogIsOfCalls(p, qs);
    if e :| e in t.calls && CoveredBy(p, q, e) {
      CoversIs(p, q, e);
      RowsOfIs(p, t.calls, RowOf(p, e));
      assert RowOf(p, e) in t.log;
    }
    if Duplicate(p, t.log, q.tool, q.input, q.at) {
      var i :| 0 <= i < |t.log| && Covers(t.log[i], q.input, q.at, p.dedupSecs);
      var e := CallBehind(p, t.calls, t.log[i]);
      CoversIs(p, q, e);
    }
  }

  lemma CallBehind(p: Policy, calls: seq<Request>, r: AuditRow) returns (e: Request)
    requires r in RowsOf(p, calls)
    ensures e in calls && Audited(p, e) && RowOf(p, e) == r
  {
    RowsOfIs(p, calls, r);
    e :| e in calls && Audited(p, e) && RowOf(p, e) == r;
  }

  // The gates in front of deduplication, from the plain tier and the scan: the input fits the
  // schema; a Red call needs the user, and so does a write with a sensitive input; a write whose
  // scan fails does not pass, unless it was Red anyway.
  predicate MayGo(p: Policy, q: Request) {
    var resolved := ResolveTier(p.tables, q.tool, p.overrides, q.source);
    && q.errors == [] && resolved.Ok?
    && if resolved.value == Red then p.interactive
       else if q.tool !in p.tables.writes then true
       else match q.scan
         case Clean => true
         case Sensitive => p.interactive
         case ScanRaises => false
  }

  // After any run, a call is executed if and only if it passes these and is no nudge that an
  // audited one covers.
  lemma ExecutedIff(p: Policy, qs: seq<Request>, q: Request)
    ensures var t := PerformAll(p, qs);
            if MayGo(p, q) && !(q.tool == "nudge" && exists e :: e in t.calls && CoveredBy(p, q, e))
            then Perform(p, t, q).calls == t.calls + [q]
            else Perform(p, t, q) == t
  {
    MayGoIs(p, q);
    if MayGo(p, q) && q.tool == "nudge" { NudgeSuppressedIff(p, qs, q); }
  }

  lemma MayGoIs(p: Policy, q: Request)
    ensures MayGo(p, q) <==> PassesGates(p, q.tool, q.errors, q.source, q.scan)
  {
  }

  predicate GreenNudges(p: Policy) {
    p.tables == TABLES && "nudge" in p.overrides && p.overrides["nudge"] == Word("green")
  }

  lemma GreenNudgeIsNotAudited(p: Policy, q: Request)
    requires GreenNudges(p) && q.tool == "nudge" && !External(q.source)
    ensures !Audited(p, q)
  {
    assert Lower("green") == "green";
    assert BaseTier(TABLES, "nudge") == Yellow;
  }

  // Where the profile has made nudges green, they repeat as long as none follows external
  // content: those that pass the other gates all go out, however alike they are.
  lemma {:induction false} GreenNudgesRepeat(p: Policy, qs: seq<Request>)
    requires GreenNudges(p)
    requires forall q :: q in qs && q.tool == "nudge" ==> !External(q.source)
    ensures forall q :: q in qs && q.tool == "nudge" && PassesGates(p, q.tool, q.errors, q.source, q.scan)
                        ==> q in PerformAll(p, qs).calls
    ensures forall e :: e in PerformAll(p, qs).calls ==> e in qs
  {
    if qs != [] {
      var init, q := qs[..|qs| - 1], qs[|qs| - 1];
      GreenNudgesRepeat(p, init);
      var t := PerformAll(p, init);
      if q.tool == "nudge" && PassesGates(p, q.tool, q.errors, q.source, q.scan) {
        NudgeSuppressedIff(p, init, q);
        forall e | e in t.calls && CoveredBy(p, q, e) ensures false {
          GreenNudgeIsNotAudited(p, e);
        }
      }
    }
  }

  // Coverage is looked for row by row: a nudge that only repeats what two earlier ones said
  // between them is not suppressed.
  lemma CoverageIsPerRow(r1: AuditRow, r2: AuditRow, input: Input, p: Policy, now: int)
    requires AsSet(r1.refs).Some? && AsSet(r2.refs).Some?
    requires AsSet(Field(input, "refs", Items([]))) == Some(AsSet(r1.refs).value + AsSet(r2.refs).value)
    requires !(AsSet(r2.refs).value <= AsSet(r1.refs).value) && !(AsSet(r1.refs).value <= AsSet(r2.refs).value)
    ensures !Duplicate(p, [r1, r2], "nudge", input, now)
  {
    forall i | 0 <= i < 2 ensures !Covers([r1, r2][i], input, now, p.dedupSecs) {
      if i == 0 {
        var x :| x in AsSet(r2.refs).value && x !in AsSet(r1.refs).value;
        assert x in AsSet(Field(input, "refs", Items([]))).value;
      } else {
        var x :| x in AsSet(r1.refs).value && x !in AsSet(r2.refs).value;
        assert x in AsSet(Field(input, "refs", Items([]))).value;
      }
    }
  }
}
