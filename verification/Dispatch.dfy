// One tool call: resolve handles, pass the gates, execute, audit, and wrap a large output.
module Dispatch {
  import opened Wrappers
  import opened Json
  import opened Tools
  import opened CommandLayer
  import H = Handles

  // ------------------------------------------------------------------------------------
  // Handle references in inputs

  // ^h_[a-f0-9]{4,6}$, where $ also matches in front of a final newline.
  predicate IsHandleShaped(s: string) {
    var body := if s != "" && s[|s| - 1] == '\n' then s[..|s| - 1] else s;
    6 <= |body| <= 8 && body[..2] == "h_" && H.IsHex(body[2..])
  }

  predicate IsReference(v: Value) {
    v.Text? && IsHandleShaped(v.s)
  }

  // What resolution makes of an input when get answers `get`.
  function Resolved(input: Input, get: string -> H.Lookup): Result<Input> {
    if forall k :: k in input && IsReference(input[k]) ==> get(input[k].s).Found? then
      Ok(map k | k in input :: if IsReference(input[k]) then get(input[k].s).payload else input[k])
    else Err
  }

  function Getter(created: seq<H.Entry>, maxHandles: nat, maxBytes: nat): string -> H.Lookup {
    id => H.Get(created, id, maxHandles, maxBytes)
  }

  method ResolveHandlesInInput(input: Input, store: H.HandleStore) returns (r: Result<Input>)
    requires store.Linked() && store.Undropped()
    ensures r == Resolved(input, Getter(store.created, store.maxHandles, store.maxTotalBytes))
  {
    ghost var get := Getter(store.created, store.maxHandles, store.maxTotalBytes);
    var done: Input := map[];
    var left := input.Keys;
    while left != {}
      invariant left <= input.Keys && done.Keys == input.Keys - left
      invariant forall k :: k in done ==>
                              && (IsReference(input[k]) ==> get(input[k].s).Found?)
                              && done[k] == if IsReference(input[k]) then get(input[k].s).payload else input[k]
    {
      var k :| k in left;
      if IsReference(input[k]) {
        var found := store.Lookup(input[k].s);
        if !found.Found? { return Err; }
        done := done[k := found.payload];
      } else {
        done := done[k := input[k]];
      }
      left := left - {k};
    }
    r := Ok(done);
    assert done.Keys == input.Keys;
    assert Resolved(input, get).value == done;
  }

  lemma GeneratedIdsAreReferences(token: string)
    requires H.IsHex(token) && (|token| == 4 || |token| == 6)
    ensures IsReference(Text("h_" + token))
  {
    assert ("h_" + token)[..2] == "h_" && ("h_" + token)[2..] == token;
  }

  lemma NothingToResolve(input: Input, get: string -> H.Lookup)
    requires forall k :: k in input ==> !IsReference(input[k])
    ensures Resolved(input, get) == Ok(input)
  {
    assert Resolved(input, get).value == input;
  }

  // A payload wrapped as the i-th handle of the run reaches a later tool unchanged while it and
  // everything wrapped after it fit the store; afterwards the call raises.
  lemma WrappedPayloadRoundTrips(created: seq<H.Entry>, i: nat, input: Input, k: string, maxHandles: nat, maxBytes: nat)
    requires i < |created| && forall m :: i < m < |created| ==> created[m].id != created[i].id
    requires IsHandleShaped(created[i].id) && k in input && input[k] == Text(created[i].id)
    ensures var r := Resolved(input, Getter(created, maxHandles, maxBytes));
            if H.Fits(created[i..], maxHandles, maxBytes)
            then r.Ok? ==> k in r.value && r.value[k] == created[i].payload
            else r == Err
    ensures (H.Fits(created[i..], maxHandles, maxBytes)
             && forall j :: j in input && j != k ==> !IsReference(input[j]))
            ==> Resolved(input, Getter(created, maxHandles, maxBytes)) == Ok(input[k := created[i].payload])
  {
    H.LastIssueAnswers(created, i, maxHandles, maxBytes);
    var get := Getter(created, maxHandles, maxBytes);
    if H.Fits(created[i..], maxHandles, maxBytes) && forall j :: j in input && j != k ==> !IsReference(input[j]) {
      assert Resolved(input, get).value == input[k := created[i].payload];
    } else if !H.Fits(created[i..], maxHandles, maxBytes) {
      assert IsReference(input[k]) && !get(input[k].s).Found?;
    }
  }

  // ------------------------------------------------------------------------------------
  // Large outputs

  predicate LongList(v: Value) { v.Items? && |v.items| >= 20 }

  predicate IsLargeCollection(v: Value) {
    || LongList(v)
    || (v.Fields? && exists key :: key in ["data", "items", "results", "jobs"] &&
                                   key in v.fields && LongList(v.fields[key]))
  }

  // Small, failed, refused and already wrapped outputs stay as they are.
  predicate ShouldWrap(output: Value, jsonLength: nat) {
    && output.Fields?
    && !("status" in output.fields && output.fields["status"] in [Text("error"), Text("suppressed"), Text("blocked")])
    && "handle" !in output.fields
    && (jsonLength >= 2048 || IsLargeCollection(output))
  }

  // The reference that the agent sees; preview holds schema, summary and item_count.
  function Reference(id: string, preview: map<string, Value>): Value {
    Fields(preview["status" := Text("ok")]["handle" := Text(id)])
  }

  lemma ReferencesAreNotWrappedAgain(id: string, preview: map<string, Value>, jsonLength: nat)
    ensures !ShouldWrap(Reference(id, preview), jsonLength)
  {
  }

  // Failed, suppressed, blocked and wrapped outputs, and all that are no dictionary.
  predicate PassesThrough(output: Value) {
    match output
    case Fields(m) =>
      "handle" in m || ("status" in m && (m["status"] == Text("error") || m["status"] == Text("suppressed")
                                          || m["status"] == Text("blocked")))
    case _ => true
  }

  // Of the others a small one is not wrapped unless it is or holds a list of twenty, and a large
  // one always is.
  lemma WrappingDepends(output: Value, jsonLength: nat)
    ensures PassesThrough(output) ==> !ShouldWrap(output, jsonLength)
    ensures !PassesThrough(output) && jsonLength >= 2048 ==> ShouldWrap(output, jsonLength)
    ensures jsonLength < 2048 && ShouldWrap(output, jsonLength) ==>
              output.Fields? && exists key :: key in output.fields && output.fields[key].Items?
                                              && |output.fields[key].items| >= 20
  {
    if jsonLength < 2048 && ShouldWrap(output, jsonLength) {
      var key :| key in ["data", "items", "results", "jobs"] && key in output.fields && LongList(output.fields[key]);
    }
  }

  // ------------------------------------------------------------------------------------
  // Refusals

  // The value that dispatch returns for a refusal; None when it falls through to the executor.
  function RefusalShape(r: CommandResult): Option<Value> {
    if r.errors != [] then
      Some(Fields(map["status" := Text("error"), "message" := Text(r.retryHint), "retry" := Boolean(true)]))
    else if r.dedupSuppressed then
      Some(Fields(map["status" := Text("suppressed"), "message" := Text("duplicate action suppressed")]))
    else if r.blockReason != NoReason then
      Some(Fields(map["status" := Text("blocked"), "message" := Text(Sentence(r.blockReason))]))
    else None
  }

  // A refusal stops the call exactly when it carries a reason.
  lemma RefusalStopsIffReason(r: CommandResult)
    ensures RefusalShape(r).Some? <==> HasReason(r)
  {
  }

  // What the agent is told about a call that does not pass, gate by gate.
  function Refusal(p: Policy, q: Request): Value {
    if q.errors != [] && ResolveTier(p.tables, q.tool, p.overrides, q.source).Ok? then
      Fields(map["status" := Text("error"), "message" := Text(RetryHint(q.tool, q.errors)), "retry" := Boolean(true)])
    else if PassesGates(p, q.tool, q.errors, q.source, q.scan) then
      Fields(map["status" := Text("suppressed"), "message" := Text("duplicate action suppressed")])
    else
      Fields(map["status" := Text("blocked"),
                 "message" := Text(Sentence(BlockReason(p, q.tool, q.source, q.scan)))])
  }

  // What the gates answer would never be wrapped, nor taken for a success.
  lemma RefusalPassesThrough(p: Policy, q: Request)
    ensures PassesThrough(Refusal(p, q))
  {
  }

  datatype Answer = Raised | Answer(value: Value)

  // ------------------------------------------------------------------------------------
  // Runs of whole calls

  // A call as the agent makes it; call.answer is what the executor does with it, and the other
  // fields belong to the output, should it be wrapped.
  datatype Turn = Turn(call: Request, id: string, jsonLength: nat, preview: map<string, Value>, now: int)

  // The handles created so far, the audit log and the calls that reached the executor.
  datatype Session = Session(created: seq<H.Entry>, trace: Trace)

  function Wrapped(t: Turn): seq<H.Entry> {
    if t.call.answer.Some? && ShouldWrap(t.call.answer.value, t.jsonLength)
    then [H.Entry(t.id, t.call.tool, t.jsonLength, t.now, t.call.answer.value)]
    else []
  }

  function AnswerOf(t: Turn): Answer {
    match t.call.answer
    case None => Raised
    case Some(output) => Answer(if ShouldWrap(output, t.jsonLength) then Reference(t.id, t.preview) else output)
  }

  // With the input that the handles resolve to.
  function Gated(p: Policy, s: Session, t: Turn, input: Input): Session {
    var q := t.call.(input := input);
    if Permits(p, s, q) then Session(s.created + Wrapped(t), Perform(p, s.trace, q)) else s
  }

  predicate Permits(p: Policy, s: Session, q: Request) {
    Permitted(p, s.trace.log, q.tool, q.input, q.errors, q.source, q.scan, q.at)
  }

  function After(p: Policy, maxHandles: nat, maxBytes: nat, s: Session, t: Turn): Session {
    match Resolved(t.call.input, Getter(s.created, maxHandles, maxBytes))
    case Err => s
    case Ok(input) => Gated(p, s, t, input)
  }

  function AfterAll(p: Policy, maxHandles: nat, maxBytes: nat, s: Session, turns: seq<Turn>): Session {
    if turns == [] then s
    else After(p, maxHandles, maxBytes, AfterAll(p, maxHandles, maxBytes, s, turns[..|turns| - 1]), turns[|turns| - 1])
  }

  // Every id is drawn against the handles that are live then.
  predicate IdsFresh(p: Policy, maxHandles: nat, maxBytes: nat, s: Session, turns: seq<Turn>) {
    turns == []
    || (var init := turns[..|turns| - 1];
        && IdsFresh(p, maxHandles, maxBytes, s, init)
        && turns[|turns| - 1].id
           !in H.Ids(H.Live(AfterAll(p, maxHandles, maxBytes, s, init).created, maxHandles, maxBytes)))
  }

  lemma TurnCreates(p: Policy, maxHandles: nat, maxBytes: nat, s: Session, t: Turn)
    ensures var created := After(p, maxHandles, maxBytes, s, t).created;
            created == s.created || (|Wrapped(t)| == 1 && Wrapped(t)[0].id == t.id && created == s.created + Wrapped(t))
  {
  }

  // Over any run handles are only added, and none under an id that is live.
  lemma {:induction false} RunsStayFresh(p: Policy, maxHandles: nat, maxBytes: nat, s: Session, turns: seq<Turn>)
    requires H.FreshWhenIssued(s.created, maxHandles, maxBytes) && IdsFresh(p, maxHandles, maxBytes, s, turns)
    ensures var s' := AfterAll(p, maxHandles, maxBytes, s, turns);
            s.created <= s'.created && H.FreshWhenIssued(s'.created, maxHandles, maxBytes)
  {
    if turns != [] {
      var init, t := turns[..|turns| - 1], turns[|turns| - 1];
      RunsStayFresh(p, maxHandles, maxBytes, s, init);
      var before := AfterAll(p, maxHandles, maxBytes, s, init);
      TurnCreates(p, maxHandles, maxBytes, before, t);
      if Wrapped(t) != [] {
        assert |Wrapped(t)| == 1 ==> Wrapped(t) == [Wrapped(t)[0]];
        H.FreshWhenNotLive(before.created, Wrapped(t)[0], maxHandles, maxBytes);
      }
    }
  }

  // A payload wrapped at any point reaches a call made any number of calls later as it was, as
  // long as it and all that was wrapped since fit the store: no later handle can have taken its
  // id. After that the call raises, unless the id has been issued again.
  lemma PayloadSurvivesRun(p: Policy, maxHandles: nat, maxBytes: nat, s: Session, i: nat, turns: seq<Turn>,
                           t: Turn, k: string)
    requires H.FreshWhenIssued(s.created, maxHandles, maxBytes) && IdsFresh(p, maxHandles, maxBytes, s, turns)
    requires i < |s.created| && IsHandleShaped(s.created[i].id)
    requires k in t.call.input && t.call.input[k] == Text(s.created[i].id)
    ensures var s' := AfterAll(p, maxHandles, maxBytes, s, turns);
            var s'' := After(p, maxHandles, maxBytes, s', t);
            && s.created <= s'.created
            && (if H.Fits(s'.created[i..], maxHandles, maxBytes)
                then s'' == s' || ReachesExecutor(s', s'', k, s.created[i].payload)
                else s'' == s' || Reissued(s'.created, i))
  {
    RunsStayFresh(p, maxHandles, maxBytes, s, turns);
    var created := AfterAll(p, maxHandles, maxBytes, s, turns).created;
    assert created[i] == s.created[i];
    if H.Fits(created[i..], maxHandles, maxBytes) {
      forall m | i < m < |created| && created[m].id == created[i].id ensures false {
        H.ReissueMeansGone(created, i, m, maxHandles, maxBytes);
      }
    }
    if !Reissued(created, i) {
      WrappedPayloadRoundTrips(created, i, t.call.input, k, maxHandles, maxBytes);
    }
  }

  // The reference that the agent is given in place of a large output stands for that output in any
  // later call.
  lemma ReferenceStandsForOutput(p: Policy, maxHandles: nat, maxBytes: nat, s: Session, t: Turn, turns: seq<Turn>,
                                 t': Turn, k: string)
    requires var s1 := After(p, maxHandles, maxBytes, s, t);
             && |s1.created| > |s.created| && IsHandleShaped(t.id)
             && H.FreshWhenIssued(s1.created, maxHandles, maxBytes) && IdsFresh(p, maxHandles, maxBytes, s1, turns)
    ensures AnswerOf(t).Answer? && AnswerOf(t).value.Fields? && "handle" in AnswerOf(t).value.fields
            && t.call.answer.Some?
    ensures k in t'.call.input && t'.call.input[k] == AnswerOf(t).value.fields["handle"] ==>
              var s' := AfterAll(p, maxHandles, maxBytes, After(p, maxHandles, maxBytes, s, t), turns);
              var s'' := After(p, maxHandles, maxBytes, s', t');
              && |s.created| < |s'.created|
              && (if H.Fits(s'.created[|s.created|..], maxHandles, maxBytes)
                  then s'' == s' || ReachesExecutor(s', s'', k, t.call.answer.value)
                  else s'' == s' || Reissued(s'.created, |s.created|))
  {
    TurnCreates(p, maxHandles, maxBytes, s, t);
    var s1 := After(p, maxHandles, maxBytes, s, t);
    assert s1.created[|s.created|] == Wrapped(t)[0];
    if k in t'.call.input && t'.call.input[k] == Text(t.id) {
      PayloadSurvivesRun(p, maxHandles, maxBytes, s1, |s.created|, turns, t', k);
    }
  }

  predicate Reissued(created: seq<H.Entry>, i: nat)
    requires i < |created|
  {
    exists m :: i < m < |created| && created[m].id == created[i].id
  }

  // One more call has been executed, with this value for k.
  predicate ReachesExecutor(s: Session, s': Session, k: string, v: Value) {
    var n := |s.trace.calls|;
    |s'.trace.calls| == n + 1 && k in s'.trace.calls[n].input && s'.trace.calls[n].input[k] == v
  }

  // ------------------------------------------------------------------------------------
  // The dispatcher of one run

  class Dispatcher {
    const layer: Layer
    const store: H.HandleStore
    var calls: seq<Request>   // what reached the executor, with the input it was given

    constructor (layer: Layer, store: H.HandleStore)
      ensures this.layer == layer && this.store == store && calls == []
    {
      this.layer, this.store, calls := layer, store, [];
    }

    ghost function State(): Session
      reads this, layer, store
    {
      Session(store.created, Trace(layer.log, calls))
    }

    // _maybe_wrap_in_handle, with the id drawn for it should it be needed.
    method MaybeWrapInHandle(tool: string, output: Value, id: string, jsonLength: nat,
                             preview: map<string, Value>, now: int) returns (v: Value)
      requires store.Linked() && store.InTimeOrder() && store.Undropped()
      requires id !in store.handles
      requires forall e :: e in store.contents ==> e.at <= now
      modifies store
      ensures store.Linked() && store.InTimeOrder() && store.Undropped()
      ensures if ShouldWrap(output, jsonLength)
              then v == Reference(id, preview)
                   && store.created == old(store.created) + [H.Entry(id, tool, jsonLength, now, output)]
              else v == output && store.created == old(store.created)
    {
      if !ShouldWrap(output, jsonLength) { return output; }
      var handle := store.Create(id, tool, output, jsonLength, now);
      return Reference(id, preview);
    }

    method Dispatch(t: Turn) returns (a: Answer)
      requires store.Linked() && store.InTimeOrder() && store.Undropped()
      requires t.id !in store.handles
      requires forall e :: e in store.contents ==> e.at <= t.now
      modifies this, layer, store
      ensures store.Linked() && store.InTimeOrder() && store.Undropped()
      ensures State() == After(layer.policy, store.maxHandles, store.maxTotalBytes, old(State()), t)
      ensures match Resolved(t.call.input, Getter(old(store.created), store.maxHandles, store.maxTotalBytes))
              case Err => a == Raised
              case Ok(input) =>
                var q := t.call.(input := input);
                && a == (if Permits(layer.policy, old(State()), q) then AnswerOf(t)
                         else Answer(Refusal(layer.policy, q)))
                && (Permits(layer.policy, old(State()), q) && q.answer.Some? && PassesThrough(q.answer.value) ==>
                      a == Answer(q.answer.value) && store.created == old(store.created))
                && (Permits(layer.policy, old(State()), q) && q.answer.None? ==> a == Raised)
    {
      if t.call.answer.Some? { WrappingDepends(t.call.answer.value, t.jsonLength); }
      var resolved := ResolveHandlesInInput(t.call.input, store);
      if resolved.Err? { return Raised; }
      a := DispatchResolved(t, resolved.value);
    }

    // The rest, with the resolved input.
    method DispatchResolved(t: Turn, input: Input) returns (a: Answer)
      requires store.Linked() && store.InTimeOrder() && store.Undropped()
      requires t.id !in store.handles
      requires forall e :: e in store.contents ==> e.at <= t.now
      modifies this, layer, store
      ensures store.Linked() && store.InTimeOrder() && store.Undropped()
      ensures State() == Gated(layer.policy, old(State()), t, input)
      ensures var q := t.call.(input := input);
              a == if Permits(layer.policy, old(State()), q) then AnswerOf(t) else Answer(Refusal(layer.policy, q))
    {
      var q := t.call.(input := input);
      var refusal, result := Gate(q);
      if refusal.Some? { return Answer(refusal.value); }
      var output := Execute(q, result);
      a := Finish(t, output);
    }

    method Finish(t: Turn, output: Option<Value>) returns (a: Answer)
      requires store.Linked() && store.InTimeOrder() && store.Undropped()
      requires t.id !in store.handles && output == t.call.answer
      requires forall e :: e in store.contents ==> e.at <= t.now
      modifies store
      ensures store.Linked() && store.InTimeOrder() && store.Undropped()
      ensures store.created == old(store.created) + Wrapped(t) && a == AnswerOf(t)
    {
      if output.None? { return Raised; }
      var v := MaybeWrapInHandle(t.call.tool, output.value, t.id, t.jsonLength, t.preview, t.now);
      return Answer(v);
    }

    method Gate(q: Request) returns (refusal: Option<Value>, r: CommandResult)
      ensures refusal == if Permits(layer.policy, State(), q) then None else Some(Refusal(layer.policy, q))
      ensures refusal.None? ==> Describes(layer.policy, q, r)
    {
      r := layer.Check(q.tool, q.input, q.errors, q.source, q.scan, q.at);
      RefusalStopsIffReason(r);
      refusal := if r.allowed then None else RefusalShape(r);
    }

    method Execute(q: Request, r: CommandResult) returns (output: Option<Value>)
      requires Describes(layer.policy, q, r)
      modifies this, layer
      ensures output == q.answer && calls == old(calls) + [q]
      ensures layer.log == old(layer.log) + if Audited(layer.policy, q) then [RowOf(layer.policy, q)] else []
    {
      calls := calls + [q];
      if q.answer.None? { return None; }
      if r.auditRequired {
        var base := ResolveTier(layer.policy.tables, q.tool, layer.policy.overrides, None);
        if base.Ok? {
          layer.Audit(q.tool, q.input, q.answer.value, q.source, r.sourceBumped, base.value, r.tier, q.at);
        }
      }
      return q.answer;
    }
  }

  // What the gates say of a call that goes ahead.
  predicate Describes(p: Policy, q: Request, r: CommandResult) {
    && EffectiveTier(p, q.tool, q.source, q.scan) == Ok(r.tier)
    && (r.auditRequired <==> r.tier == Yellow)
    && (r.sourceBumped <==> ResolveTier(p.tables, q.tool, p.overrides, None) != Ok(r.tier))
  }
}
