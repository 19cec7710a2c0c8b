// Why a run of the ReAct loop ends, what it says then, and what its steps hold.
module ReactRuns {
  import opened Json
  import opened React

  // The input's entry under this key, an empty text when there is none.
  predicate Holds(input: Input, key: string, v: Value) {
    if key in input then v == input[key] else v == Text("")
  }

  predicate InTime(c: Config, t: Turn) {
    t.elapsed <= c.maxSecs
  }

  predicate Says(t: Turn, tool: string) {
    t.reply.Parsed? && t.reply.tool == tool
  }

  predicate Salvaged(c: Config, r: Result, otherwise: ExitReason) {
    if Useful(c, r.steps) == [] then r.reason == otherwise && r.said == Silence
    else r.reason == Partial && r.said == Gathered(LastFive(Useful(c, r.steps)))
  }

  // The turn that comes after the steps of a run has ended it.
  predicate EndedBy(c: Config, t: Turn, r: Result) {
    if !InTime(c, t) then r.reason == Timeout && r.said == Silence
    else if Says(t, "finish") then
      r.reason == Finish && r.said.Quote? && Holds(t.reply.input, "answer", r.said.value) && !r.degraded
    else if Says(t, "ask_user") then
      r.reason == AskUser && r.said.Quote? && Holds(t.reply.input, "question", r.said.value) && !r.degraded
    else
      && (t.reply.CallFails? || (t.reply.tool != "error" && t.outcome.Fails?))
      && Salvaged(c, r, Error)
  }

  // The third error in a row ends a run in silence if it is a repeat, and otherwise with what can
  // be salvaged.
  predicate StruckOut(c: Config, r: Result) {
    || (r.reason == Error && r.said == Silence && !r.degraded
        && r.steps != [] && r.steps[|r.steps| - 1].output == REPEATED)
    || Salvaged(c, r, Error)
  }

  // Why a run has ended: three errors in a row, no turns left, or its last turn.
  predicate Ended(c: Config, turn: nat -> Turn, r: Result) {
    var n := |r.steps|;
    if Trailing(r.steps) >= 3 then
      StruckOut(c, r)
    else if n >= c.maxSteps then Salvaged(c, r, MaxSteps)
    else EndedBy(c, turn(n), r)
  }

  lemma {:induction false} JudgedEnds(c: Config, pad: seq<Step>, s: Step, repeat: bool)
    requires Trailing(pad) < 3 && (repeat ==> s.output == REPEATED)
    ensures var move := Judge(c, pad, s, repeat);
            match move
            case More(s') => s' == s && Trailing(pad + [s]) < 3
            case Stop(r, _) =>
              Trailing(r.steps) >= 3 && StruckOut(c, r)
  {
  }

  lemma {:induction false} DecidedEnds(c: Config, turn: nat -> Turn, pad: seq<Step>)
    requires Trailing(pad) < 3 && |pad| < c.maxSteps
    ensures var move := Decide(c, turn(|pad|), pad);
            match move
            case More(s) => Trailing(pad + [s]) < 3
            case Stop(r, _) => Ended(c, turn, r)
  {
    var t := turn(|pad|);
    if InTime(c, t) && t.reply.Parsed? && !Says(t, "finish") && !Says(t, "ask_user") {
      var Parsed(tool, input, error) := t.reply;
      var repeat := Repeats(c, tool, input, pad);
      if repeat || tool == "error" || t.outcome.Returns? {
        var s := if repeat then Step(tool, input, REPEATED, error, false)
        else if tool == "error" then Step(tool, input, UNPARSED, error, false)
        else Step(tool, input, t.outcome.output, error || OutputIsError(t.outcome.output), true);
        assert Decide(c, t, pad) == Judge(c, pad, s, repeat);
        JudgedEnds(c, pad, s, repeat);
      }
    }
  }

  lemma {:induction false} GoEnds(c: Config, turn: nat -> Turn, pad: seq<Step>, calls: seq<(string, Input)>)
    requires Trailing(pad) < 3 && |pad| <= c.maxSteps
    ensures Ended(c, turn, Go(c, turn, |pad|, pad, calls).result)
    decreases c.maxSteps - |pad|
  {
    if |pad| < c.maxSteps {
      DecidedEnds(c, turn, pad);
      match Decide(c, turn(|pad|), pad) {
        case More(s) => GoEnds(c, turn, pad + [s], calls + Call(s));
        case Stop(_, _) =>
      }
    }
  }

  // Every run ends for one of these reasons, and says what that reason calls for.
  lemma RunsEnd(c: Config, turn: nat -> Turn)
    ensures Ended(c, turn, Go(c, turn, 0, [], []).result)
  {
    GoEnds(c, turn, [], []);
  }

  // The turn after the steps is reached, with time left.
  predicate Reached(c: Config, turn: nat -> Turn, steps: seq<Step>) {
    Trailing(steps) < 3 && |steps| < c.maxSteps && InTime(c, turn(|steps|))
  }

  // A run finishes exactly when the model's reply after its steps is to finish, and then it says
  // the answer of that reply; likewise for questions. Only these two quote the model.
  lemma FinishQuotesAnswer(c: Config, turn: nat -> Turn)
    ensures var r := Go(c, turn, 0, [], []).result;
            var t := turn(|r.steps|);
            && (r.reason == Finish <==> Reached(c, turn, r.steps) && Says(t, "finish"))
            && (r.reason == AskUser <==> Reached(c, turn, r.steps) && Says(t, "ask_user"))
            && (r.reason == Timeout <==> Trailing(r.steps) < 3 && |r.steps| < c.maxSteps && !InTime(c, t))
            && (r.reason == Finish ==> r.said.Quote? && Holds(t.reply.input, "answer", r.said.value) && !r.degraded)
            && (r.reason == AskUser ==> r.said.Quote? && Holds(t.reply.input, "question", r.said.value) && !r.degraded)
            && (r.said.Quote? <==> r.reason == Finish || r.reason == AskUser)
            && (r.said.Quote? ==> Go(c, turn, 0, [], []).calls == Ran(r.steps))
  {
    RunsEnd(c, turn);
    GoIsSound(c, turn, 0, [], []);
  }

  // The turn after the steps has called a tool that raised.
  predicate Raising(c: Config, turn: nat -> Turn, steps: seq<Step>) {
    && Reached(c, turn, steps)
    && var t := turn(|steps|);
       t.reply.Parsed? && t.reply.tool !in {"finish", "ask_user", "error"} && t.outcome.Fails?
       && !Repeats(c, t.reply.tool, t.reply.input, steps)
  }

  // The calls are those of the steps that ran, and the one that raised.
  predicate CallsFit(c: Config, turn: nat -> Turn, steps: seq<Step>, calls: seq<(string, Input)>) {
    calls == Ran(steps)
             + if Raising(c, turn, steps) then [(turn(|steps|).reply.tool, turn(|steps|).reply.input)] else []
  }

  lemma RanGrowsBy(pad: seq<Step>, s: Step)
    ensures Ran(pad + [s]) == Ran(pad) + Call(s)
  {
    assert (pad + [s])[..|pad|] == pad;
  }

  lemma {:induction false} StopCalls(c: Config, turn: nat -> Turn, pad: seq<Step>)
    requires Trailing(pad) < 3 && |pad| < c.maxSteps && Decide(c, turn(|pad|), pad).Stop?
    ensures var move := Decide(c, turn(|pad|), pad);
            CallsFit(c, turn, move.result.steps, Ran(pad) + move.tried)
  {
    var t := turn(|pad|);
    if InTime(c, t) && t.reply.Parsed? && !Says(t, "finish") && !Says(t, "ask_user") {
      var Parsed(tool, input, error) := t.reply;
      var repeat := Repeats(c, tool, input, pad);
      if repeat || tool == "error" || t.outcome.Returns? {
        var s := if repeat then Step(tool, input, REPEATED, error, false)
        else if tool == "error" then Step(tool, input, UNPARSED, error, false)
        else Step(tool, input, t.outcome.output, error || OutputIsError(t.outcome.output), true);
        assert Decide(c, t, pad) == Judge(c, pad, s, repeat);
        JudgedCalls(c, turn, pad, s, repeat);
      }
    }
  }

  lemma {:induction false} JudgedCalls(c: Config, turn: nat -> Turn, pad: seq<Step>, s: Step, repeat: bool)
    requires Judge(c, pad, s, repeat).Stop?
    ensures var move := Judge(c, pad, s, repeat);
            CallsFit(c, turn, move.result.steps, Ran(pad) + move.tried)
  {
    RanGrowsBy(pad, s);
    assert Judge(c, pad, s, repeat).result.steps == pad + [s] && Trailing(pad + [s]) >= 3;
  }

  lemma {:induction false} GoCalls(c: Config, turn: nat -> Turn, pad: seq<Step>)
    requires Trailing(pad) < 3 && |pad| <= c.maxSteps
    ensures var r := Go(c, turn, |pad|, pad, Ran(pad)); CallsFit(c, turn, r.result.steps, r.calls)
    decreases c.maxSteps - |pad|
  {
    if |pad| < c.maxSteps {
      DecidedEnds(c, turn, pad);
      match Decide(c, turn(|pad|), pad) {
        case More(s) =>
          RanGrowsBy(pad, s);
          GoCalls(c, turn, pad + [s]);
        case Stop(_, _) => StopCalls(c, turn, pad);
      }
    }
  }

  // Everything that any run hands to dispatch: the calls of its steps that ran, in order, and after
  // them the one, if any, whose exception has ended the run.
  lemma RunsCall(c: Config, turn: nat -> Turn)
    ensures var r := Go(c, turn, 0, [], []); CallsFit(c, turn, r.result.steps, r.calls)
  {
    GoCalls(c, turn, []);
  }

  // The errors in a row at the end: an unparseable reply, or an output with the status "error".
  lemma {:induction false} TrailingIs(pad: seq<Step>)
    ensures Trailing(pad) <= |pad|
    ensures forall i :: |pad| - Trailing(pad) <= i < |pad| ==>
              pad[i].tool == "error" || ("status" in pad[i].output && pad[i].output["status"] == Text("error"))
    ensures Trailing(pad) < |pad| ==>
              var s := pad[|pad| - Trailing(pad) - 1];
              s.tool != "error" && !("status" in s.output && s.output["status"] == Text("error"))
  {
    if pad != [] { TrailingIs(pad[..|pad| - 1]); }
  }

  // ------------------------------------------------------------------------------------
  // What the steps of a run hold

  predicate Repeating(c: Config, steps: seq<Step>, i: nat)
    requires i < |steps|
  {
    Repeats(c, steps[i].tool, steps[i].input, steps[..i])
  }

  predicate ErrorOutput(o: Output) {
    || ("_xibi_error" in o && Truthy(o["_xibi_error"]))
    || ("status" in o && o["status"] == Text("error"))
    || ("error" in o && o["error"].Text?)
  }

  // The i-th step is what the i-th turn made it: a repeat and an unparseable reply are not
  // dispatched, everything else is, and keeps the tool's output.
  predicate Follows(c: Config, turn: nat -> Turn, steps: seq<Step>, i: nat)
    requires i < |steps|
  {
    var s, t := steps[i], turn(i);
    && InTime(c, t) && t.reply.Parsed? && s.tool == t.reply.tool && s.input == t.reply.input
    && s.tool != "finish" && s.tool != "ask_user"
    && if Repeating(c, steps, i) then !s.ran && s.output == REPEATED && s.error == t.reply.error
       else if s.tool == "error" then !s.ran && s.output == UNPARSED && s.error == t.reply.error
       else s.ran && t.outcome == Returns(s.output) && s.error == (t.reply.error || ErrorOutput(s.output))
  }

  predicate AllFollow(c: Config, turn: nat -> Turn, steps: seq<Step>) {
    forall i :: 0 <= i < |steps| ==> Follows(c, turn, steps, i)
  }

  lemma FollowsStep(c: Config, turn: nat -> Turn, pad: seq<Step>, s: Step)
    requires AllFollow(c, turn, pad) && Follows(c, turn, pad + [s], |pad|)
    ensures AllFollow(c, turn, pad + [s])
  {
    forall i | 0 <= i < |pad| ensures Follows(c, turn, pad + [s], i) {
      assert Follows(c, turn, pad, i);
      assert (pad + [s])[..i] == pad[..i];
    }
  }

  lemma {:induction false} DecidedFollows(c: Config, turn: nat -> Turn, pad: seq<Step>)
    requires AllFollow(c, turn, pad)
    ensures var move := Decide(c, turn(|pad|), pad);
            match move
            case More(s) => AllFollow(c, turn, pad + [s])
            case Stop(r, _) => AllFollow(c, turn, r.steps)
  {
    var t := turn(|pad|);
    if InTime(c, t) && t.reply.Parsed? && !Says(t, "finish") && !Says(t, "ask_user") {
      var Parsed(tool, input, error) := t.reply;
      var repeat := Repeats(c, tool, input, pad);
      if repeat || tool == "error" || t.outcome.Returns? {
        var s := if repeat then Step(tool, input, REPEATED, error, false)
        else if tool == "error" then Step(tool, input, UNPARSED, error, false)
        else Step(tool, input, t.outcome.output, error || OutputIsError(t.outcome.output), true);
        assert Decide(c, t, pad) == Judge(c, pad, s, repeat);
        assert (pad + [s])[..|pad|] == pad;
        FollowsStep(c, turn, pad, s);
      }
    }
  }

  lemma {:induction false} GoFollows(c: Config, turn: nat -> Turn, pad: seq<Step>, calls: seq<(string, Input)>)
    requires AllFollow(c, turn, pad)
    ensures AllFollow(c, turn, Go(c, turn, |pad|, pad, calls).result.steps)
    decreases c.maxSteps - |pad|
  {
    if |pad| < c.maxSteps {
      DecidedFollows(c, turn, pad);
      match Decide(c, turn(|pad|), pad) {
        case More(s) => GoFollows(c, turn, pad + [s], calls + Call(s));
        case Stop(_, _) =>
      }
    }
  }

  // Over every run.
  lemma StepsFollowTurns(c: Config, turn: nat -> Turn)
    ensures AllFollow(c, turn, Go(c, turn, 0, [], []).result.steps)
  {
    GoFollows(c, turn, [], []);
  }

  // A repeat is a call of the same tool with over 60% of its words in the earlier one: of five
  // words it takes four, and of ten seven.
  lemma RepeatsTakeMostWords(c: Config, tool: string, input: Input, prior: Step)
    ensures RepeatOf(c, tool, input, prior) ==> tool == prior.tool
    ensures var newer, shared := c.words(input), |c.words(input) * c.words(prior.input)|;
            && (tool == prior.tool && |newer| == 5 ==> (RepeatOf(c, tool, input, prior) <==> shared >= 4))
            && (tool == prior.tool && |newer| == 10 ==> (RepeatOf(c, tool, input, prior) <==> shared >= 7))
            && (newer != {} && shared == 0 ==> !RepeatOf(c, tool, input, prior))
  {
    var newer, older := c.words(input), c.words(prior.input);
    if older == {} { assert newer * older == {}; }
  }

  // ------------------------------------------------------------------------------------
  // What is salvaged

  predicate Shows(text: string) {
    exists i :: 0 <= i < |text| && text[i] !in {' ', '\n', '\t', '\r'}
  }

  // A step without an error, of an ordinary tool, with something to show.
  predicate HasSomethingToSay(c: Config, s: Step) {
    && !s.error && s.output != map[] && !("status" in s.output && s.output["status"] == Text("error"))
    && Shows(c.render(s.output))
    && s.tool !in {"finish", "ask_user", "error"}
  }

  predicate Quotes(c: Config, o: (string, string), s: Step) {
    HasSomethingToSay(c, s) && o == (if s.tool == "" then "tool" else s.tool, c.render(s.output))
  }

  // These observations are what the steps at these places have to say, and no step from the first
  // of them on has anything else to say.
  predicate QuotesFrom(c: Config, steps: seq<Step>, observations: seq<(string, string)>, at: seq<nat>) {
    && |observations| == |at|
    && (forall k :: 0 <= k < |at| ==> at[k] < |steps| && Quotes(c, observations[k], steps[at[k]]))
    && (forall j, k :: 0 <= j < k < |at| ==> at[j] < at[k])
    && (at != [] ==> forall i :: at[0] <= i < |steps| && HasSomethingToSay(c, steps[i]) ==> i in at)
  }

  // The observations worth salvaging are exactly those of such steps, in order.
  lemma {:induction false} UsefulIs(c: Config, pad: seq<Step>) returns (at: seq<nat>)
    ensures QuotesFrom(c, pad, Useful(c, pad), at) && QuotesEverything(c, pad, at)
  {
    at := [];
    if pad != [] {
      var init, s := pad[..|pad| - 1], pad[|pad| - 1];
      assert pad == init + [s];
      at := UsefulIs(c, init);
      UsefulMeans(c, s);
      if IsUseful(c, s) {
        OneMoreQuote(c, init, s, Useful(c, init), at);
        at := at + [|init|];
      } else {
        NoMoreQuotes(c, init, s, Useful(c, init), at);
        assert Useful(c, pad) == Useful(c, init);
      }
    }
  }

  predicate QuotesEverything(c: Config, steps: seq<Step>, at: seq<nat>) {
    forall i :: 0 <= i < |steps| && HasSomethingToSay(c, steps[i]) ==> i in at
  }

  lemma NoMoreQuotes(c: Config, init: seq<Step>, s: Step, observations: seq<(string, string)>, at: seq<nat>)
    requires QuotesFrom(c, init, observations, at) && QuotesEverything(c, init, at) && !HasSomethingToSay(c, s)
    ensures QuotesFrom(c, init + [s], observations, at) && QuotesEverything(c, init + [s], at)
  {
    var steps := init + [s];
    forall k | 0 <= k < |at| ensures at[k] < |steps| && Quotes(c, observations[k], steps[at[k]]) {
      assert steps[at[k]] == init[at[k]];
    }
    forall i | 0 <= i < |steps| && HasSomethingToSay(c, steps[i]) ensures i in at {
      assert i < |init| && steps[i] == init[i];
    }
  }

  lemma OneMoreQuote(c: Config, init: seq<Step>, s: Step, observations: seq<(string, string)>, at: seq<nat>)
    requires QuotesFrom(c, init, observations, at) && QuotesEverything(c, init, at) && HasSomethingToSay(c, s)
    ensures QuotesFrom(c, init + [s], observations + [(Label(s), c.render(s.output))], at + [|init|])
    ensures QuotesEverything(c, init + [s], at + [|init|])
  {
    var steps, observations', at' := init + [s], observations + [(Label(s), c.render(s.output))], at + [|init|];
    forall k | 0 <= k < |at'| ensures at'[k] < |steps| && Quotes(c, observations'[k], steps[at'[k]]) {
      if k < |at| {
        assert at'[k] == at[k] && observations'[k] == observations[k] && steps[at[k]] == init[at[k]];
      }
    }
    forall i | 0 <= i < |steps| && HasSomethingToSay(c, steps[i]) ensures i in at' {
      if i < |init| { assert steps[i] == init[i] && i in at; }
    }
  }

  lemma UsefulMeans(c: Config, s: Step)
    ensures IsUseful(c, s) <==> HasSomethingToSay(c, s)
  {
  }

  lemma LastFiveIs<T>(s: seq<T>)
    ensures |LastFive(s)| == if |s| < 5 then |s| else 5
    ensures LastFive(s) == s[|s| - |LastFive(s)|..]
  {
  }

  // A suffix of all that there is to quote.
  lemma SuffixQuotes(c: Config, steps: seq<Step>, observations: seq<(string, string)>, all: seq<nat>, n: nat)
    returns (at: seq<nat>)
    requires QuotesFrom(c, steps, observations, all) && n <= |all|
    requires QuotesEverything(c, steps, all)
    ensures QuotesFrom(c, steps, observations[|observations| - n..], at)
  {
    var from := |all| - n;
    at := all[from..];
    if n > 0 {
      forall i | all[from] <= i < |steps| && HasSomethingToSay(c, steps[i]) ensures i in at {
        var k :| 0 <= k < |all| && all[k] == i;
        assert k >= from && at[k - from] == i;
      }
    }
  }

  lemma LastFiveQuotes(c: Config, pad: seq<Step>) returns (at: seq<nat>)
    ensures QuotesFrom(c, pad, LastFive(Useful(c, pad)), at)
  {
    var all := UsefulIs(c, pad);
    at := LastOfAll(c, pad, Useful(c, pad), all);
  }

  lemma LastOfAll(c: Config, pad: seq<Step>, observations: seq<(string, string)>, all: seq<nat>) returns (at: seq<nat>)
    requires QuotesFrom(c, pad, observations, all)
    requires QuotesEverything(c, pad, all)
    ensures QuotesFrom(c, pad, LastFive(observations), at)
  {
    LastFiveIs(observations);
    at := SuffixQuotes(c, pad, observations, all, |LastFive(observations)|);
  }

  // An answer put together at the end quotes one to five steps that were dispatched and came back
  // without an error, and leaves out none of them that is newer than one it quotes.
  lemma GatheredQuotesSteps(c: Config, turn: nat -> Turn) returns (at: seq<nat>)
    ensures var r := Go(c, turn, 0, [], []).result;
            r.said.Gathered? ==>
              && 1 <= |r.said.observations| <= 5 && QuotesFrom(c, r.steps, r.said.observations, at)
              && forall k :: 0 <= k < |at| ==> r.steps[at[k]].ran
  {
    var r := Go(c, turn, 0, [], []).result;
    at := LastFiveQuotes(c, r.steps);
    RunsAreHonest(c, turn, 0, [], []);
    if r.said.Gathered? {
      LastFiveIs(Useful(c, r.steps));
      StepsFollowTurns(c, turn);
      forall k | 0 <= k < |at| ensures r.steps[at[k]].ran {
        QuotedRan(c, turn, r.steps, at[k]);
      }
    }
  }

  lemma QuotedRan(c: Config, turn: nat -> Turn, steps: seq<Step>, i: nat)
    requires i < |steps| && Follows(c, turn, steps, i) && HasSomethingToSay(c, steps[i])
    ensures steps[i].ran
  {
  }
}
