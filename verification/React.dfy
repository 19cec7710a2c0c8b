// The ReAct loop: step and time budgets, repeat detection, three strikes, and salvage. The
// model, the tools and the clock are oracles, given turn by turn.
module React {
  import opened Wrappers
  import opened Json

  type Input = map<string, Value>
  type Output = map<string, Value>

  // ran: the step was handed to dispatch.
  datatype Step = Step(tool: string, input: Input, output: Output, error: bool, ran: bool)

  // What the model says: the call raises, or a step comes out of the parser. An unparseable
  // reply becomes the tool "error" with its error set.
  datatype Reply = CallFails | Parsed(tool: string, input: Input, error: bool)

  // What dispatch does, should it be called: raise, or return.
  datatype Outcome = Fails | Returns(output: Output)

  datatype Turn = Turn(elapsed: int, reply: Reply, outcome: Outcome)

  datatype ExitReason = Finish | AskUser | Timeout | Error | Partial | MaxSteps

  datatype Said = Quote(value: Value) | Gathered(observations: seq<(string, string)>) | Silence

  datatype Result = Result(said: Said, steps: seq<Step>, reason: ExitReason, degraded: bool)

  // words: the word tokens of an input's JSON text; render: an observation as user text.
  datatype Config = Config(maxSteps: nat, maxSecs: int, words: Input -> set<string>, render: Output -> string)

  // ------------------------------------------------------------------------------------
  // Repeats

  // Over 60% of the new step's words occur in the old one; inputs without words match each other.
  predicate RepeatOf(c: Config, tool: string, input: Input, prior: Step) {
    && tool == prior.tool
    && var newer, older := c.words(input), c.words(prior.input);
       if newer == {} then older == {} else older != {} && 5 * |newer * older| > 3 * |newer|
  }

  predicate Repeats(c: Config, tool: string, input: Input, pad: seq<Step>) {
    exists i :: 0 <= i < |pad| && RepeatOf(c, tool, input, pad[i])
  }

  method IsRepeat(c: Config, tool: string, input: Input, pad: seq<Step>) returns (repeat: bool)
    ensures repeat == Repeats(c, tool, input, pad)
  {
    var newWords := c.words(input);
    if newWords == {} {
      for i := 0 to |pad|
        invariant forall j :: 0 <= j < i ==> !RepeatOf(c, tool, input, pad[j])
      {
        if pad[i].tool == tool && c.words(pad[i].input) == {} { return true; }
      }
      return false;
    }
    for i := 0 to |pad|
      invariant forall j :: 0 <= j < i ==> !RepeatOf(c, tool, input, pad[j])
    {
      if pad[i].tool == tool {
        var oldWords := c.words(pad[i].input);
        if oldWords == {} { continue; }
        if 5 * |newWords * oldWords| > 3 * |newWords| { return true; }
      }
    }
    return false;
  }

  lemma IdenticalStepRepeats(c: Config, s: Step)
    ensures RepeatOf(c, s.tool, s.input, s)
  {
    var w := c.words(s.input);
    assert w * w == w;
    if w != {} {
      var x :| x in w;
      assert |w| >= |{x}| by { assert {x} <= w; CardinalityOfSubset({x}, w); }
    }
  }

  lemma CardinalityOfSubset<T>(a: set<T>, b: set<T>)
    requires a <= b
    ensures |a| <= |b|
  {
    assert b == a + (b - a);
  }

  // ------------------------------------------------------------------------------------
  // Errors and salvage

  predicate HasErrorStatus(o: Output) { "status" in o && o["status"] == Text("error") }

  predicate IsErrorStep(s: Step) { s.tool == "error" || HasErrorStatus(s.output) }

  // The length of the run of error steps at the end.
  function Trailing(pad: seq<Step>): nat {
    if pad == [] || !IsErrorStep(pad[|pad| - 1]) then 0 else Trailing(pad[..|pad| - 1]) + 1
  }

  predicate Truthy(v: Value) {
    match v
    case Nothing => false
    case Boolean(b) => b
    case Number(n) => n != 0
    case Text(s) => s != ""
    case Items(vs) => vs != []
    case Fields(m) => m != map[]
  }

  predicate OutputIsError(o: Output) {
    || ("_xibi_error" in o && Truthy(o["_xibi_error"]))
    || HasErrorStatus(o)
    || ("error" in o && o["error"].Text?)
  }

  predicate Blank(s: string) {
    forall i :: 0 <= i < |s| ==> s[i] == ' ' || s[i] == '\n' || s[i] == '\t' || s[i] == '\r'
  }

  predicate IsUseful(c: Config, s: Step) {
    && !s.error && s.output != map[] && !HasErrorStatus(s.output) && !Blank(c.render(s.output))
    && s.tool != "finish" && s.tool != "ask_user" && s.tool != "error"
  }

  function Label(s: Step): string { if s.tool == "" then "tool" else s.tool }

  function Useful(c: Config, pad: seq<Step>): seq<(string, string)> {
    if pad == [] then []
    else
      var s := pad[|pad| - 1];
      Useful(c, pad[..|pad| - 1]) + if IsUseful(c, s) then [(Label(s), c.render(s.output))] else []
  }

  function LastFive<T>(s: seq<T>): seq<T> { if |s| > 5 then s[|s| - 5..] else s }

  // None when nothing can be salvaged, otherwise the last five useful observations.
  method BuildPartialAnswer(c: Config, pad: seq<Step>) returns (answer: Option<seq<(string, string)>>)
    ensures answer == if Useful(c, pad) == [] then None else Some(LastFive(Useful(c, pad)))
  {
    var useful: seq<(string, string)> := [];
    for i := 0 to |pad|
      invariant useful == Useful(c, pad[..i])
    {
      assert pad[..i + 1][..i] == pad[..i];
      var s := pad[i];
      if s.error || s.output == map[] || HasErrorStatus(s.output) { continue; }
      var formatted := c.render(s.output);
      if Blank(formatted) { continue; }
      var tool := Label(s);
      if tool == "finish" || tool == "ask_user" || tool == "error" { continue; }
      useful := useful + [(tool, formatted)];
    }
    assert pad[..|pad|] == pad;
    answer := if useful == [] then None else Some(LastFive(useful));
  }

  // ------------------------------------------------------------------------------------
  // The run, told from the scratchpad alone: no error counter

  // calls: everything handed to dispatch, in order.
  datatype Run = Run(result: Result, calls: seq<(string, Input)>)

  const REPEATED: Output := map["status" := Text("error"),
                                "message" := Text("Repeat detected. Try a different approach or tool.")]
  const UNPARSED: Output := map["status" := Text("error"), "message" := Text("Parse failure")]

  // `otherwise` is the exit reason when there is nothing to salvage.
  function Salvage(c: Config, pad: seq<Step>, otherwise: ExitReason): Result {
    var useful := Useful(c, pad);
    if useful == [] then Result(Silence, pad, otherwise, otherwise == Error)
    else Result(Gathered(LastFive(useful)), pad, Partial, true)
  }

  function Field(input: Input, key: string): Value {
    if key in input then input[key] else Text("")
  }

  // What one turn does: end the run, or leave one more step. tried: the call handed to
  // dispatch by a turn that ends the run.
  datatype Move = Stop(result: Result, tried: seq<(string, Input)>) | More(step: Step)

  function Call(s: Step): seq<(string, Input)> {
    if s.ran then [(s.tool, s.input)] else []
  }

  // The third error in a row ends the run; a repeat does so without salvage.
  function Judge(c: Config, pad: seq<Step>, s: Step, repeat: bool): Move {
    if Trailing(pad + [s]) < 3 then More(s)
    else Stop(if repeat then Result(Silence, pad + [s], Error, false) else Salvage(c, pad + [s], Error), Call(s))
  }

  function Decide(c: Config, t: Turn, pad: seq<Step>): Move {
    if t.elapsed > c.maxSecs then Stop(Result(Silence, pad, Timeout, false), [])
    else match t.reply
      case CallFails => Stop(Salvage(c, pad, Error), [])
      case Parsed(tool, input, error) =>
        if tool == "finish" then Stop(Result(Quote(Field(input, "answer")), pad, Finish, false), [])
        else if tool == "ask_user" then Stop(Result(Quote(Field(input, "question")), pad, AskUser, false), [])
        else if Repeats(c, tool, input, pad) then Judge(c, pad, Step(tool, input, REPEATED, error, false), true)
        else if tool == "error" then Judge(c, pad, Step(tool, input, UNPARSED, error, false), false)
        else match t.outcome
          case Fails => Stop(Salvage(c, pad, Error), [(tool, input)])
          case Returns(o) => Judge(c, pad, Step(tool, input, o, error || OutputIsError(o), true), false)
  }

  // The turns from number n on, with `pad` and `calls` behind them.
  function Go(c: Config, turn: nat -> Turn, n: nat, pad: seq<Step>, calls: seq<(string, Input)>): Run
    decreases c.maxSteps - n
  {
    if n >= c.maxSteps then Run(Salvage(c, pad, MaxSteps), calls)
    else match Decide(c, turn(n), pad)
      case Stop(result, tried) => Run(result, calls + tried)
      case More(s) => Go(c, turn, n + 1, pad + [s], calls + Call(s))
  }

  // The loop as it is written, with its counter of consecutive errors.
  method RunAsync(c: Config, turn: nat -> Turn) returns (result: Result, calls: seq<(string, Input)>)
    ensures Run(result, calls) == Go(c, turn, 0, [], [])
  {
    var pad: seq<Step> := [];
    var consecutiveErrors := 0;
    calls := [];
    for n := 0 to c.maxSteps
      invariant Go(c, turn, 0, [], []) == Go(c, turn, n, pad, calls)
      invariant |pad| == n
      invariant consecutiveErrors == Trailing(pad) < 3
      invariant forall s :: s in pad ==> s.tool != "finish" && s.tool != "ask_user"
    {
      var move, errors := TakeTurn(c, turn(n), pad, consecutiveErrors);
      match move {
        case Stop(r, tried) =>
          return r, calls + tried;
        case More(s) =>
          pad := pad + [s];
          consecutiveErrors := errors;
          calls := calls + Call(s);
      }
    }
    var partial := BuildPartialAnswer(c, pad);
    return SalvagedResult(partial, pad, MaxSteps), calls;
  }

  // The body of the loop.
  method TakeTurn(c: Config, t: Turn, pad: seq<Step>, consecutiveErrors: nat) returns (move: Move, errors: nat)
    requires consecutiveErrors == Trailing(pad) < 3
    ensures move == Decide(c, t, pad)
    ensures t.elapsed <= c.maxSecs && t.reply.Parsed? && t.reply.tool == "finish" ==>
              var input := t.reply.input;
              var said := Quote(if "answer" in input then input["answer"] else Text(""));
              move == Stop(Result(said, pad, Finish, false), [])
    ensures t.elapsed <= c.maxSecs && t.reply.Parsed? && t.reply.tool == "ask_user" ==>
              var input := t.reply.input;
              var said := Quote(if "question" in input then input["question"] else Text(""));
              move == Stop(Result(said, pad, AskUser, false), [])
    ensures move.More? ==> errors == Trailing(pad + [move.step]) < 3
    ensures move.More? ==> move.step.tool != "finish" && move.step.tool != "ask_user"
  {
    errors := consecutiveErrors;
    if t.elapsed > c.maxSecs { return Stop(Result(Silence, pad, Timeout, false), []), errors; }
    if t.reply.CallFails? {
      var broken := BuildPartialAnswer(c, pad);
      return Stop(SalvagedResult(broken, pad, Error), []), errors;
    }
    var tool, input := t.reply.tool, t.reply.input;
    if tool == "finish" { return Stop(Result(Quote(Field(input, "answer")), pad, Finish, false), []), errors; }
    if tool == "ask_user" { return Stop(Result(Quote(Field(input, "question")), pad, AskUser, false), []), errors; }
    var repeat := IsRepeat(c, tool, input, pad);
    var s := Step(tool, input, REPEATED, t.reply.error, false);
    if !repeat && tool == "error" {
      s := s.(output := UNPARSED);
    } else if !repeat {
      if t.outcome.Fails? {
        var broken := BuildPartialAnswer(c, pad);
        return Stop(SalvagedResult(broken, pad, Error), [(tool, input)]), errors;
      }
      s := Step(tool, input, t.outcome.output, t.reply.error || OutputIsError(t.outcome.output), true);
    }
    TrailingGrows(pad, s);
    errors := if tool == "error" || HasErrorStatus(s.output) then errors + 1 else 0;
    if errors < 3 { return More(s), errors; }
    if repeat { return Stop(Result(Silence, pad + [s], Error, false), []), errors; }
    var partial := BuildPartialAnswer(c, pad + [s]);
    return Stop(SalvagedResult(partial, pad + [s], Error), Call(s)), errors;
  }

  lemma TrailingGrows(pad: seq<Step>, s: Step)
    ensures Trailing(pad + [s]) == if IsErrorStep(s) then Trailing(pad) + 1 else 0
  {
    assert (pad + [s])[..|pad|] == pad;
  }

  function SalvagedResult(partial: Option<seq<(string, string)>>, pad: seq<Step>, otherwise: ExitReason): Result {
    match partial
    case None => Result(Silence, pad, otherwise, otherwise == Error)
    case Some(observations) => Result(Gathered(observations), pad, Partial, true)
  }

  // ------------------------------------------------------------------------------------
  // What holds of every run

  // The calls made so far are the steps that ran, and none of those repeats an earlier step.
  predicate Sound(c: Config, pad: seq<Step>, calls: seq<(string, Input)>) {
    && (forall s :: s in pad ==> s.tool != "finish" && s.tool != "ask_user")
    && (forall i, j :: 0 <= i < j < |pad| && pad[j].ran ==> !RepeatOf(c, pad[j].tool, pad[j].input, pad[i]))
    && Ran(pad) == calls
  }

  function Ran(pad: seq<Step>): seq<(string, Input)> {
    if pad == [] then [] else Ran(pad[..|pad| - 1]) + Call(pad[|pad| - 1])
  }

  lemma SoundStep(c: Config, pad: seq<Step>, calls: seq<(string, Input)>, s: Step)
    requires Sound(c, pad, calls) && s.tool != "finish" && s.tool != "ask_user"
    requires s.ran ==> !Repeats(c, s.tool, s.input, pad)
    ensures Sound(c, pad + [s], calls + Call(s))
  {
    assert (pad + [s])[..|pad|] == pad;
  }

  predicate SoundMove(c: Config, pad: seq<Step>, calls: seq<(string, Input)>, move: Move) {
    match move
    case More(s) => Sound(c, pad + [s], calls + Call(s)) && Trailing(pad + [s]) < 3
    case Stop(r, tried) =>
      && |pad| <= |r.steps| <= |pad| + 1 && r.reason != MaxSteps
      && (Trailing(r.steps) < 3 || (Trailing(r.steps) == 3 && r.reason in {Error, Partial}))
      && (Sound(c, r.steps, calls + tried)
          || (Sound(c, r.steps, calls) && |tried| == 1 && !Repeats(c, tried[0].0, tried[0].1, r.steps)
              && r.reason in {Error, Partial}))
  }

  lemma JudgeIsSound(c: Config, pad: seq<Step>, calls: seq<(string, Input)>, s: Step, repeat: bool)
    requires Sound(c, pad, calls) && Trailing(pad) < 3 && s.tool != "finish" && s.tool != "ask_user"
    requires s.ran ==> !Repeats(c, s.tool, s.input, pad)
    ensures SoundMove(c, pad, calls, Judge(c, pad, s, repeat))
  {
    TrailingGrows(pad, s);
    SoundStep(c, pad, calls, s);
  }

  // One turn: the steps stay sound, and a run that it ends has either all its calls among its
  // steps or one more, whose exception ended it and which repeats none of them.
  lemma DecideIsSound(c: Config, t: Turn, pad: seq<Step>, calls: seq<(string, Input)>)
    requires Sound(c, pad, calls) && Trailing(pad) < 3
    ensures SoundMove(c, pad, calls, Decide(c, t, pad))
  {
    if t.elapsed <= c.maxSecs && t.reply.Parsed? && t.reply.tool != "finish" && t.reply.tool != "ask_user" {
      var Parsed(tool, input, error) := t.reply;
      var repeat := Repeats(c, tool, input, pad);
      if repeat || tool == "error" || t.outcome.Returns? {
        var s := if repeat then Step(tool, input, REPEATED, error, false)
        else if tool == "error" then Step(tool, input, UNPARSED, error, false)
        else Step(tool, input, t.outcome.output, error || OutputIsError(t.outcome.output), true);
        assert Decide(c, t, pad) == Judge(c, pad, s, repeat);
        JudgeIsSound(c, pad, calls, s, repeat);
      }
    }
    assert calls + [] == calls;
  }

  predicate SoundEnd(c: Config, r: Run) {
    || Sound(c, r.result.steps, r.calls)
    || (&& r.calls != []
        && Sound(c, r.result.steps, r.calls[..|r.calls| - 1])
        && !Repeats(c, r.calls[|r.calls| - 1].0, r.calls[|r.calls| - 1].1, r.result.steps)
        && r.result.reason in {Error, Partial})
  }

  // Every run: within its budget, no pseudo-tool in its steps, never more than three errors in
  // a row, and no call that repeats an earlier step.
  lemma {:induction false} GoIsSound(c: Config, turn: nat -> Turn, n: nat, pad: seq<Step>, calls: seq<(string, Input)>)
    requires Sound(c, pad, calls) && |pad| == n <= c.maxSteps && Trailing(pad) < 3
    ensures var r := Go(c, turn, n, pad, calls);
            && SoundEnd(c, r)
            && n <= |r.result.steps| <= c.maxSteps
            && (Trailing(r.result.steps) < 3 || (Trailing(r.result.steps) == 3 && r.result.reason in {Error, Partial}))
            && (r.result.reason == MaxSteps ==> |r.result.steps| == c.maxSteps)
    decreases c.maxSteps - n
  {
    if n < c.maxSteps {
      DecideIsSound(c, turn(n), pad, calls);
      match Decide(c, turn(n), pad) {
        case More(s) => GoIsSound(c, turn, n + 1, pad + [s], calls + Call(s));
        case Stop(r, tried) => StopIsSound(c, pad, calls, r, tried);
      }
    }
  }

  lemma StopIsSound(c: Config, pad: seq<Step>, calls: seq<(string, Input)>, r: Result, tried: seq<(string, Input)>)
    requires SoundMove(c, pad, calls, Stop(r, tried))
    ensures SoundEnd(c, Run(r, calls + tried))
  {
    if |tried| == 1 { assert (calls + tried)[..|calls|] == calls; }
  }

  lemma {:induction false} RanComesFromSteps(pad: seq<Step>, k: nat) returns (i: nat)
    requires k < |Ran(pad)|
    ensures i < |pad| && pad[i].ran && (pad[i].tool, pad[i].input) == Ran(pad)[k]
    ensures |Ran(pad[..i])| == k
  {
    var init := pad[..|pad| - 1];
    if k < |Ran(init)| {
      i := RanComesFromSteps(init, k);
      assert init[..i] == pad[..i];
    } else {
      i := |pad| - 1;
    }
  }

  lemma {:induction false} RanGrows(pad: seq<Step>, i: nat, j: nat)
    requires i <= j <= |pad|
    ensures |Ran(pad[..i])| <= |Ran(pad[..j])|
  {
    if i < j {
      RanGrows(pad, i, j - 1);
      assert pad[..j][..j - 1] == pad[..j - 1];
    }
  }

  lemma SoundCallsDiffer(c: Config, pad: seq<Step>, calls: seq<(string, Input)>, a: nat, b: nat)
    requires Sound(c, pad, calls) && a < b < |calls|
    ensures calls[a] != calls[b]
  {
    var i := RanComesFromSteps(pad, a);
    var j := RanComesFromSteps(pad, b);
    if j <= i { RanGrows(pad, j, i); }
    IdenticalStepRepeats(c, pad[i]);
  }

  lemma SoundEndCallsDiffer(c: Config, r: Run, a: nat, b: nat)
    requires SoundEnd(c, r) && a < b < |r.calls|
    ensures r.calls[a] != r.calls[b]
  {
    var steps := r.result.steps;
    if Sound(c, steps, r.calls) {
      SoundCallsDiffer(c, steps, r.calls, a, b);
    } else {
      var done := r.calls[..|r.calls| - 1];
      if b < |done| {
        SoundCallsDiffer(c, steps, done, a, b);
      } else {
        LastCallDiffers(c, steps, done, r.calls[b], a);
      }
    }
  }

  lemma LastCallDiffers(c: Config, pad: seq<Step>, calls: seq<(string, Input)>, last: (string, Input), a: nat)
    requires Sound(c, pad, calls) && a < |calls| && !Repeats(c, last.0, last.1, pad)
    ensures calls[a] != last
  {
    var i := RanComesFromSteps(pad, a);
    IdenticalStepRepeats(c, pad[i]);
  }

  // No run hands the same tool the same input twice.
  lemma NoCallTwice(c: Config, turn: nat -> Turn, a: nat, b: nat)
    requires a < b < |Go(c, turn, 0, [], []).calls|
    ensures Go(c, turn, 0, [], []).calls[a] != Go(c, turn, 0, [], []).calls[b]
  {
    GoIsSound(c, turn, 0, [], []);
    SoundEndCallsDiffer(c, Go(c, turn, 0, [], []), a, b);
  }

  // The answer fits the exit reason, and work is passed over in silence only by a timeout or a
  // repeat on the third strike.
  predicate Honest(c: Config, r: Result) {
    && (r.reason == Partial <==> r.said.Gathered?)
    && (r.said.Gathered? ==> Useful(c, r.steps) != [] && r.said == Gathered(LastFive(Useful(c, r.steps))))
    && (r.said.Silence? && Useful(c, r.steps) != [] ==>
          r.reason == Timeout ||
          (r.reason == Error && Trailing(r.steps) >= 3 && r.steps != [] && r.steps[|r.steps| - 1].output == REPEATED))
    && (r.reason == Partial ==> r.degraded) && (r.degraded ==> r.reason in {Partial, Error})
  }

  predicate HonestMove(c: Config, move: Move) {
    move.Stop? ==> Honest(c, move.result)
  }

  lemma JudgeIsHonest(c: Config, pad: seq<Step>, s: Step, repeat: bool)
    requires repeat ==> s.output == REPEATED
    ensures HonestMove(c, Judge(c, pad, s, repeat))
  {
  }

  lemma SalvageIsHonest(c: Config, pad: seq<Step>, otherwise: ExitReason)
    requires otherwise in {Error, MaxSteps}
    ensures Honest(c, Salvage(c, pad, otherwise))
  {
  }

  lemma DecideIsHonest(c: Config, t: Turn, pad: seq<Step>)
    ensures HonestMove(c, Decide(c, t, pad))
  {
    if t.reply.Parsed?
       && (t.outcome.Returns? || Repeats(c, t.reply.tool, t.reply.input, pad) || t.reply.tool == "error")
    {
      var Parsed(tool, input, error) := t.reply;
      var repeat := Repeats(c, tool, input, pad);
      JudgeIsHonest(c, pad,
                    if repeat then Step(tool, input, REPEATED, error, false)
                    else if tool == "error" then Step(tool, input, UNPARSED, error, false)
                    else Step(tool, input, t.outcome.output, error || OutputIsError(t.outcome.output), true),
                    repeat);
    } else {
      SalvageIsHonest(c, pad, Error);
    }
  }

  lemma {:induction false} RunsAreHonest(c: Config, turn: nat -> Turn, n: nat,
                                         pad: seq<Step>, calls: seq<(string, Input)>)
    ensures Honest(c, Go(c, turn, n, pad, calls).result)
    decreases c.maxSteps - n
  {
    if n >= c.maxSteps {
      SalvageIsHonest(c, pad, MaxSteps);
    } else {
      DecideIsHonest(c, turn(n), pad);
      match Decide(c, turn(n), pad) {
        case More(s) => RunsAreHonest(c, turn, n + 1, pad + [s], calls + Call(s));
        case Stop(_, _) =>
      }
    }
  }

  // The turn ends the run without a word although useful steps have been made.
  predicate PassesOverWork(c: Config, t: Turn, pad: seq<Step>) {
    var move := Decide(c, t, pad);
    move.Stop? && move.result.said.Silence? && Useful(c, move.result.steps) != []
  }

  // A repeat of an earlier step by an ordinary tool, or by the "error" of an unparseable reply.
  predicate IsRepeatedReply(c: Config, t: Turn, pad: seq<Step>) {
    && t.reply.Parsed? && t.reply.tool != "finish" && t.reply.tool != "ask_user"
    && Repeats(c, t.reply.tool, t.reply.input, pad)
  }

  // It does so exactly when time is up, or when the third error in a row is a repeat.
  lemma PassesOverWorkIff(c: Config, t: Turn, pad: seq<Step>)
    requires Trailing(pad) < 3
    ensures PassesOverWork(c, t, pad) <==>
            && Useful(c, pad) != []
            && (t.elapsed > c.maxSecs || (IsRepeatedReply(c, t, pad) && Trailing(pad) == 2))
  {
    if t.elapsed <= c.maxSecs && t.reply.Parsed? && t.reply.tool != "finish" && t.reply.tool != "ask_user" {
      var Parsed(tool, input, error) := t.reply;
      if Repeats(c, tool, input, pad) {
        JudgedOverWork(c, pad, Step(tool, input, REPEATED, error, false), true);
      } else if tool == "error" {
        JudgedOverWork(c, pad, Step(tool, input, UNPARSED, error, false), false);
      } else if t.outcome.Returns? {
        var o := t.outcome.output;
        JudgedOverWork(c, pad, Step(tool, input, o, error || OutputIsError(o), true), false);
      }
    }
  }

  lemma JudgedOverWork(c: Config, pad: seq<Step>, s: Step, repeat: bool)
    requires Trailing(pad) < 3 && (repeat ==> s.output == REPEATED)
    ensures var move := Judge(c, pad, s, repeat);
            (move.Stop? && move.result.said.Silence? && Useful(c, move.result.steps) != [])
            <==> repeat && Trailing(pad) == 2 && Useful(c, pad) != []
  {
    TrailingGrows(pad, s);
    assert (pad + [s])[..|pad|] == pad;
    if repeat {
      assert HasErrorStatus(s.output) && Useful(c, pad + [s]) == Useful(c, pad) + [];
    }
  }

  // An unparseable reply; the two formats that are parsed give it no input.
  predicate ParseFailure(c: Config, t: Turn, input: Input) {
    t.elapsed <= c.maxSecs && t.reply == Parsed("error", input, true)
  }

  // Short of the third strike it leaves one more error step and no call.
  lemma ParseFailureGoesOn(c: Config, turn: nat -> Turn, n: nat, pad: seq<Step>,
                           calls: seq<(string, Input)>, input: Input)
    requires n < c.maxSteps && Trailing(pad) <= 1 && ParseFailure(c, turn(n), input)
    ensures var s := Step("error", input, if Repeats(c, "error", input, pad) then REPEATED else UNPARSED, true, false);
            && Trailing(pad + [s]) == Trailing(pad) + 1
            && Go(c, turn, n, pad, calls) == Go(c, turn, n + 1, pad + [s], calls)
  {
    var repeat := Repeats(c, "error", input, pad);
    var s := Step("error", input, if repeat then REPEATED else UNPARSED, true, false);
    TrailingGrows(pad, s);
    assert Decide(c, turn(n), pad) == Judge(c, pad, s, repeat);
    assert calls + Call(s) == calls;
  }

  // k of them from turn n on.
  predicate ParseFailures(c: Config, turn: nat -> Turn, n: nat, k: nat, input: Input)
    decreases k
  {
    k > 0 ==> ParseFailure(c, turn(n), input) && ParseFailures(c, turn, n + 1, k - 1, input)
  }

  // The run has ended in an error and without a word, after this many more steps.
  predicate EndsInSilence(r: Result, pad: seq<Step>, more: nat) {
    r.said == Silence && r.reason == Error && !r.degraded && |r.steps| == |pad| + more && pad <= r.steps
  }

  lemma SilenceAfterStep(r: Result, pad: seq<Step>, s: Step, more: nat)
    requires EndsInSilence(r, pad + [s], more)
    ensures EndsInSilence(r, pad, more + 1)
  {
    assert r.steps[..|pad|] == (pad + [s])[..|pad|] == pad;
  }

  // One after another counts as a repeat of it.
  lemma LastParseFailure(c: Config, turn: nat -> Turn, n: nat, pad: seq<Step>,
                         calls: seq<(string, Input)>, input: Input)
    requires n < c.maxSteps && Trailing(pad) == 2 && ParseFailure(c, turn(n), input)
    requires Repeats(c, "error", input, pad)
    ensures EndsInSilence(Go(c, turn, n, pad, calls).result, pad, 1)
  {
    var s := Step("error", input, REPEATED, true, false);
    TrailingGrows(pad, s);
    assert Decide(c, turn(n), pad) == Judge(c, pad, s, true);
  }

  // So three errors in a row, of which the last two or more are unparseable replies, end the run
  // with an empty answer, whatever was gathered before.
  lemma {:induction false} ParseFailuresSalvageNothing(c: Config, turn: nat -> Turn, n: nat, pad: seq<Step>,
                                                       calls: seq<(string, Input)>, input: Input)
    requires Trailing(pad) <= 1 && n + 3 - Trailing(pad) <= c.maxSteps
    requires ParseFailures(c, turn, n, 3 - Trailing(pad), input)
    ensures EndsInSilence(Go(c, turn, n, pad, calls).result, pad, 3 - Trailing(pad))
    decreases c.maxSteps - n
  {
    ParseFailureGoesOn(c, turn, n, pad, calls, input);
    var s := Step("error", input, if Repeats(c, "error", input, pad) then REPEATED else UNPARSED, true, false);
    if Trailing(pad) == 0 {
      ParseFailuresSalvageNothing(c, turn, n + 1, pad + [s], calls, input);
    } else {
      IdenticalStepRepeats(c, s);
      assert (pad + [s])[|pad|] == s;
      LastParseFailure(c, turn, n + 1, pad + [s], calls, input);
    }
    SilenceAfterStep(Go(c, turn, n, pad, calls).result, pad, s, 2 - Trailing(pad));
  }
}
