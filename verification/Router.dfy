// The fallback graph of a specialty, the chain a role resolves to, the runtime walk along it,
// and what the breakers do to both.
module Router {
  import opened Wrappers
  import opened CircuitBreaker

  // fallback is "" when a role has none.
  datatype Role = Role(provider: string, fallback: string)

  type Efforts = map<string, Role>

  // ------------------------------------------------------------------------------------
  // The fallback graph

  // A walk along fallback links inside the specialty.
  predicate IsPath(m: Efforts, p: seq<string>) {
    && p != []
    && (forall i :: 0 <= i < |p| ==> p[i] in m)
    && (forall i :: 0 < i < |p| ==> p[i] == m[p[i - 1]].fallback && p[i] != "")
  }

  predicate Distinct(p: seq<string>) {
    forall i, j :: 0 <= i < j < |p| ==> p[i] != p[j]
  }

  predicate IsClosed(m: Efforts) {
    forall e :: e in m && m[e].fallback != "" ==> m[e].fallback in m
  }

  ghost predicate NeverRevisits(m: Efforts) {
    forall p :: IsPath(m, p) ==> Distinct(p)
  }

  // A path that ends at a role without a fallback.
  predicate IsComplete(m: Efforts, p: seq<string>) {
    IsPath(m, p) && m[p[|p| - 1]].fallback == ""
  }

  lemma PathGrows(m: Efforts, p: seq<string>, next: string)
    requires IsPath(m, p) && next in m && next == m[p[|p| - 1]].fallback && next != ""
    ensures IsPath(m, p + [next])
  {
  }

  lemma Revisits(p: seq<string>, next: string)
    requires next in p
    ensures !Distinct(p + [next])
  {
    var i :| 0 <= i < |p| && p[i] == next;
    assert (p + [next])[i] == (p + [next])[|p|];
  }

  // Two walks from one role agree as far as both go, and none goes on past the end of a
  // complete one.
  lemma {:induction false} PathsAgree(m: Efforts, p: seq<string>, whole: seq<string>, i: nat)
    requires IsPath(m, p) && IsComplete(m, whole) && p[0] == whole[0] && i < |p|
    ensures i < |whole| && p[i] == whole[i]
  {
    if i > 0 {
      PathsAgree(m, p, whole, i - 1);
      assert p[i] == m[p[i - 1]].fallback && p[i] != "";
      assert i - 1 != |whole| - 1;
      assert whole[i] == m[whole[i - 1]].fallback;
    }
  }

  lemma CompletePathIsEnough(m: Efforts, e: string, whole: seq<string>)
    requires IsComplete(m, whole) && Distinct(whole) && whole[0] == e
    ensures forall p :: IsPath(m, p) && p[0] == e ==> Distinct(p)
  {
    forall p | IsPath(m, p) && p[0] == e ensures Distinct(p) {
      forall i, j | 0 <= i < j < |p| ensures p[i] != p[j] {
        PathsAgree(m, p, whole, i);
        PathsAgree(m, p, whole, j);
      }
    }
  }

  lemma {:induction false} DistinctBounded(p: seq<string>, keys: set<string>)
    requires Distinct(p) && forall i :: 0 <= i < |p| ==> p[i] in keys
    ensures |p| <= |keys|
  {
    if p != [] {
      var last := p[|p| - 1];
      DistinctBounded(p[..|p| - 1], keys - {last});
    }
  }

  // KeyError: a walk from one role ran into a fallback, of another role, that names nothing.
  datatype Verdict = Accepted | Missing(effort: string) | Circular(effort: string) | KeyError

  // The fallback check for one role.
  method CheckRole(m: Efforts, effort: string) returns (v: Verdict, ghost path: seq<string>)
    requires effort in m
    ensures v.Accepted? ==> IsComplete(m, path) && Distinct(path) && path[0] == effort
    ensures v.Missing? || v.KeyError? ==> !IsClosed(m)
    ensures v.Circular? ==> IsPath(m, path) && !Distinct(path)
    ensures m[effort].fallback != "" && m[effort].fallback !in m ==> v == Missing(effort)
  {
    var fallback := m[effort].fallback;
    path := [effort];
    if fallback == "" { return Accepted, path; }
    if fallback !in m { return Missing(effort), path; }
    var chain := [effort, fallback];
    var current := fallback;
    while true
      invariant |chain| >= 2 && chain[0] == effort && chain[|chain| - 1] == current
      invariant IsPath(m, chain[..|chain| - 1])
      invariant current != "" && current == m[chain[|chain| - 2]].fallback
      invariant Distinct(chain) || chain == [effort, effort]
      decreases |m| + 1 - |chain|
    {
      if current !in m { return KeyError, path; }
      PathGrows(m, chain[..|chain| - 1], current);
      assert chain[..|chain| - 1] + [current] == chain;
      var next := m[current].fallback;
      if next == "" { return Accepted, chain; }
      if next in chain {
        PathGrows(m, chain, next);
        Revisits(chain, next);
        path := chain + [next];
        return Circular(effort), path;
      }
      assert chain != [effort, effort];
      DistinctBounded(chain, m.Keys);
      chain := chain + [next];
      assert chain[..|chain| - 1] + [next] == chain;
      current := next;
    }
  }

  // The validation of one specialty accepts it exactly when every fallback names a role of the
  // specialty and no walk along fallbacks comes back to a role.
  method ValidateFallbacks(order: seq<string>, m: Efforts) returns (v: Verdict)
    requires forall e :: e in order <==> e in m
    ensures v.Accepted? <==> IsClosed(m) && NeverRevisits(m)
  {
    for k := 0 to |order|
      invariant forall i :: 0 <= i < k ==> m[order[i]].fallback == "" || m[order[i]].fallback in m
      invariant forall i, p :: 0 <= i < k && IsPath(m, p) && p[0] == order[i] ==> Distinct(p)
    {
      assert order[k] in order;
      ghost var path;
      v, path := CheckRole(m, order[k]);
      if !v.Accepted? { return; }
      CompletePathIsEnough(m, order[k], path);
    }
    v := Accepted;
    assert NeverRevisits(m) by {
      forall p | IsPath(m, p) ensures Distinct(p) {
        assert p[0] in order;
      }
    }
  }

  // The role that a request starts from: the effort asked for, else "think".
  function StartOf(m: Efforts, effort: string): string {
    if effort in m then effort else "think"
  }

  // A walk from `start`, with `current` the fallback of its last role.
  predicate Leads(m: Efforts, chain: seq<string>, start: string, current: string) {
    IsPath(m, chain) && chain[0] == start && m[chain[|chain| - 1]].fallback == current
  }

  // The walk cannot go on: no fallback, an unknown one, or one already visited.
  predicate Stops(m: Efforts, chain: seq<string>, current: string) {
    current == "" || current !in m || current in chain
  }

  lemma LeadsGrows(m: Efforts, chain: seq<string>, start: string, current: string)
    requires Leads(m, chain, start, current) && !Stops(m, chain, current) && Distinct(chain)
    ensures Leads(m, chain + [current], start, m[current].fallback) && Distinct(chain + [current])
  {
    PathGrows(m, chain, current);
  }

  // The walk so far: nothing, or a walk without repetition that goes on at `current`.
  predicate Walked(m: Efforts, chain: seq<string>, start: string, current: string) {
    if chain == [] then current == start
    else start != "" && Distinct(chain) && Leads(m, chain, start, current)
  }

  lemma FirstOrNext(m: Efforts, chain: seq<string>, start: string, current: string)
    requires Walked(m, chain, start, current) && !Stops(m, chain, current)
    ensures Walked(m, chain + [current], start, m[current].fallback)
  {
    if chain != [] { LeadsGrows(m, chain, start, current); }
  }

  // In a graph that the validation accepts, only the missing fallback stops a walk.
  lemma StopsOnlyAtTheEnd(m: Efforts, chain: seq<string>, start: string, current: string)
    requires Leads(m, chain, start, current) && Stops(m, chain, current)
    requires IsClosed(m) && NeverRevisits(m)
    ensures IsComplete(m, chain)
  {
    if current != "" {
      assert chain[|chain| - 1] in m;
      PathGrows(m, chain, current);
      Revisits(chain, current);
      assert false;
    }
  }

  // An unknown effort with no "think" gives the first role alone; a role named "" gives nothing;
  // any other start gives a walk that goes as far as it can without visiting a role twice, and
  // in an accepted graph that is the complete one.
  method ResolveRoleChain(order: seq<string>, m: Efforts, effort: string) returns (chain: seq<string>)
    requires forall e :: e in order <==> e in m
    ensures Distinct(chain)
    ensures effort in m && effort != "" ==> chain != [] && chain[0] == effort
    ensures effort !in m && "think" in m ==> chain != [] && chain[0] == "think"
    ensures StartOf(m, effort) !in m ==> chain == if order == [] then [] else [order[0]]
    ensures StartOf(m, effort) in m && StartOf(m, effort) == "" ==> chain == []
    ensures StartOf(m, effort) in m && StartOf(m, effort) != "" ==>
              exists last :: Leads(m, chain, StartOf(m, effort), last) && Stops(m, chain, last)
    ensures StartOf(m, effort) in m && StartOf(m, effort) != "" && IsClosed(m) && NeverRevisits(m) ==>
              IsComplete(m, chain)
  {
    var current := StartOf(m, effort);
    if current !in m {
      chain := if |order| > 0 then [order[0]] else [];
      return;
    }
    chain := FollowFallbacks(m, current);
    if current != "" && IsClosed(m) && NeverRevisits(m) {
      StopsOnlyAtTheEnd(m, chain, current, m[chain[|chain| - 1]].fallback);
    }
  }

  // The loop of the resolution, from a role that exists.
  method FollowFallbacks(m: Efforts, start: string) returns (chain: seq<string>)
    requires start in m
    ensures Distinct(chain)
    ensures start == "" ==> chain == []
    ensures start != "" ==>
              && IsPath(m, chain)
              && Leads(m, chain, start, m[chain[|chain| - 1]].fallback)
              && Stops(m, chain, m[chain[|chain| - 1]].fallback)
  {
    chain := [];
    var seen: set<string> := {};
    var current := start;
    while current != "" && current !in seen
      invariant forall e :: e in seen <==> e in chain
      invariant seen <= m.Keys
      invariant Walked(m, chain, start, current)
      decreases |m.Keys - seen|
    {
      if current !in m { break; }
      ghost var rest := m.Keys - seen;
      FirstOrNext(m, chain, start, current);
      seen := seen + {current};
      assert m.Keys - seen == rest - {current};
      chain := chain + [current];
      current := m[current].fallback;
    }
  }

  // ------------------------------------------------------------------------------------
  // One attempt, and the walk

  datatype Category = ProviderDown | TimedOut | ParseFailure | Refused

  // Other: an exception that is not a XibiError.
  datatype Attempt = Answered(text: string) | Xibi(category: Category) | Other

  function EventOf(a: Attempt, now: int): Event {
    match a
    case Answered(_) => Succeeded
    case Xibi(ProviderDown) => Failed(Persistent, now)
    case Xibi(TimedOut) => Failed(Persistent, now)
    case Xibi(_) => Failed(Transient, now)
    case Other => Failed(Persistent, now)
  }

  predicate Walkable(a: Attempt) {
    a.Xibi? && a.category != Refused
  }

  // A call on the provider behind one link of the chain, and when.
  datatype Link = Link(provider: string, attempt: Attempt, now: int)

  type Breakers = map<string, Row>

  function RowOf(b: Breakers, provider: string): Row {
    if provider in b then b[provider] else INITIAL
  }

  // What happens to a breaker: an attempt behind it, or a request that asks whether it is open.
  datatype Use = Tried(link: Link) | Question(provider: string, now: int)

  function ProviderOf(u: Use): string {
    if u.Tried? then u.link.provider else u.provider
  }

  function EventIn(u: Use): Event {
    if u.Tried? then EventOf(u.link.attempt, u.link.now) else Asked(u.now)
  }

  function Record(c: Config, b: Breakers, u: Use): Breakers {
    b[ProviderOf(u) := After(c, RowOf(b, ProviderOf(u)), EventIn(u))]
  }

  function RecordAll(c: Config, b: Breakers, uses: seq<Use>): Breakers {
    if uses == [] then b else Record(c, RecordAll(c, b, uses[..|uses| - 1]), uses[|uses| - 1])
  }

  function Tries(links: seq<Link>): (uses: seq<Use>)
    ensures |uses| == |links|
  {
    seq(|links|, i requires 0 <= i < |links| => Tried(links[i]))
  }

  // The events that one provider's breaker sees.
  function EventsFor(provider: string, uses: seq<Use>): seq<Event> {
    if uses == [] then []
    else
      var u := uses[|uses| - 1];
      EventsFor(provider, uses[..|uses| - 1]) + if ProviderOf(u) == provider then [EventIn(u)] else []
  }

  // Roles of one provider share its breaker; each attempt is one event on it and none on others.
  lemma {:induction false} OneEventPerAttempt(c: Config, b: Breakers, uses: seq<Use>, provider: string)
    ensures RowOf(RecordAll(c, b, uses), provider) == AfterAll(c, RowOf(b, provider), EventsFor(provider, uses))
  {
    if uses != [] {
      var init := uses[..|uses| - 1];
      OneEventPerAttempt(c, b, init, provider);
      var es := EventsFor(provider, uses);
      if ProviderOf(uses[|uses| - 1]) == provider {
        assert es[..|es| - 1] == EventsFor(provider, init);
      } else {
        assert es == EventsFor(provider, init);
      }
    }
  }

  lemma {:induction false} RecordSplit(c: Config, b: Breakers, first: seq<Use>, rest: seq<Use>)
    ensures RecordAll(c, b, first + rest) == RecordAll(c, RecordAll(c, b, first), rest)
  {
    if rest == [] {
      assert first + rest == first;
    } else {
      assert (first + rest)[..|first + rest| - 1] == first + rest[..|rest| - 1];
      RecordSplit(c, b, first, rest[..|rest| - 1]);
    }
  }

  datatype WalkResult = Success(text: string) | RaisedXibi(category: Category) | RaisedOther

  class Models {
    const config: Config
    var breakers: Breakers   // by provider

    constructor (config: Config)
      ensures this.config == config && breakers == map[]
    {
      this.config, breakers := config, map[];
    }

    // BreakerWrappedClient: make the call, record what came of it.
    method Generate(l: Link) returns (a: Attempt)
      modifies this
      ensures a == l.attempt
      ensures breakers == Record(config, old(breakers), Tried(l))
      ensures var before, after := RowOf(old(breakers), l.provider), RowOf(breakers, l.provider);
              && (a == Xibi(ProviderDown) || a == Xibi(TimedOut) || a == Other ==>
                    after.failures == before.failures + 1)
              && (a == Xibi(ParseFailure) || a == Xibi(Refused) ==>
                    after == before.(transients := before.transients + 1))
              && (a.Answered? && before.state == Closed ==> after == before.(failures := 0))
      ensures forall p :: p != l.provider ==> RowOf(breakers, p) == RowOf(old(breakers), p)
    {
      a := l.attempt;
      var breaker := new Breaker(config);
      breaker.row := RowOf(breakers, l.provider);
      match a {
        case Answered(_) => breaker.RecordSuccess();
        case Xibi(category) =>
          breaker.RecordFailure(if category == ProviderDown || category == TimedOut
                                then Persistent else Transient, l.now);
        case Other => breaker.RecordFailure(Persistent, l.now);
      }
      breakers := breakers[l.provider := breaker.row];
    }

    // chain[i].attempt is what the i-th link does if the walk gets there.
    method Walk(chain: seq<Link>) returns (r: WalkResult, attempts: nat)
      modifies this
      ensures attempts <= |chain|
      ensures forall i :: 0 <= i < attempts - 1 ==>
                chain[i].attempt in {Xibi(ProviderDown), Xibi(TimedOut), Xibi(ParseFailure)}
      ensures breakers == RecordAll(config, old(breakers), Tries(chain[..attempts]))
      ensures match r
              case Success(text) => attempts > 0 && chain[attempts - 1].attempt == Answered(text)
              case RaisedOther => attempts > 0 && chain[attempts - 1].attempt == Other
              case RaisedXibi(category) =>
                if attempts > 0 && chain[attempts - 1].attempt == Xibi(Refused) then category == Refused
                else attempts == |chain|
                     && if chain == [] then category == ProviderDown
                        else chain[|chain| - 1].attempt == Xibi(category) && category != Refused
    {
      attempts := 0;
      var last := ProviderDown;
      while attempts < |chain|
        invariant attempts <= |chain|
        invariant forall i :: 0 <= i < attempts ==> Walkable(chain[i].attempt)
        invariant breakers == RecordAll(config, old(breakers), Tries(chain[..attempts]))
        invariant last == if attempts == 0 then ProviderDown else chain[attempts - 1].attempt.category
      {
        assert Tries(chain[..attempts + 1])[..attempts] == Tries(chain[..attempts]);
        var a := Generate(chain[attempts]);
        attempts := attempts + 1;
        match a {
          case Answered(text) => return Success(text), attempts;
          case Other => return RaisedOther, attempts;
          case Xibi(category) =>
            last := category;
            if !Walkable(a) { return RaisedXibi(category), attempts; }
        }
      }
      return RaisedXibi(last), attempts;
    }

    method Ask(provider: string, now: int) returns (open: bool)
      modifies this
      ensures open == Blocks(config, RowOf(old(breakers), provider), now)
      ensures breakers == Record(config, old(breakers), Question(provider, now))
    {
      var breaker := new Breaker(config);
      breaker.row := RowOf(breakers, provider);
      open := breaker.IsOpen(now);
      breakers := breakers[provider := breaker.row];
    }

    // The chain that a request gets: the roles whose breaker lets a request through and whose
    // client can be built. Asking a breaker may move it to HALF_OPEN; nows[i] is the clock when
    // the breaker of the i-th role is asked.
    method GetModel(roles: seq<string>, m: Efforts, usable: string -> bool, nows: seq<int>)
      returns (chain: Option<seq<string>>)
      requires |nows| == |roles| && forall e :: e in roles ==> e in m
      modifies this
      ensures var built := Built(config, old(breakers), roles, m, usable, nows);
              chain == if built == [] then None else Some(built)
      ensures breakers == RecordAll(config, old(breakers), Questions(roles, m, nows))
    {
      var built: seq<string> := [];
      for i := 0 to |roles|
        invariant AskedFor(config, old(breakers), roles, m, usable, nows, i, built, breakers)
      {
        assert roles[i] in roles;
        NextRole(config, old(breakers), roles, m, usable, nows, i, built, breakers);
        var open := Ask(m[roles[i]].provider, nows[i]);
        built := built + if !open && usable(roles[i]) then [roles[i]] else [];
      }
      assert roles[..|roles|] == roles && nows[..|roles|] == nows;
      chain := if built == [] then None else Some(built);
    }
  }

  // What a request asks, in order.
  function Questions(roles: seq<string>, m: Efforts, nows: seq<int>): (uses: seq<Use>)
    requires |nows| == |roles| && forall e :: e in roles ==> e in m
    ensures |uses| == |roles|
  {
    seq(|roles|, i requires 0 <= i < |roles| => Question(m[roles[i]].provider, nows[i]))
  }

  lemma QuestionsGrow(roles: seq<string>, m: Efforts, nows: seq<int>)
    requires roles != [] && |nows| == |roles| && forall e :: e in roles ==> e in m
    ensures Questions(roles, m, nows)[..|roles| - 1] == Questions(roles[..|roles| - 1], m, nows[..|roles| - 1])
  {
  }

  // A role is in the chain when, after the questions before it, its breaker does not block.
  function Built(c: Config, b: Breakers, roles: seq<string>, m: Efforts, usable: string -> bool,
                 nows: seq<int>): seq<string>
    requires |nows| == |roles| && forall e :: e in roles ==> e in m
  {
    if roles == [] then []
    else
      var n := |roles| - 1;
      var e, asked := roles[n], RecordAll(c, b, Questions(roles[..n], m, nows[..n]));
      Built(c, b, roles[..n], m, usable, nows[..n])
      + if !Blocks(c, RowOf(asked, m[e].provider), nows[n]) && usable(e) then [e] else []
  }

  // The first i roles have been asked for.
  predicate AskedFor(c: Config, b: Breakers, roles: seq<string>, m: Efforts, usable: string -> bool, nows: seq<int>,
                     i: nat, built: seq<string>, breakers: Breakers)
    requires |nows| == |roles| && i <= |roles| && forall e :: e in roles ==> e in m
  {
    && built == Built(c, b, roles[..i], m, usable, nows[..i])
    && breakers == RecordAll(c, b, Questions(roles[..i], m, nows[..i]))
  }

  lemma NextRole(c: Config, b: Breakers, roles: seq<string>, m: Efforts, usable: string -> bool, nows: seq<int>,
                 i: nat, built: seq<string>, breakers: Breakers)
    requires |nows| == |roles| && i < |roles| && roles[i] in m && forall e :: e in roles ==> e in m
    requires AskedFor(c, b, roles, m, usable, nows, i, built, breakers)
    ensures var provider := m[roles[i]].provider;
            var more := built +
                        if !Blocks(c, RowOf(breakers, provider), nows[i]) && usable(roles[i]) then [roles[i]] else [];
            AskedFor(c, b, roles, m, usable, nows, i + 1, more, Record(c, breakers, Question(provider, nows[i])))
  {
    assert roles[..i + 1][..i] == roles[..i] && nows[..i + 1][..i] == nows[..i];
    QuestionsGrow(roles[..i + 1], m, nows[..i + 1]);
  }

  lemma {:induction false} QuestionsAsk(provider: string, uses: seq<Use>, nows: seq<int>)
    requires forall u :: u in uses ==> u.Question? && u.now in nows
    ensures forall e :: e in EventsFor(provider, uses) ==> e.Asked? && e.now in nows
  {
    if uses != [] {
      assert uses[|uses| - 1] in uses;
      QuestionsAsk(provider, uses[..|uses| - 1], nows);
    }
  }

  // While a provider's breaker is within the timeout of its opening, no chain holds a role of it.
  lemma {:induction false} BlockedProviderIsLeftOut(c: Config, b: Breakers, roles: seq<string>, m: Efforts,
                                                    usable: string -> bool, nows: seq<int>, provider: string)
    requires |nows| == |roles| && forall e :: e in roles ==> e in m
    requires var r := RowOf(b, provider);
             r.state == Open && r.openedAt.Some? &&
             forall now :: now in nows ==> now <= r.openedAt.value + c.recoveryTimeout
    ensures forall e :: e in Built(c, b, roles, m, usable, nows) ==> e in m && m[e].provider != provider
  {
    if roles != [] {
      var n := |roles| - 1;
      assert nows[n] in nows && forall now :: now in nows[..n] ==> now in nows;
      BlockedProviderIsLeftOut(c, b, roles[..n], m, usable, nows[..n], provider);
      var uses := Questions(roles[..n], m, nows[..n]);
      QuestionsAsk(provider, uses, nows);
      OneEventPerAttempt(c, b, uses, provider);
      BlocksWholeTimeout(c, RowOf(b, provider), EventsFor(provider, uses), nows[n]);
    }
  }

  // No other role is left out: one whose client can be built, and whose breaker is not open or has
  // been so for longer than the timeout, is in the chain.
  lemma {:induction false} HealthyRoleIsIn(c: Config, b: Breakers, roles: seq<string>, m: Efforts,
                                           usable: string -> bool, nows: seq<int>, i: nat)
    requires |nows| == |roles| && (forall e :: e in roles ==> e in m) && i < |roles| && usable(roles[i])
    requires roles[i] in m
    requires var r := RowOf(b, m[roles[i]].provider); r.state != Open || Expired(c, r, nows[i])
    ensures roles[i] in Built(c, b, roles, m, usable, nows)
  {
    var n := |roles| - 1;
    if i < n {
      HealthyRoleIsIn(c, b, roles[..n], m, usable, nows[..n], i);
    } else {
      LastRoleIsIn(c, b, roles, m, usable, nows);
    }
  }

  lemma LastRoleIsIn(c: Config, b: Breakers, roles: seq<string>, m: Efforts, usable: string -> bool, nows: seq<int>)
    requires |nows| == |roles| && (forall e :: e in roles ==> e in m) && roles != [] && usable(roles[|roles| - 1])
    requires roles[|roles| - 1] in m
    requires var r := RowOf(b, m[roles[|roles| - 1]].provider); r.state != Open || Expired(c, r, nows[|roles| - 1])
    ensures var n := |roles| - 1;
            Built(c, b, roles, m, usable, nows) == Built(c, b, roles[..n], m, usable, nows[..n]) + [roles[n]]
  {
    var n := |roles| - 1;
    AskedStaysHealthy(c, b, Questions(roles[..n], m, nows[..n]), m[roles[n]].provider, nows[n]);
  }

  lemma {:induction false} QuestionsAreAsked(provider: string, uses: seq<Use>)
    requires forall u :: u in uses ==> u.Question?
    ensures forall e :: e in EventsFor(provider, uses) ==> e.Asked?
  {
    if uses != [] {
      assert uses[|uses| - 1] in uses;
      QuestionsAreAsked(provider, uses[..|uses| - 1]);
    }
  }

  lemma AskedStaysHealthy(c: Config, b: Breakers, uses: seq<Use>, provider: string, now: int)
    requires forall u :: u in uses ==> u.Question?
    requires var r := RowOf(b, provider); r.state != Open || Expired(c, r, now)
    ensures !Blocks(c, RowOf(RecordAll(c, b, uses), provider), now)
  {
    QuestionsAreAsked(provider, uses);
    OneEventPerAttempt(c, b, uses, provider);
    QuestionsHalfOpen(c, RowOf(b, provider), EventsFor(provider, uses));
  }

  // And so with healthy providers the chain is the roles themselves.
  lemma {:induction false} HealthyChainIsWhole(c: Config, b: Breakers, roles: seq<string>, m: Efforts,
                                               usable: string -> bool, nows: seq<int>)
    requires |nows| == |roles|
    requires forall e :: e in roles ==> e in m && usable(e) && RowOf(b, m[e].provider).state != Open
    ensures Built(c, b, roles, m, usable, nows) == roles
  {
    if roles != [] {
      var n := |roles| - 1;
      assert roles[n] in roles;
      HealthyChainIsWhole(c, b, roles[..n], m, usable, nows[..n]);
      LastRoleIsIn(c, b, roles, m, usable, nows);
      assert roles == roles[..n] + [roles[n]];
    }
  }

  // An attempt that counts toward opening: the provider is down or too slow, or the call raises
  // something else than a XibiError.
  predicate Counts(a: Attempt) {
    a == Xibi(ProviderDown) || a == Xibi(TimedOut) || a == Other
  }

  predicate Attempts(u: Use, provider: string) {
    u.Tried? && u.link.provider == provider
  }

  // How many attempts on a provider count.
  function Failures(provider: string, uses: seq<Use>): nat {
    if uses == [] then 0
    else
      var u := uses[|uses| - 1];
      Failures(provider, uses[..|uses| - 1]) + if Attempts(u, provider) && Counts(u.link.attempt) then 1 else 0
  }

  predicate NeverAnswers(provider: string, uses: seq<Use>) {
    forall u :: u in uses && Attempts(u, provider) ==> !u.link.attempt.Answered?
  }

  lemma {:induction false} FailuresAreStrikes(provider: string, uses: seq<Use>)
    ensures Strikes(EventsFor(provider, uses)) == Failures(provider, uses)
  {
    if uses != [] {
      var init, es := uses[..|uses| - 1], EventsFor(provider, uses);
      FailuresAreStrikes(provider, init);
      if ProviderOf(uses[|uses| - 1]) == provider {
        assert es[..|es| - 1] == EventsFor(provider, init);
      } else {
        assert es == EventsFor(provider, init);
      }
    }
  }

  lemma {:induction false} NoAnswerNoSuccess(provider: string, uses: seq<Use>)
    requires NeverAnswers(provider, uses)
    ensures forall e :: e in EventsFor(provider, uses) ==> !e.Succeeded?
  {
    if uses != [] {
      assert uses[|uses| - 1] in uses;
      NoAnswerNoSuccess(provider, uses[..|uses| - 1]);
    }
  }

  lemma {:induction false} EventsSplit(provider: string, a: seq<Use>, b: seq<Use>)
    ensures EventsFor(provider, a + b) == EventsFor(provider, a) + EventsFor(provider, b)
  {
    if b == [] {
      assert a + b == a;
    } else {
      assert (a + b)[..|a + b| - 1] == a + b[..|b| - 1];
      EventsSplit(provider, a, b[..|b| - 1]);
    }
  }

  // The use behind the j-th event of a provider.
  lemma {:induction false} UseBehind(provider: string, uses: seq<Use>, j: nat) returns (i: nat)
    requires j < |EventsFor(provider, uses)|
    ensures i < |uses| && ProviderOf(uses[i]) == provider && EventsFor(provider, uses)[j] == EventIn(uses[i])
    ensures EventsFor(provider, uses[..i + 1]) == EventsFor(provider, uses)[..j + 1]
  {
    var init := uses[..|uses| - 1];
    if j < |EventsFor(provider, init)| {
      i := UseBehind(provider, init, j);
      assert init[..i + 1] == uses[..i + 1];
    } else {
      i := |uses| - 1;
      assert uses[..i + 1] == uses;
      assert EventsFor(provider, uses)[..j + 1] == EventsFor(provider, uses);
    }
  }

  // The k-th use is an attempt that counts, and the one that makes the failures reach the
  // threshold.
  predicate ReachesThreshold(c: Config, b: Breakers, provider: string, uses: seq<Use>, k: nat)
    requires k < |uses|
  {
    && Attempts(uses[k], provider) && Counts(uses[k].link.attempt)
    && RowOf(b, provider).failures + Failures(provider, uses[..k + 1]) == c.failureThreshold
  }

  // Every question on the provider's breaker after that attempt, and the request for these roles,
  // come within the timeout.
  predicate InTime(c: Config, provider: string, uses: seq<Use>, k: nat, later: seq<Use>,
                   roles: seq<string>, m: Efforts, nows: seq<int>)
    requires k < |uses| && uses[k].Tried?
  {
    && |nows| == |roles| && (forall e :: e in roles ==> e in m)
    && (forall u :: u in uses[k + 1..] + later && u.Question? && u.provider == provider ==>
          u.now <= uses[k].link.now + c.recoveryTimeout)
    && (forall now :: now in nows ==> now <= uses[k].link.now + c.recoveryTimeout)
  }

  // Attempts on one provider, through whichever of its roles and with any questions in between,
  // none of which is answered, and enough of which find it down or too slow or raise something
  // unknown: for the whole recovery timeout no chain is built with any of its roles, whatever is
  // recorded meanwhile on any breaker. The timeout runs from the attempt that reaches the
  // threshold; unparseable answers and refusals do not count.
  lemma ProviderSuppressed(c: Config, b: Breakers, provider: string, uses: seq<Use>, later: seq<Use>,
                           roles: seq<string>, m: Efforts, usable: string -> bool, nows: seq<int>) returns (k: nat)
    requires Valid(c, RowOf(b, provider)) && RowOf(b, provider).state == Closed
    requires NeverAnswers(provider, uses)
    requires RowOf(b, provider).failures + Failures(provider, uses) >= c.failureThreshold
    ensures k < |uses| && ReachesThreshold(c, b, provider, uses, k)
    ensures InTime(c, provider, uses, k, later, roles, m, nows) ==>
              forall e :: e in Built(c, RecordAll(c, b, uses + later), roles, m, usable, nows) ==>
                            e in m && m[e].provider != provider
  {
    NoAnswerNoSuccess(provider, uses);
    FailuresAreStrikes(provider, uses);
    var j := StrikesSuppress(c, b, provider, uses, later, roles, m, usable, nows);
    k := UseBehind(provider, uses, j);
    FailuresAreStrikes(provider, uses[..k + 1]);
    if InTime(c, provider, uses, k, later, roles, m, nows) {
      InTimeForEvents(c, provider, uses, k, j, later, roles, m, nows);
    }
  }

  lemma InTimeForEvents(c: Config, provider: string, uses: seq<Use>, k: nat, j: nat, later: seq<Use>,
                        roles: seq<string>, m: Efforts, nows: seq<int>)
    requires k < |uses| && uses[k].Tried? && InTime(c, provider, uses, k, later, roles, m, nows)
    requires j < |EventsFor(provider, uses)| && EventsFor(provider, uses)[j] == EventIn(uses[k])
    requires EventsFor(provider, uses)[j].Failed?
    requires EventsFor(provider, uses[..k + 1]) == EventsFor(provider, uses)[..j + 1]
    ensures WithinTimeout(c, provider, uses, j, later, roles, m, nows)
  {
    var es, until := EventsFor(provider, uses), uses[k].link.now + c.recoveryTimeout;
    assert uses == uses[..k + 1] + uses[k + 1..];
    EventsSplit(provider, uses[..k + 1], uses[k + 1..]);
    assert es[j + 1..] == EventsFor(provider, uses[k + 1..]);
    EventsSplit(provider, uses[k + 1..], later);
    QuestionsWithin(provider, uses[k + 1..] + later, until);
  }

  lemma {:induction false} QuestionsWithin(provider: string, uses: seq<Use>, until: int)
    requires forall u :: u in uses && u.Question? && u.provider == provider ==> u.now <= until
    ensures forall e :: e in EventsFor(provider, uses) && e.Asked? ==> e.now <= until
  {
    if uses != [] {
      assert uses[|uses| - 1] in uses;
      QuestionsWithin(provider, uses[..|uses| - 1], until);
    }
  }

  // The same on the events of the breaker: the timeout runs from the k-th of them.
  lemma StrikesSuppress(c: Config, b: Breakers, provider: string, uses: seq<Use>, later: seq<Use>,
                        roles: seq<string>, m: Efforts, usable: string -> bool, nows: seq<int>) returns (k: nat)
    requires Valid(c, RowOf(b, provider)) && RowOf(b, provider).state == Closed
    requires forall e :: e in EventsFor(provider, uses) ==> !e.Succeeded?
    requires RowOf(b, provider).failures + Strikes(EventsFor(provider, uses)) >= c.failureThreshold
    ensures k < |EventsFor(provider, uses)| && Opens(c, RowOf(b, provider), EventsFor(provider, uses), k)
    ensures WithinTimeout(c, provider, uses, k, later, roles, m, nows) ==>
              forall e :: e in Built(c, RecordAll(c, b, uses + later), roles, m, usable, nows) ==>
                            e in m && m[e].provider != provider
  {
    k := StrikesOpen(c, RowOf(b, provider), EventsFor(provider, uses));
    if WithinTimeout(c, provider, uses, k, later, roles, m, nows) {
      StaysOpen(c, b, provider, uses, k, later, roles, m, nows);
      BlockedProviderIsLeftOut(c, RecordAll(c, b, uses + later), roles, m, usable, nows, provider);
    }
  }

  // A request for these roles that, like every question on the provider's breaker after its
  // opening, comes within the timeout.
  predicate WithinTimeout(c: Config, provider: string, uses: seq<Use>, k: nat, later: seq<Use>,
                          roles: seq<string>, m: Efforts, nows: seq<int>) {
    var es := EventsFor(provider, uses);
    && k < |es| && es[k].Failed?
    && |nows| == |roles| && (forall e :: e in roles ==> e in m)
    && (forall e :: e in es[k + 1..] + EventsFor(provider, later) && e.Asked? ==>
                      e.now <= es[k].now + c.recoveryTimeout)
    && (forall now :: now in nows ==> now <= es[k].now + c.recoveryTimeout)
  }

  lemma StaysOpen(c: Config, b: Breakers, provider: string, uses: seq<Use>, k: nat, later: seq<Use>,
                  roles: seq<string>, m: Efforts, nows: seq<int>)
    requires WithinTimeout(c, provider, uses, k, later, roles, m, nows)
    requires Opens(c, RowOf(b, provider), EventsFor(provider, uses), k)
    ensures var r := RowOf(RecordAll(c, b, uses + later), provider);
            r.state == Open && r.openedAt == Some(EventsFor(provider, uses)[k].now)
  {
    var es, after := EventsFor(provider, uses), EventsFor(provider, later);
    var r, rest := AfterAll(c, RowOf(b, provider), es[..k + 1]), es[k + 1..] + after;
    RecordSplit(c, b, uses, later);
    OneEventPerAttempt(c, b, uses, provider);
    OneEventPerAttempt(c, RecordAll(c, b, uses), later, provider);
    AfterSplit(c, RowOf(b, provider), es[..k + 1], es[k + 1..]);
    AfterSplit(c, r, es[k + 1..], after);
    assert es == es[..k + 1] + es[k + 1..];
    BlocksWholeTimeout(c, r, rest, es[k].now + c.recoveryTimeout);
  }

  // An answer wipes the failures of a closed breaker.
  lemma AnswerWipes(c: Config, b: Breakers, l: Link)
    requires l.attempt.Answered? && RowOf(b, l.provider).state == Closed
    ensures RowOf(Record(c, b, Tried(l)), l.provider) == RowOf(b, l.provider).(failures := 0)
  {
    SuccessWipes(c, RowOf(b, l.provider));
  }

  // Unparseable answers and refusals, however many, never count toward opening.
  lemma {:induction false} ParseFailuresNeverOpen(c: Config, b: Breakers, links: seq<Link>, provider: string)
    requires forall l :: l in links && l.provider == provider ==>
               l.attempt == Xibi(ParseFailure) || l.attempt == Xibi(Refused)
    ensures var r, r' := RowOf(b, provider), RowOf(RecordAll(c, b, Tries(links)), provider);
            r'.state == r.state && r'.failures == r.failures && r'.successes == r.successes && r'.openedAt == r.openedAt
  {
    if links != [] {
      assert links[|links| - 1] in links;
      ParseFailuresNeverOpen(c, b, links[..|links| - 1], provider);
      assert Tries(links)[..|links| - 1] == Tries(links[..|links| - 1]);
    }
  }
}
