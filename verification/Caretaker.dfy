// The caretaker's pulses: every check reports its findings, and the drift table decides which
// of them are new.
module Caretaker {
  import opened Wrappers

  datatype Finding = Finding(check: string, severity: string, key: string)

  // What a check does in one pulse.
  datatype Check = Raised | Produced(findings: seq<Finding>)

  // A row of caretaker_drift_state.
  datatype Row = Row(check: string, severity: string, first: int, last: int, accepted: Option<int>)

  type Rows = map<string, Row>

  datatype Status = Clean | Resolved | Repeat | Findings | Error

  function Rank(s: Status): nat {
    match s
    case Clean => 0
    case Resolved => 1
    case Repeat => 2
    case Findings => 3
    case Error => 4
  }

  function Bump(status: Status, s: Status): Status {
    if Rank(s) > Rank(status) then s else status
  }

  function Flatten(checks: seq<Check>): seq<Finding> {
    if checks == [] then []
    else
      var c := checks[|checks| - 1];
      Flatten(checks[..|checks| - 1]) + if c.Raised? then [] else c.findings
  }

  function Keys(findings: seq<Finding>): set<string> {
    set f | f in findings :: f.key
  }

  function SetOf(keys: seq<string>): set<string> {
    set k | k in keys
  }

  // The keys that the checks of a pulse report; a check that raises reports none.
  function Observed(checks: seq<Check>): set<string> {
    Keys(Flatten(checks))
  }

  // The drift table after one finding has been looked at.
  function Look(rows: Rows, f: Finding, now: int): Rows {
    if f.key !in rows then rows[f.key := Row(f.check, f.severity, now, now, None)]
    else if rows[f.key].accepted.Some? then rows
    else rows[f.key := rows[f.key].(last := now)]
  }

  function LookAll(rows: Rows, findings: seq<Finding>, now: int): Rows {
    if findings == [] then rows
    else Look(LookAll(rows, findings[..|findings| - 1], now), findings[|findings| - 1], now)
  }

  function Only(rows: Rows, keys: set<string>): Rows {
    map k | k in rows && k in keys :: rows[k]
  }

  function Pulsed(rows: Rows, checks: seq<Check>, now: int): Rows {
    Only(LookAll(rows, Flatten(checks), now), Observed(checks))
  }

  // The findings whose key is neither in the table nor reported earlier in the pulse.
  function News(rows: Rows, findings: seq<Finding>): seq<Finding> {
    if findings == [] then []
    else
      var init, f := findings[..|findings| - 1], findings[|findings| - 1];
      News(rows, init) + if f.key in rows || f.key in Keys(init) then [] else [f]
  }

  // The other findings, unless accepted.
  function Repeats(rows: Rows, findings: seq<Finding>): seq<Finding> {
    if findings == [] then []
    else
      var init, f := findings[..|findings| - 1], findings[|findings| - 1];
      var silent := if f.key in rows then rows[f.key].accepted.Some? else f.key !in Keys(init);
      Repeats(rows, init) + if silent then [] else [f]
  }

  // The worst of what happened.
  predicate Worst(status: Status, checks: seq<Check>, news: seq<Finding>,
                  repeats: seq<Finding>, resolved: set<string>) {
    && (status == Error <==> Raised in checks)
    && (status == Findings <==> Raised !in checks && news != [])
    && (status == Repeat <==> Raised !in checks && news == [] && repeats != [])
    && (status == Resolved <==> Raised !in checks && news == [] && repeats == [] && resolved != {})
  }

  datatype PulseResult = PulseResult(status: Status, findings: seq<Finding>,
                                     repeats: seq<Finding>, resolved: seq<string>)

  class DriftState {
    var rows: Rows

    constructor ()
      ensures rows == map[]
    {
      rows := map[];
    }

    predicate SeenBefore(key: string)
      reads this
    {
      key in rows
    }

    predicate IsAccepted(key: string)
      reads this
    {
      key in rows && rows[key].accepted.Some?
    }

    // INSERT OR IGNORE.
    method RecordFinding(f: Finding, now: int)
      modifies this
      ensures rows == if f.key in old(rows) then old(rows)
                      else old(rows)[f.key := Row(f.check, f.severity, now, now, None)]
    {
      if f.key !in rows { rows := rows[f.key := Row(f.check, f.severity, now, now, None)]; }
    }

    method Touch(key: string, now: int)
      modifies this
      ensures rows == if key in old(rows) then old(rows)[key := old(rows)[key].(last := now)] else old(rows)
    {
      if key in rows { rows := rows[key := rows[key].(last := now)]; }
    }

    method Resolve(key: string)
      modifies this
      ensures rows == old(rows) - {key}
    {
      rows := rows - {key};
    }

    method Accept(key: string, now: int)
      modifies this
      ensures rows == AcceptedRow(old(rows), key, now)
    {
      if key in rows { rows := rows[key := rows[key].(accepted := Some(now))]; }
    }

    function ActiveKeys(): set<string>
      reads this
    {
      rows.Keys
    }

    method Pulse(checks: seq<Check>, now: int) returns (r: PulseResult)
      modifies this
      ensures rows == Pulsed(old(rows), checks, now)
      ensures r.findings == News(old(rows), Flatten(checks))
      ensures r.repeats == Repeats(old(rows), Flatten(checks))
      ensures SetOf(r.resolved) == old(rows).Keys - Observed(checks)
      ensures Worst(r.status, checks, r.findings, r.repeats, old(rows).Keys - Observed(checks))
    {
      var status, all := RunChecks(checks);
      var news, repeats;
      status, news, repeats := Sort(all, now, status);
      LookAllKeys(old(rows), all, now);
      var resolved;
      status, resolved := ResolveGone(Keys(all), status);
      r := PulseResult(status, news, repeats, resolved);
    }

    method RunChecks(checks: seq<Check>) returns (status: Status, all: seq<Finding>)
      ensures all == Flatten(checks)
      ensures status == if Raised in checks then Error else Clean
    {
      status, all := Clean, [];
      for i := 0 to |checks|
        invariant all == Flatten(checks[..i])
        invariant status == if Raised in checks[..i] then Error else Clean
      {
        assert checks[..i + 1][..i] == checks[..i];
        assert checks[..i + 1] == checks[..i] + [checks[i]];
        match checks[i] {
          case Raised => status := Bump(status, Error);
          case Produced(findings) => all := all + findings;
        }
      }
      assert checks[..|checks|] == checks;
    }

    method Sort(all: seq<Finding>, now: int, start: Status)
      returns (status: Status, news: seq<Finding>, repeats: seq<Finding>)
      modifies this
      ensures rows == LookAll(old(rows), all, now)
      ensures news == News(old(rows), all) && repeats == Repeats(old(rows), all)
      ensures status == Bump(Bump(start, if news != [] then Findings else Clean),
                             if repeats != [] then Repeat else Clean)
    {
      status, news, repeats := start, [], [];
      for i := 0 to |all|
        invariant rows == LookAll(old(rows), all[..i], now)
        invariant news == News(old(rows), all[..i]) && repeats == Repeats(old(rows), all[..i])
        invariant status == Bump(Bump(start, if news != [] then Findings else Clean),
                                 if repeats != [] then Repeat else Clean)
      {
        assert all[..i + 1][..i] == all[..i];
        LookAllKeys(old(rows), all[..i], now);
        LookAllAccepts(old(rows), all[..i], now, all[i].key);
        var f := all[i];
        var kind := LookAt(f, now);
        if kind == Findings { news := news + [f]; }
        if kind == Repeat { repeats := repeats + [f]; }
        status := Bump(status, kind);
      }
      assert all[..|all|] == all;
    }

    // One finding: new, repeated, or (when it is accepted) nothing worth a status.
    method LookAt(f: Finding, now: int) returns (kind: Status)
      modifies this
      ensures rows == Look(old(rows), f, now)
      ensures kind == if f.key !in old(rows) then Findings
                      else if old(rows)[f.key].accepted.Some? then Clean else Repeat
    {
      kind := Clean;
      if !SeenBefore(f.key) {
        RecordFinding(f, now);
        kind := Findings;
      } else if !IsAccepted(f.key) {
        Touch(f.key, now);
        kind := Repeat;
      }
    }

    method ResolveGone(observed: set<string>, start: Status) returns (status: Status, resolved: seq<string>)
      modifies this
      ensures rows == Only(old(rows), observed)
      ensures SetOf(resolved) == old(rows).Keys - observed
      ensures status == if old(rows).Keys - observed == {} then start else Bump(start, Resolved)
    {
      status, resolved := start, [];
      var gone := ActiveKeys() - observed;
      while gone != {}
        invariant Resolving(old(rows), rows, observed, gone, resolved)
        invariant status == if resolved == [] then start else Bump(start, Resolved)
        decreases |gone|
      {
        var k :| k in gone;
        ResolvingOne(old(rows), rows, observed, gone, resolved, k);
        Resolve(k);
        gone := gone - {k};
        resolved := resolved + [k];
        status := Bump(status, Resolved);
      }
      AllResolved(old(rows), rows, observed, resolved);
    }
  }

  lemma SetGrows(keys: seq<string>, k: string)
    ensures SetOf(keys + [k]) == SetOf(keys) + {k}
  {
  }

  // `gone` is what is left to resolve of the rows before.
  predicate Resolving(before: Rows, rows: Rows, observed: set<string>, gone: set<string>, resolved: seq<string>) {
    && Only(rows, observed) == Only(before, observed)
    && rows.Keys - observed == gone
    && SetOf(resolved) + gone == before.Keys - observed
  }

  lemma ResolvingOne(before: Rows, rows: Rows, observed: set<string>, gone: set<string>,
                     resolved: seq<string>, k: string)
    requires Resolving(before, rows, observed, gone, resolved) && k in gone
    ensures Resolving(before, rows - {k}, observed, gone - {k}, resolved + [k])
  {
    SetGrows(resolved, k);
    assert Only(rows - {k}, observed) == Only(rows, observed);
  }

  lemma AllResolved(before: Rows, rows: Rows, observed: set<string>, resolved: seq<string>)
    requires Resolving(before, rows, observed, {}, resolved)
    ensures rows == Only(before, observed) && SetOf(resolved) == before.Keys - observed
    ensures resolved == [] <==> before.Keys - observed == {}
  {
    assert forall k :: k in rows && k !in observed ==> k in rows.Keys - observed;
    assert rows == Only(rows, observed);
    assert SetOf(resolved) + {} == SetOf(resolved);
    if resolved != [] { assert resolved[0] in SetOf(resolved); }
  }

  function AcceptedRow(rows: Rows, key: string, now: int): Rows {
    if key in rows then rows[key := rows[key].(accepted := Some(now))] else rows
  }

  lemma {:induction false} LookAllKeys(rows: Rows, findings: seq<Finding>, now: int)
    ensures LookAll(rows, findings, now).Keys == rows.Keys + Keys(findings)
  {
    if findings != [] {
      var init, f := findings[..|findings| - 1], findings[|findings| - 1];
      LookAllKeys(rows, init, now);
      KeysGrow(init, f);
      assert findings == init + [f];
    }
  }

  lemma {:induction false} LookAllAccepts(rows: Rows, findings: seq<Finding>, now: int, k: string)
    ensures k in LookAll(rows, findings, now) ==>
              LookAll(rows, findings, now)[k].accepted == if k in rows then rows[k].accepted else None
  {
    if findings != [] {
      LookAllAccepts(rows, findings[..|findings| - 1], now, k);
      LookAllKeys(rows, findings[..|findings| - 1], now);
    }
  }

  // ------------------------------------------------------------------------------------
  // Runs

  // A pulse can end with its process: Interrupted, when `done` findings had been looked at;
  // Unnotified, when all had, and `resolved` of the keys no longer observed had been deleted.
  datatype Event =
    | Pulse(checks: seq<Check>, now: int)
    | Interrupted(checks: seq<Check>, done: nat, now: int)
    | Unnotified(checks: seq<Check>, resolved: set<string>, now: int)
    | Accept(key: string, now: int)

  function First(findings: seq<Finding>, n: nat): seq<Finding> {
    if n <= |findings| then findings[..n] else findings
  }

  function Apply(rows: Rows, e: Event): Rows {
    match e
    case Pulse(checks, now) => Pulsed(rows, checks, now)
    case Interrupted(checks, done, now) => LookAll(rows, First(Flatten(checks), done), now)
    case Unnotified(checks, resolved, now) => LookAll(rows, Flatten(checks), now) - (resolved - Observed(checks))
    case Accept(key, now) => AcceptedRow(rows, key, now)
  }

  function ApplyAll(events: seq<Event>): Rows {
    if events == [] then map[] else Apply(ApplyAll(events[..|events| - 1]), events[|events| - 1])
  }

  // What the last finished pulse reported, and what unfinished ones have looked at since, but
  // not what they have resolved.
  function Tracked(events: seq<Event>): set<string> {
    if events == [] then {}
    else
      var init, e := events[..|events| - 1], events[|events| - 1];
      match e
      case Pulse(checks, _) => Observed(checks)
      case Interrupted(checks, done, _) => Tracked(init) + Keys(First(Flatten(checks), done))
      case Unnotified(checks, resolved, _) => Tracked(init) - resolved + Observed(checks)
      case Accept(_, _) => Tracked(init)
  }

  lemma {:induction false} TableHoldsTracked(events: seq<Event>)
    ensures ApplyAll(events).Keys == Tracked(events)
  {
    if events != [] {
      var init, e := events[..|events| - 1], events[|events| - 1];
      TableHoldsTracked(init);
      match e {
        case Pulse(checks, now) => LookAllKeys(ApplyAll(init), Flatten(checks), now);
        case Interrupted(checks, done, now) => LookAllKeys(ApplyAll(init), First(Flatten(checks), done), now);
        case Unnotified(checks, _, now) => LookAllKeys(ApplyAll(init), Flatten(checks), now);
        case Accept(_, _) =>
      }
    }
  }

  predicate DistinctKeys(findings: seq<Finding>) {
    findings == []
    || (var init, f := findings[..|findings| - 1], findings[|findings| - 1]; f.key !in Keys(init) && DistinctKeys(init))
  }

  lemma KeysGrow(findings: seq<Finding>, f: Finding)
    ensures Keys(findings + [f]) == Keys(findings) + {f.key}
  {
  }

  lemma SetsGrow(before: set<string>, seen: set<string>, k: string)
    ensures before + {k} - seen == (before - seen) + if k in seen then {} else {k}
  {
  }

  lemma {:induction false} NewsAreUnseen(rows: Rows, findings: seq<Finding>)
    ensures Keys(News(rows, findings)) == Keys(findings) - rows.Keys
  {
    if findings != [] {
      var init, f := findings[..|findings| - 1], findings[|findings| - 1];
      NewsAreUnseen(rows, init);
      assert findings == init + [f];
      KeysGrow(init, f);
      KeysGrow(News(rows, init), f);
      SetsGrow(Keys(init), rows.Keys, f.key);
    }
  }

  lemma {:induction false} NewsAreDistinct(rows: Rows, findings: seq<Finding>)
    ensures DistinctKeys(News(rows, findings))
  {
    if findings != [] {
      var init, f := findings[..|findings| - 1], findings[|findings| - 1];
      NewsAreDistinct(rows, init);
      NewsAreUnseen(rows, init);
      assert News(rows, init) + [] == News(rows, init);
      if f.key !in rows && f.key !in Keys(init) { DistinctGrows(News(rows, init), f); }
    }
  }

  lemma DistinctGrows(news: seq<Finding>, f: Finding)
    requires DistinctKeys(news) && f.key !in Keys(news)
    ensures DistinctKeys(news + [f])
  {
    var all := news + [f];
    assert all[..|all| - 1] == news && all[|all| - 1] == f;
  }

  // A pulse notifies of exactly the keys that it observes and that were not tracked before,
  // each of them once.
  lemma PulseNotifies(events: seq<Event>, checks: seq<Check>)
    ensures var news := News(ApplyAll(events), Flatten(checks));
            && Keys(news) == Observed(checks) - Tracked(events)
            && DistinctKeys(news)
  {
    TableHoldsTracked(events);
    NewsAreUnseen(ApplyAll(events), Flatten(checks));
    NewsAreDistinct(ApplyAll(events), Flatten(checks));
  }

  lemma {:induction false} AcceptsTrackNothing(events: seq<Event>, accepts: seq<Event>)
    requires forall e :: e in accepts ==> e.Accept?
    ensures Tracked(events + accepts) == Tracked(events)
  {
    if accepts == [] {
      assert events + accepts == events;
    } else {
      var init := accepts[..|accepts| - 1];
      assert forall e :: e in init ==> e in accepts;
      AcceptsTrackNothing(events, init);
      assert (events + accepts)[..|events + accepts| - 1] == events + init;
      assert accepts[|accepts| - 1] in accepts;
    }
  }

  // Between two finished pulses with nothing but acceptances in between, the notified keys are
  // the difference of what they observed.
  lemma NotifiesTheDifference(events: seq<Event>, earlier: Event, accepts: seq<Event>, checks: seq<Check>)
    requires earlier.Pulse? && forall e :: e in accepts ==> e.Accept?
    ensures Keys(News(ApplyAll(events + [earlier] + accepts), Flatten(checks)))
         == Observed(checks) - Observed(earlier.checks)
  {
    AcceptsTrackNothing(events + [earlier], accepts);
    assert (events + [earlier])[..|events|] == events;
    PulseNotifies(events + [earlier] + accepts, checks);
  }

  // The event deletes the row of the key, if there is one.
  predicate Forgets(e: Event, k: string) {
    match e
    case Pulse(checks, _) => k !in Observed(checks)
    case Unnotified(checks, resolved, _) => k in resolved && k !in Observed(checks)
    case _ => false
  }

  // The key was accepted in event i, while tracked, and no pulse since has resolved it: each
  // one that got that far reported it.
  predicate AcceptedSince(events: seq<Event>, k: string, i: nat) {
    && i < |events|
    && events[i].Accept? && events[i].key == k
    && k in Tracked(events[..i])
    && forall j :: i < j < |events| ==> !Forgets(events[j], k)
  }

  predicate IsSilent(rows: Rows, k: string) {
    k in rows && rows[k].accepted.Some?
  }

  lemma EarlierAcceptance(events: seq<Event>, k: string, i: nat)
    requires events != [] && i < |events| - 1
    ensures var init, e := events[..|events| - 1], events[|events| - 1];
            AcceptedSince(events, k, i) <==> AcceptedSince(init, k, i) && !Forgets(e, k)
  {
    assert events[..|events| - 1][..i] == events[..i];
  }

  lemma AcceptanceStep(rows: Rows, e: Event, k: string)
    ensures IsSilent(Apply(rows, e), k) <==>
            || (IsSilent(rows, k) && !Forgets(e, k))
            || (e.Accept? && e.key == k && k in rows)
  {
    match e {
      case Pulse(checks, now) =>
        LookAllKeys(rows, Flatten(checks), now);
        LookAllAccepts(rows, Flatten(checks), now, k);
      case Interrupted(checks, done, now) =>
        LookAllKeys(rows, First(Flatten(checks), done), now);
        LookAllAccepts(rows, First(Flatten(checks), done), now, k);
      case Unnotified(checks, _, now) =>
        LookAllKeys(rows, Flatten(checks), now);
        LookAllAccepts(rows, Flatten(checks), now, k);
      case Accept(_, _) =>
    }
  }

  // Over any run: a key is silent exactly while it has been observed without a break since the
  // operator accepted it.
  lemma {:induction false} AcceptanceLastsWhileObserved(events: seq<Event>, k: string)
    ensures IsSilent(ApplyAll(events), k) <==> exists i: nat :: AcceptedSince(events, k, i)
  {
    if events != [] {
      var init, e := events[..|events| - 1], events[|events| - 1];
      AcceptanceLastsWhileObserved(init, k);
      TableHoldsTracked(init);
      AcceptanceStep(ApplyAll(init), e, k);
      if IsSilent(ApplyAll(events), k) {
        if e.Accept? && e.key == k && k in Tracked(init) {
          assert AcceptedSince(events, k, |init|);
        } else {
          var i: nat :| AcceptedSince(init, k, i);
          EarlierAcceptance(events, k, i);
        }
      }
      if i: nat :| AcceptedSince(events, k, i) {
        if i < |init| { EarlierAcceptance(events, k, i); }
      }
    }
  }

  lemma {:induction false} ObservedByACheck(checks: seq<Check>, k: string)
    ensures k in Observed(checks) <==> exists c :: c in checks && c.Produced? && k in Keys(c.findings)
  {
    if checks != [] {
      var init, c := checks[..|checks| - 1], checks[|checks| - 1];
      ObservedByACheck(init, k);
      assert checks == init + [c];
      var own := if c.Raised? then [] else c.findings;
      assert Flatten(checks) == Flatten(init) + own;
      assert Keys(Flatten(init) + own) == Keys(Flatten(init)) + Keys(own);
    }
  }

  // When the one check that reports a key raises, the key is forgotten, acceptance included: the
  // next pulse that observes it notifies of it again.
  lemma RaisedCheckRenotifies(events: seq<Event>, earlier: Event, accepts: seq<Event>, checks: seq<Check>, k: string)
    requires earlier.Pulse? && forall e :: e in accepts ==> e.Accept?
    requires forall c :: c in earlier.checks ==> c.Raised? || k !in Keys(c.findings)
    requires k in Observed(checks)
    ensures k in Keys(News(ApplyAll(events + [earlier] + accepts), Flatten(checks)))
    ensures !IsSilent(ApplyAll(events + [earlier]), k)
  {
    ObservedByACheck(earlier.checks, k);
    NotifiesTheDifference(events, earlier, accepts, checks);
    TableHoldsTracked(events + [earlier]);
  }

  // A pulse that never got to notify looked at the key.
  predicate LookedAt(e: Event, k: string) {
    match e
    case Interrupted(checks, done, _) => k in Keys(First(Flatten(checks), done))
    case Unnotified(checks, _, _) => k in Observed(checks)
    case _ => false
  }

  // One of these pulses looked at the key, and none after it resolved it.
  predicate Held(cuts: seq<Event>, k: string) {
    cuts != [] &&
    var init, e := cuts[..|cuts| - 1], cuts[|cuts| - 1];
    LookedAt(e, k) || (!Forgets(e, k) && Held(init, k))
  }

  lemma {:induction false} UntrackedUnlessHeld(events: seq<Event>, cuts: seq<Event>, k: string)
    requires k !in Tracked(events) && forall e :: e in cuts ==> !e.Pulse?
    ensures k in Tracked(events + cuts) <==> Held(cuts, k)
  {
    if cuts == [] {
      assert events + cuts == events;
    } else {
      var init, e := cuts[..|cuts| - 1], cuts[|cuts| - 1];
      assert e in cuts && forall e :: e in init ==> e in cuts;
      UntrackedUnlessHeld(events, init, k);
      assert (events + cuts)[..|events + cuts| - 1] == events + init;
    }
  }

  // A key that the last finished pulse did not observe and this one does: its notification is
  // missed exactly when an unfinished pulse in between looked at it and none after resolved it.
  lemma NotificationMissedIff(events: seq<Event>, earlier: Event, cuts: seq<Event>, checks: seq<Check>, k: string)
    requires earlier.Pulse? && k !in Observed(earlier.checks) && forall e :: e in cuts ==> !e.Pulse?
    requires k in Observed(checks)
    ensures k !in Keys(News(ApplyAll(events + [earlier] + cuts), Flatten(checks))) <==> Held(cuts, k)
  {
    assert (events + [earlier])[..|events|] == events;
    UntrackedUnlessHeld(events + [earlier], cuts, k);
    PulseNotifies(events + [earlier] + cuts, checks);
  }

  // A key first looked at in such a pulse is tracked without having been notified, and no pulse
  // notifies of it while it goes on being observed.
  lemma {:induction false} InterruptedPulseSwallows(events: seq<Event>, cut: Event, pulses: seq<Event>,
                                                    later: seq<Check>, k: string)
    requires LookedAt(cut, k)
    requires forall p :: p in pulses ==> p.Pulse? && k in Observed(p.checks)
    ensures k !in Keys(News(ApplyAll(events + [cut] + pulses), Flatten(later)))
  {
    var before := events + [cut];
    PulseNotifies(before + pulses, later);
    if pulses == [] {
      assert before + pulses == before && before[..|events|] == events;
    } else {
      assert pulses[|pulses| - 1] in pulses;
    }
  }
}
