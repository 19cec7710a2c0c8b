// What one pulse makes of each of its findings, and what the drift table says of each key, over
// any run of pulses.
module CaretakerFindings {
  import opened Wrappers
  import opened Caretaker

  lemma {:induction false} FlattenIs(checks: seq<Check>, f: Finding)
    ensures f in Flatten(checks) <==> exists c :: c in checks && c.Produced? && f in c.findings
  {
    if checks != [] {
      var init, c := checks[..|checks| - 1], checks[|checks| - 1];
      FlattenIs(init, f);
      assert forall d :: d in checks <==> d in init || d == c;
    }
  }

  // ------------------------------------------------------------------------------------
  // New, repeated and silent

  // Some finding before the last one of this list has its key.
  predicate SeenEarlier(findings: seq<Finding>, j: nat)
    requires j < |findings|
  {
    exists i :: 0 <= i < j && findings[i].key == findings[j].key
  }

  lemma SeenEarlierIs(findings: seq<Finding>)
    requires findings != []
    ensures SeenEarlier(findings, |findings| - 1) <==>
            findings[|findings| - 1].key in Keys(findings[..|findings| - 1])
  {
    var init, f := findings[..|findings| - 1], findings[|findings| - 1];
    if f.key in Keys(init) {
      var g :| g in init && g.key == f.key;
      var i :| 0 <= i < |init| && init[i] == g;
      assert findings[i].key == f.key;
    }
    if SeenEarlier(findings, |findings| - 1) {
      var i :| 0 <= i < |init| && findings[i].key == f.key;
      assert init[i] in init;
    }
  }

  // How many findings have an accepted key.
  function Silenced(rows: Rows, findings: seq<Finding>): nat {
    if findings == [] then 0
    else
      Silenced(rows, findings[..|findings| - 1]) + if IsSilent(rows, findings[|findings| - 1].key) then 1 else 0
  }

  // Each finding is new, repeated or silent, and only one of these.
  lemma {:induction false} FindingsArePartitioned(rows: Rows, findings: seq<Finding>)
    ensures |News(rows, findings)| + |Repeats(rows, findings)| + Silenced(rows, findings) == |findings|
  {
    if findings != [] { FindingsArePartitioned(rows, findings[..|findings| - 1]); }
  }

  // New: its key is neither stored nor seen before in the pulse. Repeated: it is one of these, and
  // the key is not accepted.
  lemma {:induction false} FindingGoesTo(rows: Rows, findings: seq<Finding>, j: nat)
    requires j < |findings|
    ensures findings[j].key !in rows && !SeenEarlier(findings, j) ==> findings[j] in News(rows, findings)
    ensures (findings[j].key in rows || SeenEarlier(findings, j)) && !IsSilent(rows, findings[j].key) ==>
              findings[j] in Repeats(rows, findings)
  {
    var init := findings[..|findings| - 1];
    if j < |init| {
      assert SeenEarlier(init, j) <==> SeenEarlier(findings, j);
      FindingGoesTo(rows, init, j);
    } else {
      SeenEarlierIs(findings);
    }
  }

  lemma {:induction false} RepeatsComeFrom(rows: Rows, findings: seq<Finding>)
    ensures forall f :: f in Repeats(rows, findings) ==>
              f in findings && !IsSilent(rows, f.key)
              && exists j :: 0 <= j < |findings| && findings[j] == f && (f.key in rows || SeenEarlier(findings, j))
  {
    if findings != [] {
      var init, last := findings[..|findings| - 1], findings[|findings| - 1];
      RepeatsComeFrom(rows, init);
      SeenEarlierIs(findings);
      forall f | f in Repeats(rows, findings)
        ensures f in findings && !IsSilent(rows, f.key)
                && exists j :: 0 <= j < |findings| && findings[j] == f && (f.key in rows || SeenEarlier(findings, j))
      {
        if f in Repeats(rows, init) {
          var j :| 0 <= j < |init| && init[j] == f && (f.key in rows || SeenEarlier(init, j));
          assert findings[j] == f && (SeenEarlier(init, j) ==> SeenEarlier(findings, j));
        } else {
          assert findings[|init|] == f;
        }
      }
    }
  }

  // After any run: a pulse lists no finding as a repeat whose key the operator has accepted and
  // that has been observed ever since, and it lists all others that are tracked.
  lemma AcceptedIsNotRepeated(events: seq<Event>, checks: seq<Check>, f: Finding)
    requires f in Flatten(checks) && f.key in Tracked(events)
    ensures f in Repeats(ApplyAll(events), Flatten(checks)) <==> !exists i: nat :: AcceptedSince(events, f.key, i)
    ensures f !in News(ApplyAll(events), Flatten(checks))
  {
    var rows, findings := ApplyAll(events), Flatten(checks);
    TableHoldsTracked(events);
    AcceptanceLastsWhileObserved(events, f.key);
    RepeatsComeFrom(rows, findings);
    var j :| 0 <= j < |findings| && findings[j] == f;
    FindingGoesTo(rows, findings, j);
    assert forall g :: g in News(rows, findings) ==> g.key in Keys(News(rows, findings));
    PulseNotifies(events, checks);
  }

  // A pulse that observes accepted keys only has nothing to say about them.
  lemma AcceptedPulseIsQuiet(events: seq<Event>, checks: seq<Check>)
    requires forall k :: k in Observed(checks) ==> exists i: nat :: AcceptedSince(events, k, i)
    ensures News(ApplyAll(events), Flatten(checks)) == [] && Repeats(ApplyAll(events), Flatten(checks)) == []
  {
    var rows, findings := ApplyAll(events), Flatten(checks);
    forall k | k in Observed(checks) ensures IsSilent(rows, k) { AcceptanceLastsWhileObserved(events, k); }
    AllSilenced(rows, findings);
    FindingsArePartitioned(rows, findings);
  }

  lemma {:induction false} AllSilenced(rows: Rows, findings: seq<Finding>)
    requires forall k :: k in Keys(findings) ==> IsSilent(rows, k)
    ensures Silenced(rows, findings) == |findings|
  {
    if findings != [] {
      var init, f := findings[..|findings| - 1], findings[|findings| - 1];
      assert findings == init + [f];
      KeysGrow(init, f);
      AllSilenced(rows, init);
    }
  }

  // ------------------------------------------------------------------------------------
  // What the table says

  // The first finding of a list that has this key.
  predicate FirstWith(findings: seq<Finding>, k: string, j: nat) {
    j < |findings| && findings[j].key == k && forall i :: 0 <= i < j ==> findings[i].key != k
  }

  // One look at some findings: a key that was not stored gets a row from its first finding; a
  // stored row keeps check, severity, first time and acceptance; and unless accepted the row says
  // when the key was last observed.
  lemma {:induction false} LookAllRow(rows: Rows, findings: seq<Finding>, now: int, k: string)
    ensures var after := LookAll(rows, findings, now);
            && (k in after <==> k in rows || k in Keys(findings))
            && (k in rows ==>
                  after[k] == if k in Keys(findings) && rows[k].accepted.None? then rows[k].(last := now) else rows[k])
            && (k !in rows && k in after ==>
                  exists j: nat :: FirstWith(findings, k, j)
                                   && after[k] == Row(findings[j].check, findings[j].severity, now, now, None))
  {
    if findings != [] {
      var init, f := findings[..|findings| - 1], findings[|findings| - 1];
      assert findings == init + [f];
      KeysGrow(init, f);
      LookAllRow(rows, init, now, k);
      var mid := LookAll(rows, init, now);
      if k !in rows && k in mid {
        var j: nat :| FirstWith(init, k, j) && mid[k] == Row(init[j].check, init[j].severity, now, now, None);
        assert FirstWith(findings, k, j);
      } else if k !in mid && k == f.key {
        assert forall g :: g in init ==> g.key in Keys(init);
        assert FirstWith(findings, k, |init|);
      }
    }
  }

  // What an event looks at, and when.
  function Looked(e: Event): seq<Finding> {
    match e
    case Pulse(checks, _) => Flatten(checks)
    case Interrupted(checks, done, _) => First(Flatten(checks), done)
    case Unnotified(checks, _, _) => Flatten(checks)
    case Accept(_, _) => []
  }

  // Event i, which first observed the key since it was last resolved, gave it its row.
  ghost predicate FirstSeen(events: seq<Event>, k: string, i: nat, row: Row) {
    && i < |events| && !events[i].Accept? && k !in Tracked(events[..i])
    && (exists j: nat :: FirstWith(Looked(events[i]), k, j) && row.check == Looked(events[i])[j].check
                         && row.severity == Looked(events[i])[j].severity)
    && row.first == events[i].now
    && forall j :: i < j < |events| ==> !Forgets(events[j], k)
  }

  lemma FirstSeenLater(events: seq<Event>, e: Event, k: string, i: nat, row: Row, row': Row)
    requires FirstSeen(events, k, i, row) && !Forgets(e, k)
    requires row'.check == row.check && row'.severity == row.severity && row'.first == row.first
    ensures FirstSeen(events + [e], k, i, row')
  {
    assert (events + [e])[..i] == events[..i];
  }

  lemma AppliedRow(rows: Rows, e: Event, k: string)
    requires k in Apply(rows, e)
    ensures !Forgets(e, k)
    ensures var row := Apply(rows, e)[k];
            if k in rows
            then row.check == rows[k].check && row.severity == rows[k].severity && row.first == rows[k].first
            else
              && !e.Accept? && row.first == e.now
              && exists j: nat :: FirstWith(Looked(e), k, j) && row.check == Looked(e)[j].check
                                  && row.severity == Looked(e)[j].severity
  {
    if !e.Accept? { LookAllRow(rows, Looked(e), e.now, k); }
  }

  // Over any run a row tells which check first reported its key since it was last resolved, how
  // severe, and when.
  lemma {:induction false} RowsTellTheFirst(events: seq<Event>, k: string)
    requires k in ApplyAll(events)
    ensures exists i: nat :: FirstSeen(events, k, i, ApplyAll(events)[k])
  {
    var init, e := events[..|events| - 1], events[|events| - 1];
    assert events == init + [e];
    TableHoldsTracked(init);
    AppliedRow(ApplyAll(init), e, k);
    var row := ApplyAll(events)[k];
    if k in ApplyAll(init) {
      RowsTellTheFirst(init, k);
      var i: nat :| FirstSeen(init, k, i, ApplyAll(init)[k]);
      FirstSeenLater(init, e, k, i, ApplyAll(init)[k], row);
    } else {
      assert events[..|init|] == init;
      assert FirstSeen(events, k, |init|, row);
    }
  }

  // A finished pulse leaves each key it observes, and no other, with the time of the pulse, unless
  // the key is accepted: then its row stays as it is.
  lemma PulseTouches(events: seq<Event>, checks: seq<Check>, now: int, k: string)
    ensures var before, after := ApplyAll(events), ApplyAll(events + [Event.Pulse(checks, now)]);
            && (k in after <==> k in Observed(checks))
            && (k in after && !IsSilent(before, k) ==> after[k].last == now)
            && (k in after && IsSilent(before, k) ==> after[k] == before[k])
  {
    assert (events + [Event.Pulse(checks, now)])[..|events|] == events;
    LookAllRow(ApplyAll(events), Flatten(checks), now, k);
  }
}
