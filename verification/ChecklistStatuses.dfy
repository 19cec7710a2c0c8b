// When an instance of a checklist is open, closed or expired, over any run of firings, interrupted
// ones included, and completions.
module ChecklistStatuses {
  import opened Wrappers
  import opened Checklists

  // How many instances some events make.
  function Made(events: seq<Event>): nat {
    if events == [] then 0
    else Made(events[..|events| - 1]) + if events[|events| - 1].Complete? then 0 else 1
  }

  // The instances whose successor was made by a firing that got to its rollover.
  function RolledOn(events: seq<Event>): set<int> {
    if events == [] then {}
    else
      var init := events[..|events| - 1];
      RolledOn(init) + if events[|events| - 1].Fire? && Made(init) > 0 then {Made(init) - 1} else {}
  }

  // Every firing comes later than the instances before it.
  ghost predicate OnTime(policy: Policy, events: seq<Event>) {
    forall k :: 0 <= k < |events| && !events[k].Complete? ==>
      Later(ApplyAll(World([], 0, {}), policy, events[..k]).instances, events[k].now)
  }

  predicate HasOpen(items: seq<Item>) {
    exists i :: 0 <= i < |items| && items[i].completedAt.None?
  }

  // Closed when all its items are completed, whatever happened before; expired while something is
  // open in it and it has been rolled over, unless the policy is to confirm; open otherwise.
  predicate StatusFits(policy: Policy, rolled: bool, x: Instance) {
    x.status == if x.items == [] then Opened
                else if !HasOpen(x.items) then Closed
                else if rolled && policy != Confirm then Expired
                else Opened
  }

  // The user has been asked about exactly the open items that a rollover has left behind under
  // that policy.
  predicate PromptsFit(policy: Policy, rolled: bool, x: Instance) {
    forall i :: 0 <= i < |x.items| && x.items[i].completedAt.None? ==>
                  (x.items[i].prompted <==> rolled && policy == Confirm)
  }

  predicate InstanceFits(policy: Policy, rolled: bool, x: Instance) {
    StatusFits(policy, rolled, x) && PromptsFit(policy, rolled, x)
  }

  predicate AllFit(policy: Policy, events: seq<Event>, instances: Instances) {
    && |instances| == Made(events)
    && forall k :: 0 <= k < |instances| ==> InstanceFits(policy, k in RolledOn(events), instances[k])
  }

  lemma {:induction false} OpenIs(items: seq<Item>)
    ensures Open(items) == [] <==> !HasOpen(items)
  {
    if items != [] {
      var init, last := items[..|items| - 1], items[|items| - 1];
      OpenIs(init);
      if HasOpen(init) {
        var i :| 0 <= i < |init| && init[i].completedAt.None?;
        assert items[i].completedAt.None?;
      }
      if last.completedAt.None? { assert items[|init|].completedAt.None?; }
    }
  }

  lemma {:induction false} RolledOnBelow(events: seq<Event>)
    ensures forall k :: k in RolledOn(events) ==> 0 <= k < Made(events) - 1
  {
    if events != [] { RolledOnBelow(events[..|events| - 1]); }
  }

  // ------------------------------------------------------------------------------------
  // Completing an item

  lemma CompletedFits(policy: Policy, rolled: bool, x: Instance, i: nat, now: int)
    requires InstanceFits(policy, rolled, x) && i < |x.items|
    ensures var items := x.items[i := x.items[i].(completedAt := Some(now))];
            InstanceFits(policy, rolled, x.(items := items, status := if Open(items) == [] then Closed else x.status))
  {
    var items := x.items[i := x.items[i].(completedAt := Some(now))];
    OpenIs(items);
    if HasOpen(items) {
      var j :| 0 <= j < |items| && items[j].completedAt.None?;
      assert x.items[j].completedAt.None?;
    }
  }

  // ------------------------------------------------------------------------------------
  // Firing

  lemma {:induction false} FreshFits(policy: Policy, template: seq<TemplateItem>, born: nat, now: int)
    ensures InstanceFits(policy, false, Instance(now, Opened, FromTemplate(template, born)))
    ensures forall i :: 0 <= i < |template| ==> !FromTemplate(template, born)[i].prompted
  {
    if template != [] {
      FreshFits(policy, template[..|template| - 1], born, now);
      var items := FromTemplate(template, born);
      assert items[..|template| - 1] == FromTemplate(template[..|template| - 1], born);
      assert items[|template| - 1].completedAt.None?;
    }
  }

  lemma {:induction false} RolledAreUnprompted(items: seq<Item>)
    ensures forall i :: 0 <= i < |items| ==> !Rolled(items)[i].prompted
  {
    if items != [] {
      RolledAreUnprompted(items[..|items| - 1]);
      assert Rolled(items)[..|items| - 1] == Rolled(items[..|items| - 1]);
    }
  }

  // The newest instance after a firing, with what has been carried into it.
  lemma NewestFits(policy: Policy, template: seq<TemplateItem>, born: nat, now: int, carried: seq<Item>)
    ensures InstanceFits(policy, false, Instance(now, Opened, FromTemplate(template, born) + Rolled(carried)))
  {
    FreshFits(policy, template, born, now);
    RolledAreUnprompted(carried);
    var items := FromTemplate(template, born) + Rolled(carried);
    if items != [] { assert items[0].completedAt.None?; }
  }

  lemma {:induction false} PromptedIs(items: seq<Item>)
    ensures |Prompted(items)| == |items|
    ensures forall i :: 0 <= i < |items| ==>
              Prompted(items)[i] == if items[i].completedAt.None? then items[i].(prompted := true) else items[i]
  {
    if items != [] {
      PromptedIs(items[..|items| - 1]);
      assert Prompted(items)[..|items| - 1] == Prompted(items[..|items| - 1]);
    }
  }

  // What a rollover makes of the instance it leaves behind.
  function LeftBehind(policy: Policy, x: Instance): Instance {
    if Open(x.items) == [] then x
    else if policy == Confirm then x.(items := Prompted(x.items)) else x.(status := Expired)
  }

  lemma LeftBehindFits(policy: Policy, x: Instance)
    requires InstanceFits(policy, false, x)
    ensures InstanceFits(policy, true, LeftBehind(policy, x))
  {
    OpenIs(x.items);
    PromptedIs(x.items);
    if HasOpen(x.items) {
      var i :| 0 <= i < |x.items| && x.items[i].completedAt.None?;
      assert LeftBehind(policy, x).items[i].completedAt.None?;
    }
  }

  // A firing changes the previous instance so, and adds one.
  lemma FiringIs(instances: Instances, template: seq<TemplateItem>, born: nat, policy: Policy, now: int)
    requires InOrder(instances)
    ensures var r := RolledOver(Fired(instances, template, born, now), policy, now);
            var carried := if policy == RollForward then Open(NewestItems(instances)) else [];
            && |r| == |instances| + 1
            && r[|instances|] == Instance(now, Opened, FromTemplate(template, born) + Rolled(carried))
            && (forall k :: 0 <= k < |instances| - 1 ==> r[k] == instances[k])
            && (instances != [] ==> r[|instances| - 1] == LeftBehind(policy, instances[|instances| - 1]))
  {
    LatestIsPrevious(instances, Instance(now, Opened, FromTemplate(template, born)));
    assert FromTemplate(template, born) + [] == FromTemplate(template, born);
  }

  // ------------------------------------------------------------------------------------
  // Runs

  lemma EventKeepsTimes(w: World, policy: Policy, e: Event)
    requires InOrder(w.instances) && (!e.Complete? ==> Later(w.instances, e.now))
    ensures InOrder(Apply(w, policy, e).instances)
  {
    var after := Apply(w, policy, e).instances;
    match e {
      case Fire(template, now) => FiringKeepsTimes(w.instances, template, w.born, policy, now);
      case FireInterrupted(template, now) => assert after[..|w.instances|] == w.instances;
      case Complete(k, i, now) => SameTimesInOrder(w.instances, after);
    }
  }

  lemma FiringKeepsTimes(instances: Instances, template: seq<TemplateItem>, born: nat, policy: Policy, now: int)
    requires InOrder(instances) && Later(instances, now)
    ensures InOrder(RolledOver(Fired(instances, template, born, now), policy, now))
  {
    var fired := Fired(instances, template, born, now);
    assert fired[..|instances|] == instances;
    SameTimesInOrder(fired, RolledOver(fired, policy, now));
  }

  // The k-th instance after a firing.
  lemma FiredFits(policy: Policy, events: seq<Event>, e: Event, before: Instances, after: Instances, k: nat)
    requires e.Fire? && AllFit(policy, events, before) && k < |after| == |before| + 1
    requires forall j :: 0 <= j < |before| - 1 ==> after[j] == before[j]
    requires before != [] ==> after[|before| - 1] == LeftBehind(policy, before[|before| - 1])
    requires InstanceFits(policy, false, after[|before|])
    ensures InstanceFits(policy, k in RolledOn(events + [e]), after[k])
  {
    assert (events + [e])[..|events|] == events;
    RolledOnBelow(events);
    if k < |before| {
      assert InstanceFits(policy, k in RolledOn(events), before[k]);
      if k == |before| - 1 { LeftBehindFits(policy, before[k]); }
    }
  }

  lemma AllFired(policy: Policy, events: seq<Event>, e: Event, before: Instances, after: Instances)
    requires e.Fire? && AllFit(policy, events, before) && |after| == |before| + 1
    requires forall j :: 0 <= j < |before| - 1 ==> after[j] == before[j]
    requires before != [] ==> after[|before| - 1] == LeftBehind(policy, before[|before| - 1])
    requires InstanceFits(policy, false, after[|before|])
    ensures AllFit(policy, events + [e], after)
  {
    assert (events + [e])[..|events|] == events;
    forall k | 0 <= k < |after| ensures InstanceFits(policy, k in RolledOn(events + [e]), after[k]) {
      FiredFits(policy, events, e, before, after, k);
    }
  }

  lemma FiringFits(w: World, policy: Policy, events: seq<Event>, e: Event)
    requires e.Fire? && InOrder(w.instances) && AllFit(policy, events, w.instances)
    ensures AllFit(policy, events + [e], Apply(w, policy, e).instances)
  {
    FiringIs(w.instances, e.template, w.born, policy, e.now);
    NewestFits(policy, e.template, w.born, e.now, if policy == RollForward then Open(NewestItems(w.instances)) else []);
    AllFired(policy, events, e, w.instances, Apply(w, policy, e).instances);
  }

  lemma InterruptedFits(w: World, policy: Policy, events: seq<Event>, template: seq<TemplateItem>, now: int)
    requires AllFit(policy, events, w.instances)
    ensures AllFit(policy, events + [FireInterrupted(template, now)],
                   Apply(w, policy, FireInterrupted(template, now)).instances)
  {
    var all := events + [FireInterrupted(template, now)];
    assert all[..|events|] == events;
    RolledOnBelow(events);
    FreshFits(policy, template, w.born, now);
  }

  lemma CompleteFits(w: World, policy: Policy, events: seq<Event>, k: nat, i: nat, now: int)
    requires AllFit(policy, events, w.instances)
    ensures AllFit(policy, events + [Complete(k, i, now)], Apply(w, policy, Complete(k, i, now)).instances)
  {
    assert (events + [Complete(k, i, now)])[..|events|] == events;
    if k < |w.instances| && i < |w.instances[k].items| {
      CompletedFits(policy, k in RolledOn(events), w.instances[k], i, now);
    }
  }

  // Over any run, from a template that has never fired and under any policy.
  lemma {:induction false} StatusesFit(policy: Policy, events: seq<Event>)
    requires OnTime(policy, events)
    ensures var w := ApplyAll(World([], 0, {}), policy, events);
            InOrder(w.instances) && AllFit(policy, events, w.instances)
  {
    if events != [] {
      var init, e := events[..|events| - 1], events[|events| - 1];
      assert events == init + [e];
      assert forall k :: 0 <= k < |init| ==> init[..k] == events[..k];
      StatusesFit(policy, init);
      var w := ApplyAll(World([], 0, {}), policy, init);
      assert !e.Complete? ==> Later(ApplyAll(World([], 0, {}), policy, events[..|init|]).instances, e.now);
      EventKeepsTimes(w, policy, e);
      match e {
        case Fire(_, _) => FiringFits(w, policy, init, e);
        case FireInterrupted(template, now) => InterruptedFits(w, policy, init, template, now);
        case Complete(k, i, now) => CompleteFits(w, policy, init, k, i, now);
      }
    }
  }
}
