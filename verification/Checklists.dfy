// Recurring checklists: each firing makes a new instance from the template and rolls what is
// still open in the previous one over, by the policy of the template.
module Checklists {
  import opened Wrappers

  datatype TemplateItem = TemplateItem(id: string, name: string, position: int)

  // completedAt is None while the item is open. origin is bookkeeping of the model: it numbers
  // the copies made from templates, and a rolled copy keeps the number of the item it copies.
  datatype Item = Item(templateItem: string, name: string, position: int, completedAt: Option<int>,
                       prompted: bool, origin: int)

  datatype Status = Opened | Closed | Expired

  datatype Instance = Instance(createdAt: int, status: Status, items: seq<Item>)

  datatype Policy = Expire | RollForward | Nag | Confirm

  // The instances of one template, in order of insertion.
  type Instances = seq<Instance>

  function FromTemplate(template: seq<TemplateItem>, born: nat): (r: seq<Item>)
    ensures |r| == |template|
    ensures forall i :: 0 <= i < |r| ==> r[i].origin == born + i && r[i].completedAt.None?
  {
    if template == [] then []
    else
      var n := |template| - 1;
      FromTemplate(template[..n], born)
      + [Item(template[n].id, template[n].name, template[n].position, None, false, born + n)]
  }

  function Open(items: seq<Item>): seq<Item> {
    if items == [] then []
    else
      var item := items[|items| - 1];
      Open(items[..|items| - 1]) + if item.completedAt.None? then [item] else []
  }

  // The copies that a rollover makes.
  function Rolled(items: seq<Item>): (r: seq<Item>)
    ensures |r| == |items|
    ensures forall i :: 0 <= i < |r| ==> r[i].origin == items[i].origin && r[i].completedAt.None?
  {
    if items == [] then []
    else
      var item := items[|items| - 1];
      Rolled(items[..|items| - 1]) + [Item(item.templateItem, item.name, item.position, None, false, item.origin)]
  }

  function Prompted(items: seq<Item>): seq<Item> {
    if items == [] then []
    else
      var item := items[|items| - 1];
      Prompted(items[..|items| - 1]) + [if item.completedAt.None? then item.(prompted := true) else item]
  }

  // ORDER BY created_at DESC LIMIT 1 among the instances other than `skip`.
  function Latest(instances: Instances, skip: nat): (r: Option<nat>)
    ensures r.Some? ==> r.value < |instances| && r.value != skip
  {
    if instances == [] then None
    else
      var n, earlier := |instances| - 1, Latest(instances[..|instances| - 1], skip);
      if n == skip then earlier
      else if earlier.Some? && instances[earlier.value].createdAt > instances[n].createdAt then earlier
      else Some(n)
  }

  // The new instance is the last one.
  function RolledOver(instances: Instances, policy: Policy, now: int): Instances
    requires instances != []
  {
    var n := |instances| - 1;
    var prev := Latest(instances, n);
    if prev.None? || Open(instances[prev.value].items) == [] then instances
    else
      var previous := instances[prev.value];
      match policy
      case Expire => instances[prev.value := previous.(status := Expired)]
      case Nag => instances[prev.value := previous.(status := Expired)]
      case RollForward =>
        instances[prev.value := previous.(status := Expired)]
                 [n := instances[n].(items := instances[n].items + Rolled(Open(previous.items)))]
      case Confirm => instances[prev.value := previous.(items := Prompted(previous.items))]
  }

  function Fired(instances: Instances, template: seq<TemplateItem>, born: nat, now: int): Instances {
    instances + [Instance(now, Opened, FromTemplate(template, born))]
  }

  // completedAt: Some(now) for "done", None for anything else.
  function Updated(instances: Instances, k: nat, i: nat, completedAt: Option<int>): Instances
    requires k < |instances| && i < |instances[k].items|
  {
    var items := instances[k].items[i := instances[k].items[i].(completedAt := completedAt)];
    instances[k := instances[k].(items := items, status := if Open(items) == [] then Closed else instances[k].status)]
  }

  // How an item is named: exactly one of the two must be given.
  datatype Selector = Selector(position: Option<int>, hint: Option<string>)

  datatype UpdateResult = Done(position: int, name: string, closed: bool) | ValueError

  // The row that the query returns: for a position, any row that has it.
  predicate Finds(items: seq<Item>, s: Selector, found: Option<nat>) {
    && (found.Some? ==> found.value < |items|)
    && (s.position.Some? ==>
          if found.Some? then found.value < |items| && items[found.value].position == s.position.value
          else forall i :: 0 <= i < |items| ==> items[i].position != s.position.value)
  }

  class Checklist {
    var instances: Instances
    var born: nat

    constructor ()
      ensures instances == [] && born == 0
    {
      instances, born := [], 0;
    }

    method HandleFireRecurrence(template: seq<TemplateItem>, policy: Policy, now: int)
      modifies this
      ensures instances == RolledOver(Fired(old(instances), template, old(born), now), policy, now)
      ensures born == old(born) + |template|
    {
      Instantiate(template, now);
      HandleRollover(|instances| - 1, policy, now);
    }

    method Instantiate(template: seq<TemplateItem>, now: int)
      modifies this
      ensures instances == Fired(old(instances), template, old(born), now)
      ensures born == old(born) + |template|
    {
      var items := [];
      for i := 0 to |template|
        invariant items == FromTemplate(template[..i], born)
        invariant instances == old(instances) && born == old(born)
      {
        assert template[..i + 1][..i] == template[..i];
        items := items + [Item(template[i].id, template[i].name, template[i].position, None, false, born + i)];
      }
      assert template[..|template|] == template;
      instances, born := instances + [Instance(now, Opened, items)], born + |template|;
    }

    method HandleRollover(n: nat, policy: Policy, now: int)
      requires n == |instances| - 1
      modifies `instances
      ensures instances == RolledOver(old(instances), policy, now)
    {
      var prev := Latest(instances, n);
      if prev.None? { return; }
      var k := prev.value;
      var open := Open(instances[k].items);
      if open == [] { return; }
      match policy {
        case RollForward =>
          var items := instances[n].items;
          for i := 0 to |open|
            invariant items == instances[n].items + Rolled(open[..i])
            invariant instances == old(instances)
          {
            assert open[..i + 1][..i] == open[..i];
            items := items + [Item(open[i].templateItem, open[i].name, open[i].position, None, false, open[i].origin)];
          }
          assert open[..|open|] == open;
          instances := instances[k := instances[k].(status := Expired)][n := instances[n].(items := items)];
        case Confirm => instances := instances[k := instances[k].(items := Prompted(instances[k].items))];
        case _ => instances := instances[k := instances[k].(status := Expired)];
      }
    }

    method UpdateItem(k: nat, s: Selector, found: Option<nat>, done: bool, now: int) returns (r: UpdateResult)
      requires k < |instances| && Finds(instances[k].items, s, found)
      modifies `instances
      ensures s.position.Some? == s.hint.Some? || found.None? ==> r == ValueError && instances == old(instances)
      ensures s.position.Some? != s.hint.Some? && found.Some? ==>
                && instances == Updated(old(instances), k, found.value, if done then Some(now) else None)
                && var item := old(instances)[k].items[found.value];
                   r == Done(item.position, item.name, Open(instances[k].items) == [])
      // Only the time of that item changes, and the status once nothing is open any more.
      ensures r.Done? ==>
                && |instances| == |old(instances)| && (forall j :: 0 <= j < |instances| && j != k ==>
                                                         instances[j] == old(instances)[j])
                && instances[k].status == (if r.closed then Closed else old(instances)[k].status)
                && var item := old(instances)[k].items[found.value].(completedAt := if done then Some(now) else None);
                   instances[k].items == old(instances)[k].items[found.value := item]
    {
      if s.position.Some? == s.hint.Some? || found.None? { return ValueError; }
      var i := found.value;
      var item := instances[k].items[i];
      var items := instances[k].items[i := item.(completedAt := if done then Some(now) else None)];
      instances := instances[k := instances[k].(items := items)];
      var closed := Open(items) == [];
      if closed { instances := instances[k := instances[k].(status := Closed)]; }
      return Done(item.position, item.name, closed);
    }
  }

  // ------------------------------------------------------------------------------------
  // Runs of one template

  // finished: the origins completed in what was the newest instance at the time.
  datatype World = World(instances: Instances, born: nat, finished: set<int>)

  datatype Event =
    | Fire(template: seq<TemplateItem>, now: int)
    | FireInterrupted(template: seq<TemplateItem>, now: int)   // the process ends before the rollover
    | Complete(instance: nat, item: nat, now: int)             // "done", in any instance

  function Apply(w: World, policy: Policy, e: Event): World {
    match e
    case Fire(template, now) =>
      w.(instances := RolledOver(Fired(w.instances, template, w.born, now), policy, now), born := w.born + |template|)
    case FireInterrupted(template, now) =>
      w.(instances := Fired(w.instances, template, w.born, now), born := w.born + |template|)
    case Complete(k, i, now) =>
      if k >= |w.instances| || i >= |w.instances[k].items| then w
      else
        w.(instances := Updated(w.instances, k, i, Some(now)),
           finished := w.finished + if k == |w.instances| - 1 && w.instances[k].items[i].completedAt.None?
                                    then {w.instances[k].items[i].origin} else {})
  }

  function ApplyAll(w: World, policy: Policy, events: seq<Event>): World {
    if events == [] then w else Apply(ApplyAll(w, policy, events[..|events| - 1]), policy, events[|events| - 1])
  }

  // What a user sees of an item.
  datatype Content = Content(templateItem: string, name: string, position: int)

  function Contents(items: seq<Item>): seq<Content> {
    if items == [] then []
    else
      var item := items[|items| - 1];
      Contents(items[..|items| - 1]) + [Content(item.templateItem, item.name, item.position)]
  }

  function TemplateContents(template: seq<TemplateItem>): seq<Content> {
    if template == [] then []
    else
      var t := template[|template| - 1];
      TemplateContents(template[..|template| - 1]) + [Content(t.id, t.name, t.position)]
  }

  function Origins(items: seq<Item>): set<int> {
    set item | item in items :: item.origin
  }

  predicate DistinctOrigins(items: seq<Item>) {
    forall i, j :: 0 <= i < j < |items| ==> items[i].origin != items[j].origin
  }

  function NewestItems(instances: Instances): seq<Item> {
    if instances == [] then [] else instances[|instances| - 1].items
  }

  function Below(n: nat): (r: set<int>)
    ensures forall o :: o in r <==> 0 <= o < n
  {
    if n == 0 then {} else Below(n - 1) + {n - 1}
  }

  function Outstanding(w: World): set<int> {
    Below(w.born) - w.finished
  }

  // Created one after the other, at different times.
  predicate InOrder(instances: Instances) {
    instances == []
    || (var init := instances[..|instances| - 1];
        InOrder(init) && forall k :: 0 <= k < |init| ==> init[k].createdAt < instances[|init|].createdAt)
  }

  // Each item made from a template and not completed in its newest copy is open in the newest
  // instance, once, and nothing else is.
  predicate Conserved(w: World) {
    && Origins(Open(NewestItems(w.instances))) == Outstanding(w)
    && DistinctOrigins(Open(NewestItems(w.instances)))
    && w.finished <= Below(w.born)
  }

  lemma {:induction false} LatestIsPrevious(instances: Instances, now: Instance)
    requires InOrder(instances)
    ensures Latest(instances + [now], |instances|) == if instances == [] then None else Some(|instances| - 1)
  {
    var all := instances + [now];
    assert all[..|instances|] == instances;
    LatestIsLast(instances, |instances|);
  }

  lemma {:induction false} LatestIsLast(instances: Instances, skip: nat)
    requires InOrder(instances) && skip >= |instances|
    ensures Latest(instances, skip) == if instances == [] then None else Some(|instances| - 1)
  {
    if instances != [] { LatestIsLast(instances[..|instances| - 1], skip); }
  }

  lemma {:induction false} OpenConcat(a: seq<Item>, b: seq<Item>)
    ensures Open(a + b) == Open(a) + Open(b)
  {
    if b == [] {
      assert a + b == a;
    } else {
      OpenConcat(a, b[..|b| - 1]);
      assert (a + b)[..|a + b| - 1] == a + b[..|b| - 1];
    }
  }

  lemma {:induction false} ContentsConcat(a: seq<Item>, b: seq<Item>)
    ensures Contents(a + b) == Contents(a) + Contents(b)
  {
    if b == [] {
      assert a + b == a;
    } else {
      ContentsConcat(a, b[..|b| - 1]);
      assert (a + b)[..|a + b| - 1] == a + b[..|b| - 1];
    }
  }

  lemma {:induction false} FreshItems(template: seq<TemplateItem>, born: nat)
    ensures Contents(FromTemplate(template, born)) == TemplateContents(template)
  {
    if template != [] {
      var n := |template| - 1;
      FreshItems(template[..n], born);
      var items := FromTemplate(template, born);
      assert items[..n] == FromTemplate(template[..n], born);
    }
  }

  lemma {:induction false} AllOpen(items: seq<Item>)
    requires forall i :: 0 <= i < |items| ==> items[i].completedAt.None?
    ensures Open(items) == items
  {
    if items != [] { AllOpen(items[..|items| - 1]); }
  }

  lemma {:induction false} RolledItems(items: seq<Item>)
    ensures Contents(Rolled(items)) == Contents(items)
  {
    if items != [] {
      RolledItems(items[..|items| - 1]);
      assert Rolled(items)[..|items| - 1] == Rolled(items[..|items| - 1]);
    }
  }

  // What one firing leaves in the newest instance, when it comes later than all before.
  lemma NewestAfterFiring(instances: Instances, template: seq<TemplateItem>, born: nat, policy: Policy, now: int)
    requires InOrder(instances)
    ensures var r := RolledOver(Fired(instances, template, born, now), policy, now);
            var carried := if policy == RollForward then Open(NewestItems(instances)) else [];
            |r| == |instances| + 1 && NewestItems(r) == FromTemplate(template, born) + Rolled(carried)
  {
    LatestIsPrevious(instances, Instance(now, Opened, FromTemplate(template, born)));
    assert FromTemplate(template, born) + [] == FromTemplate(template, born);
  }

  // The open items after a roll-forward firing are the template's and then the ones that were
  // open before, each as often as it was: positions and names may well collide.
  lemma FiringConservesContents(instances: Instances, template: seq<TemplateItem>, born: nat, now: int)
    requires InOrder(instances)
    ensures Contents(Open(NewestItems(RolledOver(Fired(instances, template, born, now), RollForward, now))))
            == TemplateContents(template) + Contents(Open(NewestItems(instances)))
  {
    var carried := Open(NewestItems(instances));
    NewestAfterFiring(instances, template, born, RollForward, now);
    AllOpen(FromTemplate(template, born) + Rolled(carried));
    FreshItems(template, born);
    RolledItems(carried);
    ContentsConcat(FromTemplate(template, born), Rolled(carried));
  }

  lemma OriginsConcat(a: seq<Item>, b: seq<Item>)
    ensures Origins(a + b) == Origins(a) + Origins(b)
  {
  }

  lemma OwnOrigins(template: seq<TemplateItem>, born: nat)
    ensures Origins(FromTemplate(template, born)) == Below(born + |template|) - Below(born)
  {
    var own := FromTemplate(template, born);
    forall o | born <= o < born + |template| ensures o in Origins(own) { assert own[o - born] in own; }
  }

  lemma RolledOrigins(items: seq<Item>)
    ensures Origins(Rolled(items)) == Origins(items)
  {
    var rolled := Rolled(items);
    forall o | o in Origins(items) ensures o in Origins(rolled) {
      var i :| 0 <= i < |items| && items[i].origin == o;
      assert rolled[i] in rolled;
    }
    forall o | o in Origins(rolled) ensures o in Origins(items) {
      var i :| 0 <= i < |rolled| && rolled[i].origin == o;
      assert items[i] in items;
    }
  }

  lemma CarriedDistinct(template: seq<TemplateItem>, born: nat, carried: seq<Item>)
    requires DistinctOrigins(carried) && Origins(carried) <= Below(born)
    ensures DistinctOrigins(FromTemplate(template, born) + Rolled(carried))
  {
    forall j | 0 <= j < |carried| ensures carried[j].origin < born {
      assert carried[j].origin in Origins(carried);
    }
  }

  lemma CarriedItems(template: seq<TemplateItem>, born: nat, carried: seq<Item>)
    requires DistinctOrigins(carried) && Origins(carried) <= Below(born)
    ensures var open := Open(FromTemplate(template, born) + Rolled(carried));
            DistinctOrigins(open) && Origins(open) == (Below(born + |template|) - Below(born)) + Origins(carried)
  {
    AllOpen(FromTemplate(template, born) + Rolled(carried));
    CarriedDistinct(template, born, carried);
    OriginsConcat(FromTemplate(template, born), Rolled(carried));
    OwnOrigins(template, born);
    RolledOrigins(carried);
  }

  lemma NoOrigins(items: seq<Item>)
    ensures Origins(items) == {} <==> items == []
  {
    if items != [] { assert items[0].origin in Origins(items); }
  }

  // A new instance of the template's items and the carried ones conserves what is outstanding
  // exactly when all open items are carried.
  lemma ConservedIffCarried(w: World, w': World, template: seq<TemplateItem>, carried: seq<Item>)
    requires Conserved(w) && w'.finished == w.finished && w'.born == w.born + |template|
    requires NewestItems(w'.instances) == FromTemplate(template, w.born) + Rolled(carried)
    requires carried == [] || carried == Open(NewestItems(w.instances))
    ensures Conserved(w') <==> carried == Open(NewestItems(w.instances))
  {
    CarriedItems(template, w.born, carried);
    NoOrigins(Open(NewestItems(w.instances)));
    assert Outstanding(w') == (Below(w'.born) - Below(w.born)) + Outstanding(w);
    assert Outstanding(w) !! (Below(w'.born) - Below(w.born));
  }

  // A firing, under any policy, conserves the outstanding items exactly when it carries them or
  // has none to carry.
  lemma FiringConservesIff(w: World, template: seq<TemplateItem>, policy: Policy, now: int)
    requires InOrder(w.instances) && Conserved(w)
    ensures Conserved(Apply(w, policy, Fire(template, now)))
       <==> policy == RollForward || Open(NewestItems(w.instances)) == []
  {
    NewestAfterFiring(w.instances, template, w.born, policy, now);
    ConservedIffCarried(w, Apply(w, policy, Fire(template, now)), template,
                        if policy == RollForward then Open(NewestItems(w.instances)) else []);
  }

  // A firing that ends between the two transactions conserves them exactly when none was open:
  // the next rollover looks at the instance made last, not at the one left behind.
  lemma InterruptedFiringConservesIff(w: World, template: seq<TemplateItem>, policy: Policy, now: int)
    requires Conserved(w)
    ensures Conserved(Apply(w, policy, FireInterrupted(template, now))) <==> Open(NewestItems(w.instances)) == []
  {
    assert FromTemplate(template, w.born) + Rolled([]) == FromTemplate(template, w.born);
    ConservedIffCarried(w, Apply(w, policy, FireInterrupted(template, now)), template, []);
  }

  lemma RemoveOne(a: seq<Item>, item: Item, b: seq<Item>)
    requires DistinctOrigins(a + [item] + b)
    ensures DistinctOrigins(a + b)
    ensures Origins(a + b) == Origins(a + [item] + b) - {item.origin}
    ensures item.origin in Origins(a + [item] + b)
  {
    var all := a + [item] + b;
    assert all[|a|] == item;
    assert forall k :: 0 <= k < |a + b| ==> (a + b)[k] == if k < |a| then all[k] else all[k + 1];
    forall i, j | 0 <= i < j < |a + b| ensures (a + b)[i].origin != (a + b)[j].origin {
      assert all[if i < |a| then i else i + 1].origin != all[if j < |a| then j else j + 1].origin;
    }
    OriginsConcat(a + [item], b);
    OriginsConcat(a, [item]);
    OriginsConcat(a, b);
    forall o | o in Origins(a + b) ensures o != item.origin {
      var k :| 0 <= k < |a + b| && (a + b)[k].origin == o;
      assert all[if k < |a| then k else k + 1].origin != all[|a|].origin;
    }
  }

  // The open items before and after an item is completed.
  lemma OpenAround(a: seq<Item>, item: Item, b: seq<Item>)
    ensures Open(a + [item] + b) == Open(a) + (if item.completedAt.None? then [item] else []) + Open(b)
  {
    OpenConcat(a + [item], b);
    OpenConcat(a, [item]);
    assert Open([item]) == if item.completedAt.None? then [item] else [];
  }

  // Completing one of the items, all of different origins, takes its origin away and no other.
  lemma OpenUpdated(items: seq<Item>, i: nat, now: int)
    requires i < |items| && DistinctOrigins(Open(items))
    ensures var items' := items[i := items[i].(completedAt := Some(now))];
            && DistinctOrigins(Open(items'))
            && Origins(Open(items'))
               == Origins(Open(items)) - if items[i].completedAt.None? then {items[i].origin} else {}
    ensures items[i].completedAt.None? ==> items[i].origin in Origins(Open(items))
  {
    var a, item, b := items[..i], items[i], items[i + 1..];
    var item' := item.(completedAt := Some(now));
    assert items == a + [item] + b && items[i := item'] == a + [item'] + b;
    OpenAround(a, item, b);
    OpenAround(a, item', b);
    assert Open(a) + [] + Open(b) == Open(a) + Open(b);
    if item.completedAt.None? { RemoveOne(Open(a), item, Open(b)); }
  }

  lemma CompletingConserves(w: World, policy: Policy, k: nat, i: nat, now: int)
    requires Conserved(w)
    ensures Conserved(Apply(w, policy, Complete(k, i, now)))
  {
    if k == |w.instances| - 1 && i < |w.instances[k].items| {
      var items := w.instances[k].items;
      OpenUpdated(items, i, now);
    }
  }

  // Statuses, items and times of other instances do not matter to the order of creation.
  lemma {:induction false} SameTimesInOrder(a: Instances, b: Instances)
    requires InOrder(a) && |a| == |b| && forall k :: 0 <= k < |a| ==> a[k].createdAt == b[k].createdAt
    ensures InOrder(b)
  {
    if a != [] { SameTimesInOrder(a[..|a| - 1], b[..|b| - 1]); }
  }

  // Every firing comes later than the instances before it, finishes, and rolls forward.
  predicate Later(instances: Instances, now: int) {
    forall k :: 0 <= k < |instances| ==> instances[k].createdAt < now
  }

  ghost predicate Regular(w: World, events: seq<Event>) {
    forall k :: 0 <= k < |events| ==>
      && !events[k].FireInterrupted?
      && (events[k].Fire? ==> Later(ApplyAll(w, RollForward, events[..k]).instances, events[k].now))
  }

  lemma EventKeepsOrder(w: World, e: Event)
    requires InOrder(w.instances) && !e.FireInterrupted? && (e.Fire? ==> Later(w.instances, e.now))
    ensures InOrder(Apply(w, RollForward, e).instances)
  {
    var after := Apply(w, RollForward, e).instances;
    match e {
      case Fire(template, now) =>
        var fired := Fired(w.instances, template, w.born, now);
        assert fired[..|w.instances|] == w.instances;
        SameTimesInOrder(fired, after);
      case Complete(k, i, now) => SameTimesInOrder(w.instances, after);
      case FireInterrupted(_, _) =>
    }
  }

  // Over any run of firings and completions with the policy roll_forward: each item ever made
  // and not completed in its newest copy has exactly one open copy in the newest instance.
  lemma {:induction false} RunsConserve(w: World, events: seq<Event>)
    requires InOrder(w.instances) && Conserved(w) && Regular(w, events)
    ensures InOrder(ApplyAll(w, RollForward, events).instances) && Conserved(ApplyAll(w, RollForward, events))
  {
    if events != [] {
      var init, e := events[..|events| - 1], events[|events| - 1];
      assert forall k :: 0 <= k < |init| ==> init[..k] == events[..k];
      RunsConserve(w, init);
      var before := ApplyAll(w, RollForward, init);
      assert !e.FireInterrupted? && (e.Fire? ==> Later(before.instances, e.now));
      EventKeepsOrder(before, e);
      match e {
        case Fire(template, now) => FiringConservesIff(before, template, RollForward, now);
        case Complete(k, i, now) => CompletingConserves(before, RollForward, k, i, now);
        case FireInterrupted(_, _) =>
      }
    }
  }

  // In particular from a template that has never fired.
  lemma RunsFromNothingConserve(events: seq<Event>)
    requires Regular(World([], 0, {}), events)
    ensures Conserved(ApplyAll(World([], 0, {}), RollForward, events))
  {
    RunsConserve(World([], 0, {}), events);
  }
}
