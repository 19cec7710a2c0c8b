// The session-scoped store of large tool outputs, bounded in count and in bytes.
module Handles {
  import opened Wrappers
  import opened Json

  // size is the length of the JSON text of the payload, which is never empty.
  datatype Entry = Entry(id: string, tool: string, size: nat, at: int, payload: Value)

  datatype ToolHandle = ToolHandle(tool: string, size: nat, at: int)

  datatype Lookup = Found(payload: Value) | Evicted | Unknown

  // ------------------------------------------------------------------------------------
  // What the store should hold

  function Bytes(es: seq<Entry>): nat {
    if es == [] then 0 else es[0].size + Bytes(es[1..])
  }

  // Within both bounds; a single handle is kept whatever its size.
  predicate Fits(es: seq<Entry>, maxHandles: nat, maxBytes: nat) {
    |es| <= 1 || (|es| <= maxHandles && Bytes(es) <= maxBytes)
  }

  // The loop of _evict_if_needed: drop the oldest until the newcomer fits or nothing is left.
  function Evict(live: seq<Entry>, incoming: nat, maxHandles: nat, maxBytes: nat): seq<Entry> {
    if live != [] && (|live| >= maxHandles || Bytes(live) + incoming > maxBytes)
    then Evict(live[1..], incoming, maxHandles, maxBytes)
    else live
  }

  function Push(live: seq<Entry>, e: Entry, maxHandles: nat, maxBytes: nat): seq<Entry> {
    Evict(live, e.size, maxHandles, maxBytes) + [e]
  }

  function Live(history: seq<Entry>, maxHandles: nat, maxBytes: nat): seq<Entry> {
    if history == [] then []
    else Push(Live(history[..|history| - 1], maxHandles, maxBytes), history[|history| - 1], maxHandles, maxBytes)
  }

  lemma {:induction false} BytesAppend(a: seq<Entry>, b: seq<Entry>)
    ensures Bytes(a + b) == Bytes(a) + Bytes(b)
  {
    if a == [] {
      assert a + b == b;
    } else {
      assert (a + b)[1..] == a[1..] + b;
      BytesAppend(a[1..], b);
    }
  }

  // Every suffix of a fitting list fits.
  lemma SuffixFits(es: seq<Entry>, k: nat, maxHandles: nat, maxBytes: nat)
    requires k <= |es| && Fits(es, maxHandles, maxBytes)
    ensures Fits(es[k..], maxHandles, maxBytes)
  {
    assert es == es[..k] + es[k..];
    BytesAppend(es[..k], es[k..]);
  }

  // es[k..] is the longest suffix that fits: it does, and one element more does not.
  predicate LongestFit(es: seq<Entry>, k: nat, maxHandles: nat, maxBytes: nat) {
    && k <= |es|
    && Fits(es[k..], maxHandles, maxBytes)
    && (k > 0 ==> !Fits(es[k - 1..], maxHandles, maxBytes))
  }

  // Eviction removes just enough from the front.
  lemma {:induction false} EvictIsLeast(live: seq<Entry>, e: Entry, maxHandles: nat, maxBytes: nat) returns (k: nat)
    ensures k <= |live| && Push(live, e, maxHandles, maxBytes) == (live + [e])[k..]
    ensures LongestFit(live + [e], k, maxHandles, maxBytes)
  {
    var all := live + [e];
    assert all[0..] == all;
    BytesAppend(live, [e]);
    if live != [] && (|live| >= maxHandles || Bytes(live) + e.size > maxBytes) {
      var k' := EvictIsLeast(live[1..], e, maxHandles, maxBytes);
      k := k' + 1;
      assert all[1..] == live[1..] + [e];
      assert all[k..] == all[1..][k'..];
      if k' > 0 { assert all[k'..] == all[1..][k' - 1..]; }
    } else {
      k := 0;
    }
  }

  lemma LongestFitExtends(history: seq<Entry>, a: nat, b: nat, maxHandles: nat, maxBytes: nat)
    requires history != [] && LongestFit(history[..|history| - 1], a, maxHandles, maxBytes)
    requires LongestFit(history[a..], b, maxHandles, maxBytes)
    ensures LongestFit(history, a + b, maxHandles, maxBytes)
  {
    assert history[a..][b..] == history[a + b..];
    if b > 0 {
      assert history[a..][b - 1..] == history[a + b - 1..];
    } else if a > 0 {
      var longer := history[..|history| - 1][a - 1..];
      assert history[a - 1..] == longer + [history[|history| - 1]];
      BytesAppend(longer, [history[|history| - 1]]);
    }
  }

  // The live handles are the longest suffix of everything created that fits the bounds.
  lemma {:induction false} LiveIsLongestFit(history: seq<Entry>, maxHandles: nat, maxBytes: nat) returns (k: nat)
    ensures LongestFit(history, k, maxHandles, maxBytes)
    ensures Live(history, maxHandles, maxBytes) == history[k..]
    ensures history != [] ==> k < |history|
  {
    k := 0;
    if history != [] {
      var a := LiveIsLongestFit(history[..|history| - 1], maxHandles, maxBytes);
      k := PushIsLongestFit(history, a, maxHandles, maxBytes);
    }
  }

  lemma PushIsLongestFit(history: seq<Entry>, a: nat, maxHandles: nat, maxBytes: nat) returns (k: nat)
    requires history != [] && LongestFit(history[..|history| - 1], a, maxHandles, maxBytes)
    ensures LongestFit(history, k, maxHandles, maxBytes) && k < |history|
    ensures var init := history[..|history| - 1];
            a <= |init| && Push(init[a..], history[|history| - 1], maxHandles, maxBytes) == history[k..]
  {
    var b := PushIsSuffix(history, a, maxHandles, maxBytes);
    LongestFitExtends(history, a, b, maxHandles, maxBytes);
    k := a + b;
  }

  lemma PushIsSuffix(history: seq<Entry>, a: nat, maxHandles: nat, maxBytes: nat) returns (b: nat)
    requires history != [] && a < |history|
    ensures LongestFit(history[a..], b, maxHandles, maxBytes) && a + b < |history|
    ensures Push(history[..|history| - 1][a..], history[|history| - 1], maxHandles, maxBytes) == history[a + b..]
  {
    var live, e := history[..|history| - 1][a..], history[|history| - 1];
    b := EvictIsLeast(live, e, maxHandles, maxBytes);
    PushIsNotEmpty(live, e, maxHandles, maxBytes);
    assert live + [e] == history[a..];
    assert history[a..][b..] == history[a + b..];
  }

  lemma PushIsNotEmpty(live: seq<Entry>, e: Entry, maxHandles: nat, maxBytes: nat)
    ensures Push(live, e, maxHandles, maxBytes) != []
  {
  }

  // The i-th handle created is still there exactly when it and all later ones fit together.
  lemma LiveExactlyWhenFits(history: seq<Entry>, i: nat, maxHandles: nat, maxBytes: nat)
    requires i < |history|
    ensures var k := |history| - |Live(history, maxHandles, maxBytes)|;
            && 0 <= k && Live(history, maxHandles, maxBytes) == history[k..]
            && (k <= i <==> Fits(history[i..], maxHandles, maxBytes))
  {
    var k := LiveIsLongestFit(history, maxHandles, maxBytes);
    if k <= i {
      SuffixFits(history[k..], i - k, maxHandles, maxBytes);
      assert history[k..][i - k..] == history[i..];
    } else {
      assert history[i..][k - 1 - i..] == history[k - 1..];
      if Fits(history[i..], maxHandles, maxBytes) {
        SuffixFits(history[i..], k - 1 - i, maxHandles, maxBytes);
      }
    }
  }

  function FindLast(es: seq<Entry>, id: string): Option<Value> {
    if es == [] then None
    else if es[|es| - 1].id == id then Some(es[|es| - 1].payload)
    else FindLast(es[..|es| - 1], id)
  }

  // What get answers after a list of creations.
  function Get(history: seq<Entry>, id: string, maxHandles: nat, maxBytes: nat): Lookup {
    match FindLast(Live(history, maxHandles, maxBytes), id)
    case Some(p) => Found(p)
    case None => if FindLast(history, id).Some? then Evicted else Unknown
  }

  lemma {:induction false} FindLastIs(es: seq<Entry>, i: nat)
    requires i < |es| && forall m :: i < m < |es| ==> es[m].id != es[i].id
    ensures FindLast(es, es[i].id) == Some(es[i].payload)
  {
    if i < |es| - 1 { FindLastIs(es[..|es| - 1], i); }
  }

  lemma {:induction false} FindLastMisses(es: seq<Entry>, id: string)
    requires forall m :: 0 <= m < |es| ==> es[m].id != id
    ensures FindLast(es, id) == None
  {
    if es != [] { FindLastMisses(es[..|es| - 1], id); }
  }

  // The last handle issued under an id answers for that id: its own payload while it and all
  // later creations fit, and an error ever after.
  lemma LastIssueAnswers(history: seq<Entry>, j: nat, maxHandles: nat, maxBytes: nat)
    requires j < |history|
    requires forall m :: j < m < |history| ==> history[m].id != history[j].id
    ensures Get(history, history[j].id, maxHandles, maxBytes) ==
            if Fits(history[j..], maxHandles, maxBytes) then Found(history[j].payload) else Evicted
  {
    LiveExactlyWhenFits(history, j, maxHandles, maxBytes);
    var live := Live(history, maxHandles, maxBytes);
    var k := |history| - |live|;
    FindLastIs(history, j);
    if k <= j {
      assert live[j - k] == history[j];
      FindLastIs(live, j - k);
    } else {
      FindLastMisses(live, history[j].id);
    }
  }

  // An id that has never been issued is unknown.
  lemma NeverIssuedIsUnknown(history: seq<Entry>, id: string, maxHandles: nat, maxBytes: nat)
    requires forall e :: e in history ==> e.id != id
    ensures Get(history, id, maxHandles, maxBytes) == Unknown
  {
    var k := LiveIsLongestFit(history, maxHandles, maxBytes);
    FindLastMisses(history, id);
    FindLastMisses(history[k..], id);
  }

  // With distinct ids a handle answers its own payload while it and all later creations fit,
  // and raises ever after. It never answers another payload.
  lemma HandleAnswersOwnPayload(history: seq<Entry>, i: nat, maxHandles: nat, maxBytes: nat)
    requires i < |history|
    requires forall m :: 0 <= m < |history| && m != i ==> history[m].id != history[i].id
    ensures Get(history, history[i].id, maxHandles, maxBytes) ==
            if Fits(history[i..], maxHandles, maxBytes) then Found(history[i].payload) else Evicted
  {
    LastIssueAnswers(history, i, maxHandles, maxBytes);
  }

  // What the check of a new id against the live ones comes to: none is issued while an earlier
  // handle of that id is live. An id that has been evicted may be issued again.
  predicate FreshWhenIssued(history: seq<Entry>, maxHandles: nat, maxBytes: nat) {
    forall j, m :: 0 <= j < m < |history| && history[j].id == history[m].id ==>
                     !Fits(history[j..m], maxHandles, maxBytes)
  }

  lemma FittingIsLive(history: seq<Entry>, j: nat, maxHandles: nat, maxBytes: nat)
    requires j < |history|
    ensures Fits(history[j..], maxHandles, maxBytes) ==> history[j].id in Ids(Live(history, maxHandles, maxBytes))
  {
    LiveExactlyWhenFits(history, j, maxHandles, maxBytes);
    var live := Live(history, maxHandles, maxBytes);
    if |history| - |live| <= j {
      assert live[j - (|history| - |live|)] in live;
    }
  }

  lemma LiveFits(history: seq<Entry>, id: string, maxHandles: nat, maxBytes: nat) returns (j: nat)
    requires id in Ids(Live(history, maxHandles, maxBytes))
    ensures j < |history| && history[j].id == id && Fits(history[j..], maxHandles, maxBytes)
  {
    var live := Live(history, maxHandles, maxBytes);
    var e :| e in live && e.id == id;
    var i :| 0 <= i < |live| && live[i] == e;
    var k := LiveIsLongestFit(history, maxHandles, maxBytes);
    j := k + i;
    LiveExactlyWhenFits(history, j, maxHandles, maxBytes);
  }

  lemma FreshWhenNotLive(history: seq<Entry>, e: Entry, maxHandles: nat, maxBytes: nat)
    requires FreshWhenIssued(history, maxHandles, maxBytes)
    ensures FreshWhenIssued(history + [e], maxHandles, maxBytes) <==> e.id !in Ids(Live(history, maxHandles, maxBytes))
  {
    var all := history + [e];
    if e.id in Ids(Live(history, maxHandles, maxBytes)) {
      var j := LiveFits(history, e.id, maxHandles, maxBytes);
      assert all[j..|history|] == history[j..] && all[j].id == all[|history|].id;
    } else {
      StillFresh(history, e, maxHandles, maxBytes);
    }
  }

  lemma StillFresh(history: seq<Entry>, e: Entry, maxHandles: nat, maxBytes: nat)
    requires FreshWhenIssued(history, maxHandles, maxBytes) && e.id !in Ids(Live(history, maxHandles, maxBytes))
    ensures FreshWhenIssued(history + [e], maxHandles, maxBytes)
  {
    var all := history + [e];
    forall j, m | 0 <= j < m < |all| && all[j].id == all[m].id ensures !Fits(all[j..m], maxHandles, maxBytes) {
      if m < |history| {
        assert all[j..m] == history[j..m];
      } else {
        assert all[j..m] == history[j..];
        FittingIsLive(history, j, maxHandles, maxBytes);
      }
    }
  }

  lemma PrefixFits(es: seq<Entry>, k: nat, maxHandles: nat, maxBytes: nat)
    requires k <= |es| && Fits(es, maxHandles, maxBytes)
    ensures Fits(es[..k], maxHandles, maxBytes)
  {
    assert es == es[..k] + es[k..];
    BytesAppend(es[..k], es[k..]);
  }

  // A later handle of the same id, still live, with another payload.
  predicate Superseded(history: seq<Entry>, i: nat, maxHandles: nat, maxBytes: nat)
    requires i < |history|
  {
    exists j :: i < j < |history| && history[j].id == history[i].id
             && Fits(history[j..], maxHandles, maxBytes) && history[j].payload != history[i].payload
  }

  // A reference answers its own payload or raises, except exactly while its id has been issued
  // again and that later handle is live with another payload, which it then answers.
  lemma OwnPayloadIff(history: seq<Entry>, i: nat, maxHandles: nat, maxBytes: nat)
    requires i < |history| && FreshWhenIssued(history, maxHandles, maxBytes)
    ensures Get(history, history[i].id, maxHandles, maxBytes) in {Found(history[i].payload), Evicted}
            <==> !Superseded(history, i, maxHandles, maxBytes)
  {
    var j := LastIssue(history, i);
    LastIssueAnswers(history, j, maxHandles, maxBytes);
    forall m | i < m < |history| && history[m].id == history[i].id && Fits(history[m..], maxHandles, maxBytes)
      ensures m == j
    {
      if m < j { ReissueMeansGone(history, m, j, maxHandles, maxBytes); }
    }
  }

  lemma ReissueMeansGone(history: seq<Entry>, m: nat, j: nat, maxHandles: nat, maxBytes: nat)
    requires m < j < |history| && history[m].id == history[j].id && FreshWhenIssued(history, maxHandles, maxBytes)
    ensures !Fits(history[m..], maxHandles, maxBytes)
  {
    assert history[m..][..j - m] == history[m..j];
    if Fits(history[m..], maxHandles, maxBytes) {
      PrefixFits(history[m..], j - m, maxHandles, maxBytes);
    }
  }

  lemma {:induction false} LastIssue(history: seq<Entry>, i: nat) returns (j: nat)
    requires i < |history|
    ensures i <= j < |history| && history[j].id == history[i].id
    ensures forall m :: j < m < |history| ==> history[m].id != history[i].id
  {
    var n := |history| - 1;
    if history[n].id == history[i].id {
      j := n;
    } else {
      j := LastIssue(history[..n], i);
    }
  }

  // So it happens: an evicted id that is issued again answers the newer payload.
  lemma ReissuedIdAnswersNewer(history: seq<Entry>, i: nat, j: nat, maxHandles: nat, maxBytes: nat)
    requires i < j < |history| && history[i].id == history[j].id
    requires forall m :: j < m < |history| ==> history[m].id != history[i].id
    requires Fits(history[j..], maxHandles, maxBytes)
    ensures Get(history, history[i].id, maxHandles, maxBytes) == Found(history[j].payload)
  {
    LastIssueAnswers(history, j, maxHandles, maxBytes);
  }

  // ------------------------------------------------------------------------------------
  // Identifiers

  predicate IsHex(s: string) {
    forall i :: 0 <= i < |s| ==> '0' <= s[i] <= '9' || 'a' <= s[i] <= 'f'
  }

  // Eight tries with a short suffix, then a longer one that is not checked.
  method GenerateUniqueId(live: set<string>, short: seq<string>, long: string) returns (id: string)
    requires |short| == 8
    ensures id in live ==> id == "h_" + long
    ensures id == "h_" + long || exists i :: 0 <= i < 8 && id == "h_" + short[i] && id !in live
    ensures (exists i :: 0 <= i < 8 && "h_" + short[i] !in live) ==> id !in live
  {
    for i := 0 to 8
      invariant forall j :: 0 <= j < i ==> "h_" + short[j] in live
    {
      id := "h_" + short[i];
      if id !in live { return; }
    }
    id := "h_" + long;
  }

  // ------------------------------------------------------------------------------------
  // The store

  function Without<T>(s: seq<T>, i: nat): seq<T>
    requires i < |s|
  {
    s[..i] + s[i + 1..]
  }

  lemma {:induction false} BytesWithout(es: seq<Entry>, i: nat)
    requires i < |es|
    ensures Bytes(es) == Bytes(Without(es, i)) + es[i].size
  {
    if i == 0 {
      assert Without(es, 0) == es[1..];
    } else {
      BytesWithout(es[1..], i - 1);
      assert Without(es, i)[1..] == Without(es[1..], i - 1);
    }
  }

  // The two dictionaries hold exactly the entries, in this order.
  predicate Mirrors(order: seq<string>, handles: map<string, ToolHandle>, payloads: map<string, Value>,
                    es: seq<Entry>) {
    if es == [] then order == [] && handles == map[] && payloads == map[]
    else
      var e := es[0];
      && order != [] && order[0] == e.id
      && e.id in handles && handles[e.id] == ToolHandle(e.tool, e.size, e.at)
      && e.id in payloads && payloads[e.id] == e.payload
      && Mirrors(order[1..], handles - {e.id}, payloads - {e.id}, es[1..])
  }

  lemma {:induction false} MirrorsCount(order: seq<string>, handles: map<string, ToolHandle>,
                                        payloads: map<string, Value>, es: seq<Entry>)
    requires Mirrors(order, handles, payloads, es)
    ensures |order| == |es| == |handles| == |payloads| && handles.Keys == payloads.Keys
  {
    if es != [] {
      var id := es[0].id;
      MirrorsCount(order[1..], handles - {id}, payloads - {id}, es[1..]);
      assert handles.Keys == (handles - {id}).Keys + {id};
      assert payloads.Keys == (payloads - {id}).Keys + {id};
      assert |handles| == |handles.Keys| && |payloads| == |payloads.Keys|;
      assert |(handles - {id}).Keys| == |handles - {id}| && |(payloads - {id}).Keys| == |payloads - {id}|;
    }
  }

  lemma {:induction false} MirrorsAt(order: seq<string>, handles: map<string, ToolHandle>, payloads: map<string, Value>,
                                     es: seq<Entry>, i: nat)
    requires Mirrors(order, handles, payloads, es) && i < |es|
    ensures var e := es[i];
            && i < |order| && order[i] == e.id
            && e.id in handles && handles[e.id] == ToolHandle(e.tool, e.size, e.at)
            && e.id in payloads && payloads[e.id] == e.payload
    ensures forall j :: 0 <= j < i ==> es[j].id != es[i].id
  {
    if i > 0 {
      MirrorsAt(order[1..], handles - {es[0].id}, payloads - {es[0].id}, es[1..], i - 1);
      assert forall j :: 0 < j < i ==> es[j] == es[1..][j - 1];
    }
  }

  lemma {:induction false} MirrorsWithout(order: seq<string>, handles: map<string, ToolHandle>,
                                          payloads: map<string, Value>,
                                          es: seq<Entry>, i: nat)
    requires Mirrors(order, handles, payloads, es) && i < |es| && i < |order|
    ensures Mirrors(Without(order, i), handles - {es[i].id}, payloads - {es[i].id}, Without(es, i))
  {
    var id, id0 := es[i].id, es[0].id;
    if i == 0 {
      assert Without(order, 0) == order[1..] && Without(es, 0) == es[1..];
    } else {
      MirrorsAt(order, handles, payloads, es, i);
      MirrorsWithout(order[1..], handles - {id0}, payloads - {id0}, es[1..], i - 1);
      assert Without(order, i)[1..] == Without(order[1..], i - 1);
      assert Without(es, i)[1..] == Without(es[1..], i - 1);
      assert handles - {id} - {id0} == handles - {id0} - {id};
      assert payloads - {id} - {id0} == payloads - {id0} - {id};
    }
  }

  lemma {:induction false} MirrorsAppend(order: seq<string>, handles: map<string, ToolHandle>,
                                         payloads: map<string, Value>,
                                         es: seq<Entry>, e: Entry)
    requires Mirrors(order, handles, payloads, es) && e.id !in handles
    ensures Mirrors(order + [e.id], handles[e.id := ToolHandle(e.tool, e.size, e.at)],
                    payloads[e.id := e.payload], es + [e])
  {
    var handles', payloads' := handles[e.id := ToolHandle(e.tool, e.size, e.at)], payloads[e.id := e.payload];
    if es == [] {
      assert handles' - {e.id} == map[] && payloads' - {e.id} == map[];
      assert ([] + [e])[1..] == [] && ([] + [e.id])[1..] == [];
    } else {
      var id := es[0].id;
      MirrorsAppend(order[1..], handles - {id}, payloads - {id}, es[1..], e);
      assert (es + [e])[1..] == es[1..] + [e] && (order + [e.id])[1..] == order[1..] + [e.id];
      assert handles' - {id} == (handles - {id})[e.id := ToolHandle(e.tool, e.size, e.at)];
      assert payloads' - {id} == (payloads - {id})[e.id := e.payload];
    }
  }

  class HandleStore {
    const maxHandles: nat
    const maxTotalBytes: nat
    var order: seq<string>   // the keys of `handles` in insertion order
    var handles: map<string, ToolHandle>
    var payloads: map<string, Value>
    var evictedIds: set<string>
    var totalBytes: int
    ghost var contents: seq<Entry>   // the live entries, oldest first
    ghost var created: seq<Entry>    // everything created so far

    ghost predicate Linked()
      reads this
    {
      Mirrors(order, handles, payloads, contents) && totalBytes == Bytes(contents)
    }

    ghost predicate InTimeOrder()
      reads this
    {
      forall i, j :: 0 <= i < j < |contents| ==> contents[i].at <= contents[j].at
    }

    constructor (maxHandles: nat, maxTotalBytes: nat)
      ensures Linked() && InTimeOrder() && contents == created == [] && evictedIds == {}
      ensures this.maxHandles == maxHandles && this.maxTotalBytes == maxTotalBytes
    {
      this.maxHandles, this.maxTotalBytes := maxHandles, maxTotalBytes;
      order, handles, payloads, evictedIds, totalBytes := [], map[], map[], {}, 0;
      contents, created := [], [];
    }

    // min over the handles by creation time: the first of the oldest.
    method OldestId() returns (id: string, ghost i: nat)
      requires Linked() && order != []
      ensures id in handles && forall k :: k in order ==> k in handles && handles[id].at <= handles[k].at
      ensures i < |contents| && id == contents[i].id
      ensures forall j :: 0 <= j < |contents| ==> contents[i].at <= contents[j].at
      ensures forall j :: 0 <= j < i ==> contents[i].at < contents[j].at
    {
      MirrorsCount(order, handles, payloads, contents);
      MirrorsAt(order, handles, payloads, contents, 0);
      i, id := 0, order[0];
      for j := 1 to |order|
        invariant i < j && id == contents[i].id && id in handles
        invariant forall m :: 0 <= m < j ==> order[m] in handles && handles[id].at <= handles[order[m]].at
        invariant forall m :: 0 <= m < j ==> contents[i].at <= contents[m].at
        invariant forall m :: 0 <= m < i ==> contents[i].at < contents[m].at
      {
        MirrorsAt(order, handles, payloads, contents, i);
        MirrorsAt(order, handles, payloads, contents, j);
        if handles[order[j]].at < handles[id].at { i, id := j, order[j]; }
      }
    }

    // Forgets one handle; an id that is not there is ignored.
    method Drop(id: string, ghost i: nat)
      requires Linked()
      requires id in handles ==> i < |contents| && contents[i].id == id
      modifies `order, `handles, `payloads, `totalBytes, `contents
      ensures Linked()
      ensures if id in old(handles) then contents == Without(old(contents), i) && payloads == old(payloads) - {id}
              else contents == old(contents) && payloads == old(payloads)
    {
      if id !in handles { return; }
      MirrorsCount(order, handles, payloads, contents);
      MirrorsAt(order, handles, payloads, contents, i);
      MirrorsWithout(order, handles, payloads, contents, i);
      BytesWithout(contents, i);
      var at := IndexOf(order, id);
      MirrorsAt(order, handles, payloads, contents, at);
      if at < i { MirrorsAt(order, handles, payloads, contents, i); }
      order := Without(order, at);
      totalBytes := totalBytes - handles[id].size;
      handles := handles - {id};
      totalBytes := if totalBytes < 0 then 0 else totalBytes;
      payloads := payloads - {id};
      contents := Without(contents, i);
    }

    method EvictIfNeeded(incoming: nat)
      requires Linked() && InTimeOrder()
      modifies `order, `handles, `payloads, `totalBytes, `evictedIds, `contents
      ensures Linked() && InTimeOrder()
      ensures contents == Evict(old(contents), incoming, maxHandles, maxTotalBytes)
      ensures evictedIds + payloads.Keys == old(evictedIds + payloads.Keys)
      ensures payloads.Keys <= old(payloads.Keys) && handles.Keys <= old(handles.Keys)
    {
      MirrorsCount(order, handles, payloads, contents);
      while |payloads| >= maxHandles || totalBytes + incoming > maxTotalBytes
        invariant Linked() && InTimeOrder() && |payloads| == |contents|
        invariant Evict(contents, incoming, maxHandles, maxTotalBytes)
               == Evict(old(contents), incoming, maxHandles, maxTotalBytes)
        invariant evictedIds + payloads.Keys == old(evictedIds + payloads.Keys)
        invariant payloads.Keys == handles.Keys <= old(payloads.Keys)
        decreases |contents|
      {
        if |payloads| == 0 { break; }
        EvictOldest();
        MirrorsCount(order, handles, payloads, contents);
      }
      MirrorsCount(order, handles, payloads, contents);
    }

    // The oldest handle goes; its id is remembered.
    method EvictOldest()
      requires Linked() && InTimeOrder() && contents != []
      modifies `order, `handles, `payloads, `totalBytes, `evictedIds, `contents
      ensures Linked() && InTimeOrder() && contents == old(contents)[1..]
      ensures payloads == old(payloads) - {old(contents)[0].id}
      ensures evictedIds == old(evictedIds) + {old(contents)[0].id} && old(contents)[0].id in old(payloads)
    {
      MirrorsCount(order, handles, payloads, contents);
      var oldest, i := OldestId();
      assert i == 0;
      MirrorsAt(order, handles, payloads, contents, 0);
      evictedIds := evictedIds + {oldest};
      Drop(oldest, 0);
    }

    // An id that is not live gets a new entry. The unchecked fallback id may be live: then the
    // entry of that id is replaced where it stands, and its bytes stay in the count.
    method Create(id: string, tool: string, payload: Value, size: nat, now: int) returns (handle: ToolHandle)
      requires Linked() && InTimeOrder()
      requires forall i :: 0 <= i < |contents| ==> contents[i].at <= now         // a monotonic clock
      modifies this
      ensures handle == ToolHandle(tool, size, now)
      ensures created == old(created) + [Entry(id, tool, size, now, payload)]
      ensures evictedIds + payloads.Keys == old(evictedIds + payloads.Keys) + {id}
      ensures Mirrors(order, handles, payloads, contents)
      ensures var room, e := Evict(old(contents), size, maxHandles, maxTotalBytes), Entry(id, tool, size, now, payload);
              && (id !in old(handles) ==> id !in Ids(room))
              && (id !in Ids(room) ==> Linked() && InTimeOrder() && contents == room + [e])
              && (id in Ids(room) ==> Replaced(room, e))
      ensures old(Undropped()) && id !in Ids(Evict(old(contents), size, maxHandles, maxTotalBytes)) ==> Undropped()
    {
      handle := ToolHandle(tool, size, now);
      MakeRoom(size);
      Store(id, handle, payload);
      ghost var e := Entry(id, tool, size, now, payload);
      CreatedGrows(created, e, maxHandles, maxTotalBytes);
      created := created + [e];
    }

    // The live entry of this id has given way to `e`; the byte count is exact only if it had no
    // bytes, which no JSON text has.
    ghost predicate Replaced(room: seq<Entry>, e: Entry)
      reads this
    {
      exists i ::
        && 0 <= i < |room| && room[i].id == e.id && contents == room[i := e]
        && totalBytes == Bytes(contents) + room[i].size
        && (Linked() <==> room[i].size == 0)
    }

    method Store(id: string, handle: ToolHandle, payload: Value)
      requires Linked() && InTimeOrder()
      requires forall i :: 0 <= i < |contents| ==> contents[i].at <= handle.at
      modifies `order, `handles, `payloads, `totalBytes, `contents
      ensures Mirrors(order, handles, payloads, contents) && payloads.Keys == old(payloads.Keys) + {id}
      ensures var e := Entry(id, handle.tool, handle.size, handle.at, payload);
              && (id in old(handles) <==> id in Ids(old(contents)))
              && (id !in old(handles) ==> Linked() && InTimeOrder() && contents == old(contents) + [e])
              && (id in old(handles) ==> Replaced(old(contents), e))
    {
      MirrorsIds(order, handles, payloads, contents, id);
      if id in handles {
        Replace(id, handle, payload);
      } else {
        Insert(id, handle, payload);
      }
    }

    method Replace(id: string, handle: ToolHandle, payload: Value)
      requires Linked() && id in handles && id in Ids(contents)
      modifies `handles, `payloads, `totalBytes, `contents
      ensures Mirrors(order, handles, payloads, contents) && payloads.Keys == old(payloads.Keys) + {id}
      ensures Replaced(old(contents), Entry(id, handle.tool, handle.size, handle.at, payload))
    {
      ghost var e := Entry(id, handle.tool, handle.size, handle.at, payload);
      ghost var i :| 0 <= i < |contents| && contents[i].id == id;
      MirrorsReplace(order, handles, payloads, contents, i, e);
      CollidingIdBreaksAccounting(contents, i, e);
      handles := handles[id := handle];
      payloads := payloads[id := payload];
      totalBytes := totalBytes + handle.size;
      contents := contents[i := e];
    }

    // Eviction, and what it leaves is a suffix of what there was.
    method MakeRoom(size: nat)
      requires Linked() && InTimeOrder()
      modifies `order, `handles, `payloads, `totalBytes, `evictedIds, `contents
      ensures Linked() && InTimeOrder()
      ensures contents == Evict(old(contents), size, maxHandles, maxTotalBytes)
      ensures |contents| <= |old(contents)| && contents == old(contents)[|old(contents)| - |contents|..]
      ensures evictedIds + payloads.Keys == old(evictedIds + payloads.Keys)
      ensures handles.Keys <= old(handles.Keys)
    {
      EvictIfNeeded(size);
      EvictIsSuffix(old(contents), size, maxHandles, maxTotalBytes);
    }

    method Insert(id: string, handle: ToolHandle, payload: Value)
      requires Linked() && id !in handles
      modifies `order, `handles, `payloads, `totalBytes, `contents
      ensures Linked() && payloads.Keys == old(payloads.Keys) + {id}
      ensures contents == old(contents) + [Entry(id, handle.tool, handle.size, handle.at, payload)]
    {
      ghost var e := Entry(id, handle.tool, handle.size, handle.at, payload);
      BytesAppend(contents, [e]);
      MirrorsAppend(order, handles, payloads, contents, e);
      order := order + [id];
      handles := handles[id := handle];
      payloads := payloads[id := payload];
      totalBytes := totalBytes + handle.size;
      contents := contents + [e];
    }

    // Nothing has left the store except by eviction.
    ghost predicate Undropped()
      reads this
    {
      && contents == Live(created, maxHandles, maxTotalBytes)
      && evictedIds + payloads.Keys == Ids(created)
    }

    method Lookup(id: string) returns (r: Lookup)
      requires Linked()
      ensures r == match FindLast(contents, id)
                   case Some(payload) => Found(payload)
                   case None => if id in evictedIds then Evicted else Unknown
      ensures Undropped() ==> r == Get(created, id, maxHandles, maxTotalBytes)
    {
      MirrorsFind(order, handles, payloads, contents, id);
      CreatedFind(created, id);
      assert id in evictedIds + payloads.Keys <==> id in evictedIds || id in payloads;
      if id !in payloads {
        if id in evictedIds { return Evicted; }
        return Unknown;
      }
      return Found(payloads[id]);
    }
  }

  lemma {:induction false} MirrorsFind(order: seq<string>, handles: map<string, ToolHandle>,
                                       payloads: map<string, Value>,
                                       es: seq<Entry>, id: string)
    requires Mirrors(order, handles, payloads, es)
    ensures FindLast(es, id) == if id in payloads then Some(payloads[id]) else None
  {
    if i :| 0 <= i < |es| && es[i].id == id {
      MirrorsAt(order, handles, payloads, es, i);
      forall m | i < m < |es| ensures es[m].id != id { MirrorsAt(order, handles, payloads, es, m); }
      FindLastIs(es, i);
    } else {
      FindLastMisses(es, id);
      MirrorsKeys(order, handles, payloads, es, id);
    }
  }

  lemma {:induction false} MirrorsKeys(order: seq<string>, handles: map<string, ToolHandle>,
                                       payloads: map<string, Value>,
                                       es: seq<Entry>, id: string)
    requires Mirrors(order, handles, payloads, es)
    requires forall i :: 0 <= i < |es| ==> es[i].id != id
    ensures id !in payloads
  {
    if es != [] { MirrorsKeys(order[1..], handles - {es[0].id}, payloads - {es[0].id}, es[1..], id); }
  }

  function Ids(created: seq<Entry>): set<string> {
    set e | e in created :: e.id
  }

  lemma CreatedGrows(created: seq<Entry>, e: Entry, maxHandles: nat, maxBytes: nat)
    ensures Ids(created + [e]) == Ids(created) + {e.id}
    ensures Live(created + [e], maxHandles, maxBytes)
         == Push(Live(created, maxHandles, maxBytes), e, maxHandles, maxBytes)
  {
    assert (created + [e])[..|created|] == created;
  }

  lemma CreatedFind(created: seq<Entry>, id: string)
    ensures FindLast(created, id).Some? <==> id in Ids(created)
  {
    if created != [] && created[|created| - 1].id != id {
      CreatedFind(created[..|created| - 1], id);
      assert created == created[..|created| - 1] + [created[|created| - 1]];
    }
  }

  // An entry replaced by another of the same id: the count that adds the new bytes and keeps the
  // old ones is too high by just those.
  lemma CollidingIdBreaksAccounting(es: seq<Entry>, i: nat, e: Entry)
    requires i < |es|
    ensures Bytes(es) + e.size == Bytes(es[i := e]) + es[i].size
  {
    BytesWithout(es, i);
    BytesWithout(es[i := e], i);
    assert Without(es[i := e], i) == Without(es, i);
  }

  lemma {:induction false} MirrorsReplace(order: seq<string>, handles: map<string, ToolHandle>,
                                          payloads: map<string, Value>,
                                          es: seq<Entry>, i: nat, e: Entry)
    requires Mirrors(order, handles, payloads, es) && i < |es| && es[i].id == e.id
    ensures Mirrors(order, handles[e.id := ToolHandle(e.tool, e.size, e.at)], payloads[e.id := e.payload], es[i := e])
  {
    var handles', payloads' := handles[e.id := ToolHandle(e.tool, e.size, e.at)], payloads[e.id := e.payload];
    if i == 0 {
      assert handles' - {e.id} == handles - {e.id} && payloads' - {e.id} == payloads - {e.id};
    } else {
      var id := es[0].id;
      MirrorsAt(order, handles, payloads, es, i);
      MirrorsReplace(order[1..], handles - {id}, payloads - {id}, es[1..], i - 1, e);
      assert es[i := e][1..] == es[1..][i - 1 := e];
      assert handles' - {id} == (handles - {id})[e.id := ToolHandle(e.tool, e.size, e.at)];
      assert payloads' - {id} == (payloads - {id})[e.id := e.payload];
    }
  }

  lemma MirrorsIds(order: seq<string>, handles: map<string, ToolHandle>, payloads: map<string, Value>,
                   es: seq<Entry>, id: string)
    requires Mirrors(order, handles, payloads, es)
    ensures id in handles <==> id in Ids(es)
  {
    MirrorsCount(order, handles, payloads, es);
    if i :| 0 <= i < |es| && es[i].id == id {
      MirrorsAt(order, handles, payloads, es, i);
      assert es[i] in es;
    } else {
      MirrorsKeys(order, handles, payloads, es, id);
    }
  }

  method IndexOf(order: seq<string>, id: string) returns (i: nat)
    requires id in order
    ensures i < |order| && order[i] == id
  {
    i := 0;
    while order[i] != id
      invariant i < |order| && id in order[i..]
      decreases |order| - i
    {
      i := i + 1;
    }
  }

  lemma {:induction false} EvictIsSuffix(live: seq<Entry>, incoming: nat, maxHandles: nat, maxBytes: nat)
    ensures var r := Evict(live, incoming, maxHandles, maxBytes);
            |r| <= |live| && r == live[|live| - |r|..]
  {
    if live != [] && (|live| >= maxHandles || Bytes(live) + incoming > maxBytes) {
      EvictIsSuffix(live[1..], incoming, maxHandles, maxBytes);
    }
  }
}
