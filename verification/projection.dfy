/** services/accelerator/projection.go: the views over the projection cache. */
module Projection {
  import opened Prelude
  import opened Ordering
  import opened SortedKeys
  import opened Fleets
  import CardTypes
  import Inventory
  import Text

  /** hasCards. */
  predicate HasCards(n: CacheNode) {
    exists r :: r in n.resources && r.allocatable > 0
  }

  predicate Contains(s: string, sub: string) {
    exists i: nat :: i <= |s| && Text.HasPrefix(s[i..], sub)
  }

  /** A normalised filter; "" matches everything. */
  datatype Query = Query(vendor: string, health: string, search: string)

  /** normalizeFilter: vendors and healths share one closed set. */
  function NormalFilter(v: string): string {
    if v in {"nvidia", "iluvatar", "metax", "unspecified", "healthy", "degraded", "unknown"} then v else ""
  }

  function NormalQuery(vendor: string, health: string, search: string): Query {
    Query(NormalFilter(vendor), NormalFilter(health), Text.TrimSpace(search))
  }

  predicate Matches(n: CacheNode, q: Query, lower: string -> string) {
    && HasCards(n)
    && (q.vendor == "" || n.vendor == q.vendor)
    && (q.health == "" || n.health == q.health)
    && (q.search == "" || Contains(lower(n.name), lower(q.search)))
  }

  ghost function Matching(fleet: Fleet, q: Query, lower: string -> string): set<string> {
    MatchingAmong(fleet.Keys, fleet, q, lower)
  }

  ghost function MatchingAmong(keys: set<string>, fleet: Fleet, q: Query, lower: string -> string): set<string> {
    set id | id in keys && id in fleet && Matches(fleet[id], q, lower)
  }

  predicate NameLess(a: CacheNode, b: CacheNode) { Text.Less(a.name, b.name) }

  function Values(fleet: Fleet, order: seq<string>): seq<CacheNode>
    requires forall id :: id in order ==> id in fleet
  {
    seq(|order|, i requires 0 <= i < |order| => fleet[order[i]])
  }

  /** `ns` is the matching nodes, each once, in name order. */
  ghost predicate Listing(fleet: Fleet, q: Query, lower: string -> string, ns: seq<CacheNode>) {
    && Sorted(NameLess, ns)
    && exists order :: Walks(order, Matching(fleet, q, lower)) && multiset(ns) == multiset(Values(fleet, order))
  }

  function Page(ns: seq<CacheNode>, offset: int, limit: int): seq<CacheNode> {
    var from, size := Max(offset, 0), if limit <= 0 then 20 else limit;
    if from >= |ns| then [] else ns[from..Min(from + size, |ns|)]
  }

  class ProjectionCache {
    var nodes: Fleet

    constructor ()
      ensures nodes == map[]
    {
      nodes := map[];
    }

    /** The whole cache is swapped. */
    method Replace(fleet: Fleet)
      modifies this
      ensures nodes == fleet
    {
      nodes := fleet;
    }

    /** List: a page of some listing of the matching nodes, and its full length. */
    method List(vendor: string, health: string, search: string, offset: int, limit: int, lower: string -> string)
      returns (page: seq<CacheNode>, total: int)
      ensures Answers(nodes, NormalQuery(vendor, health, search), lower, offset, limit, page, total)
    {
      var ns := ListMatching(NormalQuery(vendor, health, search), lower);
      page := Slice(ns, offset, limit);
      total := |ns|;
    }

    method ListMatching(q: Query, lower: string -> string) returns (ns: seq<CacheNode>)
      ensures Listing(nodes, q, lower, ns)
    {
      var all := Range(nodes.Keys);
      var matched: seq<CacheNode> := [];
      ghost var order: seq<string> := [];
      for i := 0 to |all|
        invariant order == KeysMatching(all[..i], nodes, q, lower)
        invariant matched == Values(nodes, order)
      {
        assert all[..i + 1][..i] == all[..i];
        var n := nodes[all[i]];
        var hit := Matches(n, q, lower);
        if hit {
          matched := matched + [n];
          order := order + [all[i]];
        }
      }
      assert all[..|all|] == all;
      KeysMatchingWalks(all, nodes.Keys, nodes, q, lower);
      NamesAreOrdered(matched);
      ns := SortSlice(matched, NameLess);
      assert Walks(order, Matching(nodes, q, lower));
    }

    /** CPUNodeCount. */
    method CPUNodeCount() returns (count: int)
      ensures count == |CPUNodes(nodes)|
    {
      var all := Range(nodes.Keys);
      count := 0;
      for i := 0 to |all|
        invariant count == |set id | id in all[..i] && !HasCards(nodes[id])|
      {
        var seen := set id | id in all[..i] && !HasCards(nodes[id]);
        assert all[..i + 1] == all[..i] + [all[i]];
        assert (set id | id in all[..i + 1] && !HasCards(nodes[id]))
               == if HasCards(nodes[all[i]]) then seen else seen + {all[i]};
        if !HasCards(nodes[all[i]]) { count := count + 1; }
      }
      assert all[..|all|] == all;
      assert CPUNodes(nodes) == set id | id in all && !HasCards(nodes[id]);
    }

    /** CardTypeSummary. */
    method CardTypeSummary() returns (rows: seq<CardTypes.SummaryRow>)
      ensures CardTypes.IsSummary(nodes, rows)
    {
      rows := CardTypes.Summarise(nodes);
    }

    /** ListCardTypes. */
    method ListCardTypes() returns (pairs: seq<CardTypes.CardType>)
      ensures CardTypes.IsCardTypeList(nodes, pairs)
    {
      pairs := CardTypes.Distinct(nodes);
    }
  }

  method Slice(ns: seq<CacheNode>, offset: int, limit: int) returns (page: seq<CacheNode>)
    ensures page == Page(ns, offset, limit)
  {
    var from, size := if offset < 0 then 0 else offset, if limit <= 0 then 20 else limit;
    if from >= |ns| { return []; }
    var end := from + size;
    if end > |ns| { end := |ns|; }
    page := ns[from..end];
  }

  /** handle: the snapshot replaces the whole cache; a malformed one is skipped. */
  method Handle(cache: ProjectionCache, snapshot: Option<seq<Inventory.InventoryNode>>)
    modifies cache
    ensures cache.nodes == if snapshot.Some? then Ingested(snapshot.value) else old(cache.nodes)
  {
    if snapshot.None? { return; }
    var snap := snapshot.value;
    var fleet: Fleet := map[];
    for i := 0 to |snap|
      invariant fleet == Ingested(snap[..i])
    {
      assert snap[..i + 1][..i] == snap[..i];
      if snap[i].nodeId != "" { fleet := fleet[snap[i].nodeId := Cached(snap[i])]; }
    }
    assert snap[..|snap|] == snap;
    cache.Replace(fleet);
  }

  ghost function CPUNodes(fleet: Fleet): set<string> { set id | id in fleet && !HasCards(fleet[id]) }

  ghost function KeysMatching(order: seq<string>, fleet: Fleet, q: Query, lower: string -> string): (ids: seq<string>)
    ensures forall id :: id in ids ==> id in order && id in fleet
  {
    if order == [] then []
    else
      var id := order[|order| - 1];
      KeysMatching(order[..|order| - 1], fleet, q, lower)
        + if id in fleet && Matches(fleet[id], q, lower) then [id] else []
  }

  lemma {:induction false} KeysMatchingWalks(
    order: seq<string>, keys: set<string>, fleet: Fleet, q: Query, lower: string -> string)
    requires Walks(order, keys)
    ensures Walks(KeysMatching(order, fleet, q, lower), MatchingAmong(keys, fleet, q, lower))
  {
    if order != [] {
      var front, last := order[..|order| - 1], order[|order| - 1];
      assert order == front + [last];
      assert last !in front;
      KeysMatchingWalks(front, keys - {last}, fleet, q, lower);
    }
  }

  lemma NamesAreOrdered(ns: seq<CacheNode>)
    ensures WeakOn(NameLess, ns)
    ensures forall a, b :: a in ns && b in ns && NameLess(a, b) ==> !NameLess(b, a)
  {
    var names := seq(|ns|, i requires 0 <= i < |ns| => ns[i].name);
    LessIsTotal(names);
    forall a | a in ns ensures a.name in names {
      var i :| 0 <= i < |ns| && ns[i] == a;
      assert names[i] == a.name;
    }
  }

  // ------------------------------------------------------------- pagination

  ghost predicate DistinctNames(fleet: Fleet) {
    forall a, b :: a in fleet && b in fleet && a != b ==> fleet[a].name != fleet[b].name
  }

  lemma ListingMembers(fleet: Fleet, q: Query, lower: string -> string, ns: seq<CacheNode>)
    requires Listing(fleet, q, lower, ns)
    ensures forall n :: n in ns ==> exists id :: id in fleet && fleet[id] == n
    ensures |ns| == |Matching(fleet, q, lower)|
  {
    var order :| Walks(order, Matching(fleet, q, lower)) && multiset(ns) == multiset(Values(fleet, order));
    SameMembers(ns, Values(fleet, order));
    WalkSize(order, Matching(fleet, q, lower));
  }

  lemma {:induction false} WalkSize(order: seq<string>, keys: set<string>)
    requires Walks(order, keys)
    ensures |order| == |keys|
  {
    if order == [] {
      assert keys == {};
    } else {
      var front, last := order[..|order| - 1], order[|order| - 1];
      assert order == front + [last];
      WalkSize(front, keys - {last});
    }
  }

  /** With distinct names there is one listing, whatever order the map is walked
    * in and however the sort breaks ties. */
  lemma ListingIsUnique(fleet: Fleet, q: Query, lower: string -> string, a: seq<CacheNode>, b: seq<CacheNode>)
    requires DistinctNames(fleet)
    requires Listing(fleet, q, lower, a) && Listing(fleet, q, lower, b)
    ensures a == b
  {
    var m := Matching(fleet, q, lower);
    var oa :| Walks(oa, m) && multiset(a) == multiset(Values(fleet, oa));
    var ob :| Walks(ob, m) && multiset(b) == multiset(Values(fleet, ob));
    WalksArePermutations(oa, ob, m);
    ValuesPermute(fleet, oa, ob);
    ListingMembers(fleet, q, lower, a);
    forall x, y | x in a && y in a && x != y ensures NameLess(x, y) != NameLess(y, x) {
      var i :| i in fleet && fleet[i] == x;
      var j :| j in fleet && fleet[j] == y;
      Text.LessTotal(x.name, y.name);
    }
    SortedIsUnique(NameLess, a, b);
  }

  lemma WithoutOne(fleet: Fleet, b: seq<string>, i: nat)
    requires i < |b| && forall id :: id in b ==> id in fleet
    ensures var rest := b[..i] + b[i + 1..];
            && multiset(b) == multiset(rest) + multiset{b[i]}
            && (forall id :: id in rest ==> id in fleet)
            && multiset(Values(fleet, b)) == multiset(Values(fleet, rest)) + multiset{fleet[b[i]]}
  {
    var rest := b[..i] + b[i + 1..];
    assert b == b[..i] + [b[i]] + b[i + 1..];
    var x, y := Values(fleet, b[..i]), Values(fleet, b[i + 1..]);
    assert Values(fleet, b) == x + [fleet[b[i]]] + y;
    assert Values(fleet, rest) == x + y;
  }

  lemma {:induction false} ValuesPermute(fleet: Fleet, a: seq<string>, b: seq<string>)
    requires multiset(a) == multiset(b)
    requires (forall id :: id in a ==> id in fleet) && (forall id :: id in b ==> id in fleet)
    ensures multiset(Values(fleet, a)) == multiset(Values(fleet, b))
    decreases |a|
  {
    SameMembers(a, b);
    if a == [] {
    } else {
      assert a[0] in b;
      var i :| 0 <= i < |b| && b[i] == a[0];
      WithoutOne(fleet, a, 0);
      WithoutOne(fleet, b, i);
      var restA, restB := a[..0] + a[1..], b[..i] + b[i + 1..];
      assert multiset(restA) == multiset(a) - multiset{a[0]};
      assert multiset(restB) == multiset(b) - multiset{a[0]};
      ValuesPermute(fleet, restA, restB);
    }
  }

  /** `page` and `total` are an answer List may give. */
  ghost predicate Answers(
    fleet: Fleet, q: Query, lower: string -> string, offset: int, limit: int, page: seq<CacheNode>, total: int)
  {
    exists ns :: Listing(fleet, q, lower, ns) && page == Page(ns, offset, limit) && total == |ns|
  }

  /** Where the k-th page starts, counted page by page. */
  function Offset(k: nat, limit: nat): nat {
    if k == 0 then 0 else Offset(k - 1, limit) + limit
  }

  lemma {:induction false} OffsetIs(k: nat, limit: nat)
    ensures Offset(k, limit) == k * limit
  {
    if k == 0 {
    } else {
      OffsetIs(k - 1, limit);
    }
  }

  datatype Answer = Answer(page: seq<CacheNode>, total: int)

  function Flatten(answers: seq<Answer>): seq<CacheNode> {
    if answers == [] then [] else Flatten(answers[..|answers| - 1]) + answers[|answers| - 1].page
  }

  lemma {:induction false} PagesJoin(ns: seq<CacheNode>, limit: nat, answers: seq<Answer>)
    requires limit > 0
    requires forall k :: 0 <= k < |answers| ==> answers[k].page == Page(ns, Offset(k, limit), limit)
    ensures Flatten(answers) == ns[..Min(Offset(|answers|, limit), |ns|)]
  {
    if answers == [] {
    } else {
      var k := |answers| - 1;
      PagesJoin(ns, limit, answers[..k]);
      NextPage(ns, Offset(k, limit), limit);
    }
  }

  /** Successive pages, each from a listing of its own, put end to end are the one
    * listing up to where they reach, and every page reports the same total. */
  lemma PagesPartition(
    fleet: Fleet, q: Query, lower: string -> string, limit: nat, answers: seq<Answer>, ns: seq<CacheNode>)
    requires DistinctNames(fleet) && limit > 0
    requires forall k :: 0 <= k < |answers| ==>
               Answers(fleet, q, lower, k * limit, limit, answers[k].page, answers[k].total)
    requires Listing(fleet, q, lower, ns)
    ensures Offset(|answers|, limit) == |answers| * limit
    ensures Flatten(answers) == ns[..Min(Offset(|answers|, limit), |ns|)]
    ensures forall k :: 0 <= k < |answers| ==> answers[k].total == |Matching(fleet, q, lower)|
  {
    ListingMembers(fleet, q, lower, ns);
    forall k | 0 <= k < |answers|
      ensures answers[k].page == Page(ns, Offset(k, limit), limit) && answers[k].total == |ns|
    {
      OffsetIs(k, limit);
      AnswersAgree(fleet, q, lower, Offset(k, limit), limit, answers[k].page, answers[k].total, ns);
    }
    OffsetIs(|answers|, limit);
    PagesJoin(ns, limit, answers);
  }

  lemma AnswersAgree(
    fleet: Fleet, q: Query, lower: string -> string, offset: int, limit: int, page: seq<CacheNode>, total: int,
    ns: seq<CacheNode>)
    requires DistinctNames(fleet) && Listing(fleet, q, lower, ns)
    requires Answers(fleet, q, lower, offset, limit, page, total)
    ensures page == Page(ns, offset, limit) && total == |ns|
  {
    var mine :| Listing(fleet, q, lower, mine) && page == Page(mine, offset, limit) && total == |mine|;
    ListingIsUnique(fleet, q, lower, mine, ns);
  }

  lemma NextPage(ns: seq<CacheNode>, from: nat, limit: nat)
    requires limit > 0
    ensures ns[..Min(from, |ns|)] + Page(ns, from, limit) == ns[..Min(from + limit, |ns|)]
  {
  }

  /** The unfiltered listing and the CPU-only nodes make up the whole cache. */
  lemma ListedAndCPUNodes(fleet: Fleet, lower: string -> string, ns: seq<CacheNode>)
    requires Listing(fleet, Query("", "", ""), lower, ns)
    ensures |ns| + |CPUNodes(fleet)| == |fleet|
  {
    ListingMembers(fleet, Query("", "", ""), lower, ns);
    var m := Matching(fleet, Query("", "", ""), lower);
    assert m + CPUNodes(fleet) == fleet.Keys && m * CPUNodes(fleet) == {};
  }

  // -------------------------------------------------------- what a page shows

  predicate OccursAt(s: string, sub: string, i: nat) { i + |sub| <= |s| && s[i..i + |sub|] == sub }

  /** The text occurs in the string. */
  predicate Occurs(s: string, sub: string) { exists i: nat :: i <= |s| && OccursAt(s, sub, i) }

  lemma ContainsMeans(s: string, sub: string)
    ensures Contains(s, sub) <==> Occurs(s, sub)
  {
    forall i: nat | i <= |s| ensures Text.HasPrefix(s[i..], sub) <==> OccursAt(s, sub, i) {
      if i + |sub| <= |s| { assert s[i..][..|sub|] == s[i..i + |sub|]; }
    }
  }

  /** The words a filter may be; any other filters nothing. */
  predicate FilterWord(v: string) {
    || v == "nvidia" || v == "iluvatar" || v == "metax" || v == "unspecified"
    || v == "healthy" || v == "degraded" || v == "unknown"
  }

  lemma FilterMeans(v: string)
    ensures NormalFilter(v) != "" <==> FilterWord(v)
    ensures FilterWord(v) ==> NormalFilter(v) == v
  {
  }

  predicate Filters(filter: string, value: string) { FilterWord(filter) ==> value == filter }

  lemma FiltersMeans(filter: string, value: string)
    ensures Filters(filter, value) <==> NormalFilter(filter) == "" || value == NormalFilter(filter)
  {
    FilterMeans(filter);
  }

  /** A node with a device to give, of the vendor and health asked for, whose name has
    * the text looked for in it. */
  predicate Asked(n: CacheNode, vendor: string, health: string, search: string, lower: string -> string) {
    && (exists r :: r in n.resources && r.allocatable > 0)
    && Filters(vendor, n.vendor) && Filters(health, n.health)
    && (Text.TrimSpace(search) != "" ==> Occurs(lower(n.name), lower(Text.TrimSpace(search))))
  }

  lemma QueryMeans(n: CacheNode, q: Query, lower: string -> string)
    ensures Matches(n, q, lower) <==>
              && (exists r :: r in n.resources && r.allocatable > 0)
              && (q.vendor == "" || n.vendor == q.vendor) && (q.health == "" || n.health == q.health)
              && (q.search != "" ==> Occurs(lower(n.name), lower(q.search)))
  {
    ContainsMeans(lower(n.name), lower(q.search));
  }

  lemma MatchesMeans(n: CacheNode, vendor: string, health: string, search: string, lower: string -> string)
    ensures Matches(n, NormalQuery(vendor, health, search), lower) <==> Asked(n, vendor, health, search, lower)
  {
    QueryMeans(n, NormalQuery(vendor, health, search), lower);
    FiltersMeans(vendor, n.vendor);
    FiltersMeans(health, n.health);
  }

  lemma ListingHas(fleet: Fleet, q: Query, lower: string -> string, ns: seq<CacheNode>, n: CacheNode)
    requires Listing(fleet, q, lower, ns)
    ensures n in ns <==> exists id :: id in fleet && fleet[id] == n && Matches(n, q, lower)
  {
    var order :| Walks(order, Matching(fleet, q, lower)) && multiset(ns) == multiset(Values(fleet, order));
    SameMembers(ns, Values(fleet, order));
    if n in ns {
      var i :| 0 <= i < |order| && Values(fleet, order)[i] == n;
      assert order[i] in Matching(fleet, q, lower);
    }
    if id :| id in fleet && fleet[id] == n && Matches(n, q, lower) {
      assert id in Matching(fleet, q, lower) && id in order;
      var i :| 0 <= i < |order| && order[i] == id;
      assert Values(fleet, order)[i] == fleet[id];
    }
  }

  ghost function NodesAsked(fleet: Fleet, vendor: string, health: string, search: string, lower: string -> string)
    : set<string>
  {
    set id | id in fleet && Asked(fleet[id], vendor, health, search, lower)
  }

  lemma NodeAsked(
    fleet: Fleet, vendor: string, health: string, search: string, lower: string -> string, id: string)
    ensures id in Matching(fleet, NormalQuery(vendor, health, search), lower)
        <==> id in NodesAsked(fleet, vendor, health, search, lower)
  {
    if id in fleet { MatchesMeans(fleet[id], vendor, health, search, lower); }
  }

  lemma MatchingMeans(fleet: Fleet, vendor: string, health: string, search: string, lower: string -> string)
    ensures Matching(fleet, NormalQuery(vendor, health, search), lower)
         == NodesAsked(fleet, vendor, health, search, lower)
  {
    var matching, asked := Matching(fleet, NormalQuery(vendor, health, search), lower),
        NodesAsked(fleet, vendor, health, search, lower);
    forall id ensures id in matching <==> id in asked { NodeAsked(fleet, vendor, health, search, lower, id); }
    SameSet(matching, asked);
  }

  lemma SameSet<T>(a: set<T>, b: set<T>)
    requires forall x :: x in a <==> x in b
    ensures a == b
  {
  }

  lemma NamesInOrder(ns: seq<CacheNode>)
    requires Sorted(NameLess, ns)
    ensures forall i, j :: 0 <= i < j < |ns| ==> !Text.Less(ns[j].name, ns[i].name)
  {
    forall i, j | 0 <= i < j < |ns| ensures !Text.Less(ns[j].name, ns[i].name) { assert !NameLess(ns[j], ns[i]); }
  }

  /** A listing has exactly the cached nodes asked for, as many entries as the cache has
    * such nodes, in the byte order of their names. */
  lemma ListingMeans(
    fleet: Fleet, vendor: string, health: string, search: string, lower: string -> string, ns: seq<CacheNode>,
    n: CacheNode)
    requires Listing(fleet, NormalQuery(vendor, health, search), lower, ns)
    ensures n in ns <==> (exists id :: id in fleet && fleet[id] == n) && Asked(n, vendor, health, search, lower)
    ensures |ns| == |NodesAsked(fleet, vendor, health, search, lower)|
    ensures forall i, j :: 0 <= i < j < |ns| ==> !Text.Less(ns[j].name, ns[i].name)
  {
    var q := NormalQuery(vendor, health, search);
    ListingHas(fleet, q, lower, ns, n);
    MatchesMeans(n, vendor, health, search, lower);
    ListingMembers(fleet, q, lower, ns);
    MatchingMeans(fleet, vendor, health, search, lower);
    NamesInOrder(ns);
  }

  /** A page is the listing's entries from the offset on, at most as many as the limit;
    * a negative offset counts as none, and a limit that is not positive as twenty. */
  lemma PageMeans(ns: seq<CacheNode>, offset: int, limit: int)
    ensures var page, from := Page(ns, offset, limit), if offset < 0 then 0 else offset;
            && |page| == Max(0, Min(|ns| - from, if limit > 0 then limit else 20))
            && forall i :: 0 <= i < |page| ==> page[i] == ns[from + i]
  {
  }
}
