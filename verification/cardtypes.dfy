/** services/accelerator: the capacity summary by (vendor, card type) and the list
  * of such pairs (projection.go, card_types_provider.go). */
module CardTypes {
  import opened Ordering
  import opened SortedKeys
  import opened Inventory
  import opened Fleets
  import Text

  datatype CardType = CardType(vendor: string, cardType: string)

  /** What is summed for a pair: devices, devices held, resource rows. */
  datatype Measure = Devices | InUseDevices | Rows

  function Positive(m: Measure, r: ResourceRow): int {
    if r.allocatable <= 0 then 0
    else match m
      case Devices => r.allocatable
      case InUseDevices => r.held
      case Rows => 1
  }

  function Weight(k: CardType, m: Measure, vendor: string, r: ResourceRow): int {
    if CardType(vendor, r.cardType) == k then Positive(m, r) else 0
  }

  function Weights(k: CardType, m: Measure, vendor: string): ResourceRow -> int {
    (r: ResourceRow) => Weight(k, m, vendor, r)
  }

  function NodeAmount(k: CardType, m: Measure): CacheNode -> int {
    (n: CacheNode) => Sum(n.resources, Weights(k, m, n.vendor))
  }

  /** What the whole fleet has of a pair. */
  ghost function Amount(fleet: Fleet, k: CardType, m: Measure): int {
    FleetSum(fleet, NodeAmount(k, m))
  }

  datatype SummaryRow = SummaryRow(vendor: string, cardType: string, total: int, held: int, free: int, nodeCount: int)

  function Pair(row: SummaryRow): CardType { CardType(row.vendor, row.cardType) }

  ghost predicate Offers(n: CacheNode, k: CardType) {
    exists r :: r in n.resources && r.allocatable > 0 && k == CardType(n.vendor, r.cardType)
  }

  /** Some node of the fleet has a device of this pair to give. */
  ghost predicate Present(fleet: Fleet, k: CardType) {
    exists id :: id in fleet && Offers(fleet[id], k)
  }

  ghost function RowFor(fleet: Fleet, k: CardType): SummaryRow {
    var total, held := Amount(fleet, k, Devices), Amount(fleet, k, InUseDevices);
    SummaryRow(k.vendor, k.cardType, total, held, total - held, Amount(fleet, k, Rows))
  }

  /** By vendor, then most constrained first, then card type. */
  predicate SummaryLess(a: SummaryRow, b: SummaryRow) {
    if a.vendor != b.vendor then Text.Less(a.vendor, b.vendor)
    else if a.free != b.free then a.free < b.free
    else Text.Less(a.cardType, b.cardType)
  }

  ghost predicate NoRepeats<T>(xs: seq<T>) {
    forall i, j :: 0 <= i < j < |xs| ==> xs[i] != xs[j]
  }

  /** One row for every pair present, with its sums. */
  ghost predicate RowsOfFleet(fleet: Fleet, rows: seq<SummaryRow>) {
    && NoRepeats(rows)
    && forall row :: row in rows <==> Present(fleet, Pair(row)) && row == RowFor(fleet, Pair(row))
  }

  ghost predicate IsSummary(fleet: Fleet, rows: seq<SummaryRow>) {
    Sorted(SummaryLess, rows) && RowsOfFleet(fleet, rows)
  }

  // --------------------------------------------------------------- tallying

  type Tally = (CardType, Measure) -> int

  /** `agg` holds a row for exactly the pairs counted so far. */
  ghost predicate Tallied(agg: map<CardType, SummaryRow>, a: Tally) {
    forall k ::
      && 0 <= a(k, Rows) <= a(k, Devices)
      && (k in agg <==> a(k, Rows) > 0)
      && (k in agg ==> agg[k] == SummaryRow(k.vendor, k.cardType, a(k, Devices), a(k, InUseDevices),
                                            a(k, Devices) - a(k, InUseDevices), a(k, Rows)))
      && (k !in agg ==> a(k, Devices) == 0 && a(k, InUseDevices) == 0)
  }

  ghost function PlusRow(a: Tally, vendor: string, r: ResourceRow): Tally {
    (k: CardType, m: Measure) => a(k, m) + Weight(k, m, vendor, r)
  }

  method AddRow(agg: map<CardType, SummaryRow>, vendor: string, r: ResourceRow, ghost a: Tally)
    returns (out: map<CardType, SummaryRow>)
    requires Tallied(agg, a)
    ensures Tallied(out, PlusRow(a, vendor, r))
  {
    out := agg;
    if r.allocatable <= 0 { return; }
    var k := CardType(vendor, r.cardType);
    var row := if k in agg then agg[k] else SummaryRow(vendor, r.cardType, 0, 0, 0, 0);
    out := out[k := row.(total := row.total + r.allocatable,
                         held := row.held + r.held,
                         free := row.free + (r.allocatable - r.held),
                         nodeCount := row.nodeCount + 1)];
  }

  lemma TalliedSame(agg: map<CardType, SummaryRow>, a: Tally, b: Tally)
    requires Tallied(agg, a) && forall k, m :: a(k, m) == b(k, m)
    ensures Tallied(agg, b)
  {
  }

  ghost function RowsSoFar(a: Tally, rs: seq<ResourceRow>, vendor: string): Tally {
    (k: CardType, m: Measure) => a(k, m) + Sum(rs, Weights(k, m, vendor))
  }

  method AddNode(agg: map<CardType, SummaryRow>, n: CacheNode, ghost a: Tally) returns (out: map<CardType, SummaryRow>)
    requires Tallied(agg, a)
    ensures Tallied(out, RowsSoFar(a, n.resources, n.vendor))
  {
    out := agg;
    var rs := n.resources;
    assert Tallied(out, RowsSoFar(a, rs[..0], n.vendor)) by { TalliedSame(out, a, RowsSoFar(a, rs[..0], n.vendor)); }
    for j := 0 to |rs|
      invariant Tallied(out, RowsSoFar(a, rs[..j], n.vendor))
    {
      ghost var before := RowsSoFar(a, rs[..j], n.vendor);
      out := AddRow(out, n.vendor, rs[j], before);
      assert rs[..j + 1][..j] == rs[..j];
      forall k, m ensures RowsSoFar(a, rs[..j + 1], n.vendor)(k, m) == PlusRow(before, n.vendor, rs[j])(k, m) {
        var w := Weights(k, m, n.vendor);
        assert Sum(rs[..j + 1], w) == Sum(rs[..j], w) + w(rs[j]);
      }
      TalliedSame(out, PlusRow(before, n.vendor, rs[j]), RowsSoFar(a, rs[..j + 1], n.vendor));
    }
    assert rs[..|rs|] == rs;
  }

  ghost function NodesSoFar(fleet: Fleet, ids: seq<string>): Tally {
    (k: CardType, m: Measure) => Sum(ids, OnNode(fleet, NodeAmount(k, m)))
  }

  ghost function Whole(fleet: Fleet): Tally {
    (k: CardType, m: Measure) => Amount(fleet, k, m)
  }

  method Aggregate(fleet: Fleet) returns (agg: map<CardType, SummaryRow>)
    ensures Tallied(agg, Whole(fleet))
  {
    agg := map[];
    var ids := Range(fleet.Keys);
    for i := 0 to |ids|
      invariant Tallied(agg, NodesSoFar(fleet, ids[..i]))
    {
      ghost var before := NodesSoFar(fleet, ids[..i]);
      var n := fleet[ids[i]];
      agg := AddNode(agg, n, before);
      assert ids[..i + 1][..i] == ids[..i];
      TalliedSame(agg, RowsSoFar(before, n.resources, n.vendor), NodesSoFar(fleet, ids[..i + 1]));
    }
    assert ids[..|ids|] == ids;
    forall k, m ensures NodesSoFar(fleet, ids)(k, m) == Whole(fleet)(k, m) {
      SumOfWalk(ids, fleet.Keys, OnNode(fleet, NodeAmount(k, m)));
    }
    TalliedSame(agg, NodesSoFar(fleet, ids), Whole(fleet));
  }

  /** A pair is present exactly when some row of it was counted. */
  lemma {:induction false} PresentRows(rs: seq<ResourceRow>, vendor: string, k: CardType)
    ensures var n := Sum(rs, Weights(k, Rows, vendor));
            n >= 0 && (n > 0 <==> exists r :: r in rs && r.allocatable > 0 && k == CardType(vendor, r.cardType))
  {
    if rs == [] {
    } else {
      var front, last := rs[..|rs| - 1], rs[|rs| - 1];
      PresentRows(front, vendor, k);
      assert rs == front + [last];
      if last.allocatable > 0 && k == CardType(vendor, last.cardType) { assert last in rs; }
    }
  }

  lemma {:induction false} SomePositive<T>(xs: seq<T>, f: T -> int)
    requires forall x :: x in xs ==> f(x) >= 0
    ensures Sum(xs, f) >= 0
    ensures Sum(xs, f) > 0 <==> exists x :: x in xs && f(x) > 0
  {
    if xs == [] {
    } else {
      var front, last := xs[..|xs| - 1], xs[|xs| - 1];
      SomePositive(front, f);
      assert xs == front + [last];
    }
  }

  lemma PresentIsCounted(fleet: Fleet, k: CardType)
    ensures Present(fleet, k) <==> Amount(fleet, k, Rows) > 0
  {
    var ids, f := SortedNames(fleet.Keys), OnNode(fleet, NodeAmount(k, Rows));
    forall id | id in ids ensures f(id) >= 0 && (f(id) > 0 <==> Offers(fleet[id], k)) {
      PresentRows(fleet[id].resources, fleet[id].vendor, k);
    }
    SomePositive(ids, f);
  }

  // -------------------------------------------------------------- the summary

  lemma SummaryOrder(a: SummaryRow, b: SummaryRow, c: SummaryRow)
    ensures !SummaryLess(a, a)
    ensures SummaryLess(a, b) ==> !SummaryLess(b, a)
    ensures Pair(a) != Pair(b) ==> SummaryLess(a, b) != SummaryLess(b, a)
    ensures !SummaryLess(b, a) && !SummaryLess(c, b) ==> !SummaryLess(c, a)
  {
    var vendors, types := [a.vendor, b.vendor, c.vendor], [a.cardType, b.cardType, c.cardType];
    LessIsTotal(vendors);
    LessIsTotal(types);
    assert a.vendor in vendors && b.vendor in vendors && c.vendor in vendors;
    assert a.cardType in types && b.cardType in types && c.cardType in types;
  }

  method CollectRows(agg: map<CardType, SummaryRow>) returns (out: seq<SummaryRow>, ghost order: seq<CardType>)
    requires forall k :: k in agg ==> agg[k].total > 0
    ensures Walks(order, agg.Keys)
    ensures |out| == |order| && forall j :: 0 <= j < |out| ==> out[j] == agg[order[j]]
  {
    var keys := Range(agg.Keys);
    order := keys;
    out := [];
    for i := 0 to |keys|
      invariant |out| == i && forall j :: 0 <= j < i ==> out[j] == agg[keys[j]]
    {
      if agg[keys[i]].total > 0 { out := out + [agg[keys[i]]]; }
    }
  }

  method Summarise(fleet: Fleet) returns (rows: seq<SummaryRow>)
    ensures IsSummary(fleet, rows)
  {
    var agg := Aggregate(fleet);
    forall k | k in agg ensures agg[k].total > 0 { assert Whole(fleet)(k, Rows) > 0; }
    var out, order := CollectRows(agg);
    OutRows(fleet, agg, order, out);
    OrderRows(out);
    rows := SortSlice(out, SummaryLess);
    KeptRows(fleet, out, rows);
  }

  lemma OrderRows(rows: seq<SummaryRow>)
    ensures WeakOn(SummaryLess, rows)
    ensures forall a, b :: a in rows && b in rows && SummaryLess(a, b) ==> !SummaryLess(b, a)
  {
    forall a, b, c | a in rows && b in rows && c in rows
      ensures !SummaryLess(a, a) && (SummaryLess(a, b) ==> !SummaryLess(b, a))
      ensures !SummaryLess(b, a) && !SummaryLess(c, b) ==> !SummaryLess(c, a)
    {
      SummaryOrder(a, b, c);
    }
  }

  lemma OutRows(fleet: Fleet, agg: map<CardType, SummaryRow>, order: seq<CardType>, out: seq<SummaryRow>)
    requires Tallied(agg, Whole(fleet)) && Walks(order, agg.Keys)
    requires |out| == |order| && forall j :: 0 <= j < |out| ==> out[j] == agg[order[j]]
    ensures RowsOfFleet(fleet, out)
  {
    forall k ensures k in agg <==> Present(fleet, k) { PresentIsCounted(fleet, k); }
    forall k | k in agg ensures agg[k] == RowFor(fleet, k) && Pair(agg[k]) == k { assert Whole(fleet)(k, Rows) > 0; }
    forall row ensures row in out <==> Present(fleet, Pair(row)) && row == RowFor(fleet, Pair(row)) {
      if Present(fleet, Pair(row)) && row == RowFor(fleet, Pair(row)) {
        var k := Pair(row);
        assert k in order;
        var j :| 0 <= j < |order| && order[j] == k;
        assert out[j] == row;
      }
    }
    forall i, j | 0 <= i < j < |out| ensures out[i] != out[j] {
      assert order[i] != order[j] && Pair(out[i]) == order[i] && Pair(out[j]) == order[j];
    }
  }

  lemma KeptRows(fleet: Fleet, out: seq<SummaryRow>, rows: seq<SummaryRow>)
    requires RowsOfFleet(fleet, out) && multiset(out) == multiset(rows)
    ensures RowsOfFleet(fleet, rows)
  {
    SameMembers(out, rows);
    PermutedDistinct(out, rows);
  }

  /** There is one summary, whatever order the maps are walked in. */
  lemma SummaryIsUnique(fleet: Fleet, a: seq<SummaryRow>, b: seq<SummaryRow>)
    requires IsSummary(fleet, a) && IsSummary(fleet, b)
    ensures a == b
  {
    var all := set row | row in a;
    assert Walks(a, all) && Walks(b, all);
    WalksArePermutations(a, b, all);
    forall x, y | x in a && y in a && x != y ensures SummaryLess(x, y) != SummaryLess(y, x) {
      SummaryOrder(x, y, x);
    }
    SortedIsUnique(SummaryLess, a, b);
  }

  // ------------------------------------------------------------ conservation

  ghost function Positives(m: Measure): CacheNode -> int {
    (n: CacheNode) => Sum(n.resources, (r: ResourceRow) => Positive(m, r))
  }

  ghost function PairWeights(m: Measure, vendor: string, r: ResourceRow): SummaryRow -> int {
    (row: SummaryRow) => Weight(Pair(row), m, vendor, r)
  }

  ghost function PairAmounts(m: Measure, n: CacheNode): SummaryRow -> int {
    (row: SummaryRow) => NodeAmount(Pair(row), m)(n)
  }

  ghost function Amounts(fleet: Fleet, m: Measure): SummaryRow -> int {
    (row: SummaryRow) => Amount(fleet, Pair(row), m)
  }

  /** Exactly one row takes a resource of a listed pair. */
  lemma {:induction false} OneRowTakes(rows: seq<SummaryRow>, m: Measure, vendor: string, r: ResourceRow)
    requires forall i, j :: 0 <= i < j < |rows| ==> Pair(rows[i]) != Pair(rows[j])
    ensures Sum(rows, PairWeights(m, vendor, r))
         == if exists row :: row in rows && Pair(row) == CardType(vendor, r.cardType) then Positive(m, r) else 0
  {
    if rows == [] {
    } else {
      var front, last := rows[..|rows| - 1], rows[|rows| - 1];
      OneRowTakes(front, m, vendor, r);
      assert rows == front + [last];
      if Pair(last) == CardType(vendor, r.cardType) {
        assert last in rows;
        assert forall row :: row in front ==> Pair(row) != Pair(last);
      }
    }
  }

  lemma RowsDiffer(fleet: Fleet, rows: seq<SummaryRow>)
    requires IsSummary(fleet, rows)
    ensures forall i, j :: 0 <= i < j < |rows| ==> Pair(rows[i]) != Pair(rows[j])
  {
    forall i, j | 0 <= i < j < |rows| ensures Pair(rows[i]) != Pair(rows[j]) {
      assert rows[i] in rows && rows[j] in rows && rows[i] != rows[j];
    }
  }

  lemma NodeIsShared(fleet: Fleet, rows: seq<SummaryRow>, m: Measure, id: string)
    requires IsSummary(fleet, rows) && id in fleet
    ensures Sum(rows, PairAmounts(m, fleet[id])) == Positives(m)(fleet[id])
  {
    var n := fleet[id];
    RowsDiffer(fleet, rows);
    forall r | r in n.resources ensures Sum(rows, PairWeights(m, n.vendor, r)) == Positive(m, r) {
      OneRowTakes(rows, m, n.vendor, r);
      if r.allocatable > 0 {
        var k := CardType(n.vendor, r.cardType);
        assert Offers(n, k);
        assert RowFor(fleet, k) in rows by { assert Pair(RowFor(fleet, k)) == k; }
      }
    }
    var columns := (r: ResourceRow) => Sum(rows, PairWeights(m, n.vendor, r));
    var row := (x: SummaryRow) => Weights(Pair(x), m, n.vendor);
    var column := (r: ResourceRow) => PairWeights(m, n.vendor, r);
    assert forall x, r :: row(x)(r) == Weight(Pair(x), m, n.vendor, r) == column(r)(x);
    forall x ensures PairAmounts(m, n)(x) == Sum(n.resources, row(x)) {
      assert row(x) == Weights(Pair(x), m, n.vendor);
      assert PairAmounts(m, n)(x) == NodeAmount(Pair(x), m)(n);
    }
    SumExchange(rows, n.resources, row, column, PairAmounts(m, n), columns);
    SumSame(n.resources, columns, (r: ResourceRow) => Positive(m, r));
  }

  /** The summary counts every device with a positive allocatable once: no matter
    * how pairs are spread over nodes, its totals, and its held devices, add up to
    * the fleet's; and in every row the free devices are the others. */
  lemma SummaryConserves(fleet: Fleet, rows: seq<SummaryRow>)
    requires IsSummary(fleet, rows)
    ensures Sum(rows, (row: SummaryRow) => row.total) == FleetSum(fleet, Positives(Devices))
    ensures Sum(rows, (row: SummaryRow) => row.held) == FleetSum(fleet, Positives(InUseDevices))
    ensures forall row :: row in rows ==> row.free == row.total - row.held
  {
    AmountsAddUp(fleet, rows, Devices);
    AmountsAddUp(fleet, rows, InUseDevices);
    SumSame(rows, (row: SummaryRow) => row.total, Amounts(fleet, Devices));
    SumSame(rows, (row: SummaryRow) => row.held, Amounts(fleet, InUseDevices));
  }

  lemma AmountsAddUp(fleet: Fleet, rows: seq<SummaryRow>, m: Measure)
    requires IsSummary(fleet, rows)
    ensures Sum(rows, Amounts(fleet, m)) == FleetSum(fleet, Positives(m))
  {
    var ids := SortedNames(fleet.Keys);
    var row := (x: SummaryRow) => OnNode(fleet, NodeAmount(Pair(x), m));
    var column := (id: string) => if id in fleet then PairAmounts(m, fleet[id]) else (x: SummaryRow) => 0;
    var columns := (id: string) => Sum(rows, column(id));
    SumExchange(rows, ids, row, column, Amounts(fleet, m), columns);
    forall id | id in ids ensures columns(id) == OnNode(fleet, Positives(m))(id) { NodeIsShared(fleet, rows, m, id); }
    SumSame(ids, columns, OnNode(fleet, Positives(m)));
  }

  // ------------------------------------------------------------ the pair list

  const NUL := "\0"

  /** The provider keys its pairs by the two names joined with a NUL. */
  function Joined(k: CardType): string { k.vendor + NUL + k.cardType }

  predicate PairLess(a: CardType, b: CardType) {
    if a.vendor != b.vendor then Text.Less(a.vendor, b.vendor) else Text.Less(a.cardType, b.cardType)
  }

  predicate Covers(pairs: seq<CardType>, key: string) { exists p :: p in pairs && Joined(p) == key }

  ghost predicate PairsOfFleet(fleet: Fleet, pairs: seq<CardType>) {
    && (forall i, j :: 0 <= i < j < |pairs| ==> Joined(pairs[i]) != Joined(pairs[j]))
    && (forall k :: k in pairs ==> Present(fleet, k))
    && (forall k :: Present(fleet, k) ==> Covers(pairs, Joined(k)))
  }

  /** One pair for every joined key present, in order. */
  ghost predicate IsCardTypeList(fleet: Fleet, pairs: seq<CardType>) {
    Sorted(PairLess, pairs) && PairsOfFleet(fleet, pairs)
  }

  type Pairs = CardType -> bool

  /** `seen` holds, under its joined key, one of the pairs of every key so far. */
  ghost predicate Collected(seen: map<string, CardType>, some: Pairs) {
    && (forall key :: key in seen ==> Joined(seen[key]) == key && some(seen[key]))
    && (forall k :: some(k) ==> Joined(k) in seen)
  }

  ghost function OrOffered(some: Pairs, rs: seq<ResourceRow>, vendor: string): Pairs {
    (k: CardType) => some(k) || exists r :: r in rs && r.allocatable > 0 && k == CardType(vendor, r.cardType)
  }

  lemma CollectedSame(seen: map<string, CardType>, a: Pairs, b: Pairs)
    requires Collected(seen, a) && forall k :: a(k) <==> b(k)
    ensures Collected(seen, b)
  {
  }

  method AddPairs(seen: map<string, CardType>, n: CacheNode, ghost some: Pairs) returns (out: map<string, CardType>)
    requires Collected(seen, some)
    ensures Collected(out, OrOffered(some, n.resources, n.vendor))
  {
    out := seen;
    var rs := n.resources;
    CollectedSame(out, some, OrOffered(some, rs[..0], n.vendor));
    for j := 0 to |rs|
      invariant Collected(out, OrOffered(some, rs[..j], n.vendor))
    {
      assert rs[..j + 1] == rs[..j] + [rs[j]];
      var k := CardType(n.vendor, rs[j].cardType);
      var key := Joined(k);
      forall x ensures OrOffered(some, rs[..j + 1], n.vendor)(x)
                  <==> OrOffered(some, rs[..j], n.vendor)(x) || (rs[j].allocatable > 0 && x == k) { }
      if rs[j].allocatable > 0 && key !in out { out := out[key := k]; }
    }
    assert rs[..|rs|] == rs;
  }

  ghost function PresentIn(fleet: Fleet, ids: seq<string>): Pairs {
    (k: CardType) => exists id :: id in ids && id in fleet && Offers(fleet[id], k)
  }

  method CollectPairs(fleet: Fleet) returns (seen: map<string, CardType>)
    ensures Collected(seen, (k: CardType) => Present(fleet, k))
  {
    seen := map[];
    var ids := Range(fleet.Keys);
    for i := 0 to |ids|
      invariant Collected(seen, PresentIn(fleet, ids[..i]))
    {
      var n := fleet[ids[i]];
      ghost var some := PresentIn(fleet, ids[..i]);
      seen := AddPairs(seen, n, some);
      assert ids[..i + 1] == ids[..i] + [ids[i]];
      forall k ensures OrOffered(some, n.resources, n.vendor)(k) <==> PresentIn(fleet, ids[..i + 1])(k) {
        assert OrOffered(some, n.resources, n.vendor)(k) <==> some(k) || Offers(n, k);
        if Offers(n, k) { assert ids[i] in ids[..i + 1]; }
      }
      CollectedSame(seen, OrOffered(some, n.resources, n.vendor), PresentIn(fleet, ids[..i + 1]));
    }
    assert ids[..|ids|] == ids;
    CollectedSame(seen, PresentIn(fleet, ids), (k: CardType) => Present(fleet, k));
  }

  lemma PairOrder(a: CardType, b: CardType, c: CardType)
    ensures !PairLess(a, a)
    ensures PairLess(a, b) ==> !PairLess(b, a)
    ensures a != b ==> PairLess(a, b) != PairLess(b, a)
    ensures !PairLess(b, a) && !PairLess(c, b) ==> !PairLess(c, a)
  {
    var vendors, types := [a.vendor, b.vendor, c.vendor], [a.cardType, b.cardType, c.cardType];
    LessIsTotal(vendors);
    LessIsTotal(types);
    assert a.vendor in vendors && b.vendor in vendors && c.vendor in vendors;
    assert a.cardType in types && b.cardType in types && c.cardType in types;
  }

  lemma OrderPairs(pairs: seq<CardType>)
    ensures WeakOn(PairLess, pairs) && TotalOn(PairLess, pairs)
    ensures forall a, b :: a in pairs && b in pairs && PairLess(a, b) ==> !PairLess(b, a)
  {
    forall a, b, c | a in pairs && b in pairs && c in pairs
      ensures !PairLess(a, a) && (PairLess(a, b) ==> !PairLess(b, a))
      ensures a != b ==> PairLess(a, b) != PairLess(b, a)
      ensures !PairLess(b, a) && !PairLess(c, b) ==> !PairLess(c, a)
    {
      PairOrder(a, b, c);
    }
  }

  method Distinct(fleet: Fleet) returns (pairs: seq<CardType>)
    ensures IsCardTypeList(fleet, pairs)
  {
    var seen := CollectPairs(fleet);
    var keys := Range(seen.Keys);
    var out := seq(|keys|, i requires 0 <= i < |keys| => seen[keys[i]]);
    OutPairs(fleet, seen, keys, out);
    OrderPairs(out);
    pairs := SortSlice(out, PairLess);
    KeptPairs(fleet, out, pairs);
  }

  lemma OutPairs(fleet: Fleet, seen: map<string, CardType>, keys: seq<string>, out: seq<CardType>)
    requires Collected(seen, (k: CardType) => Present(fleet, k)) && Walks(keys, seen.Keys)
    requires |out| == |keys| && forall i :: 0 <= i < |out| ==> out[i] == seen[keys[i]]
    ensures PairsOfFleet(fleet, out)
  {
    forall k | Present(fleet, k) ensures Covers(out, Joined(k)) {
      assert Joined(k) in keys;
      var i :| 0 <= i < |keys| && keys[i] == Joined(k);
      assert out[i] in out;
    }
  }

  lemma KeptPairs(fleet: Fleet, out: seq<CardType>, pairs: seq<CardType>)
    requires PairsOfFleet(fleet, out) && multiset(out) == multiset(pairs)
    ensures PairsOfFleet(fleet, pairs)
  {
    SameMembers(out, pairs);
    assert NoRepeats(out);
    PermutedDistinct(out, pairs);
    forall i, j | 0 <= i < j < |pairs| ensures Joined(pairs[i]) != Joined(pairs[j]) {
      assert pairs[i] in out && pairs[j] in out && pairs[i] != pairs[j];
    }
  }

  /** No two pairs present share a joined key. */
  ghost predicate KeysTellApart(fleet: Fleet) {
    forall a, b :: Present(fleet, a) && Present(fleet, b) && Joined(a) == Joined(b) ==> a == b
  }

  predicate HasRow(rows: seq<SummaryRow>, k: CardType) { exists row :: row in rows && Pair(row) == k }

  lemma RowsCoverPairs(fleet: Fleet, rows: seq<SummaryRow>, k: CardType)
    requires IsSummary(fleet, rows)
    ensures HasRow(rows, k) <==> Present(fleet, k)
  {
    if Present(fleet, k) { assert RowFor(fleet, k) in rows by { assert Pair(RowFor(fleet, k)) == k; } }
  }

  lemma ListIsComplete(fleet: Fleet, pairs: seq<CardType>)
    requires IsCardTypeList(fleet, pairs)
    ensures (forall k :: k in pairs <==> Present(fleet, k)) <==> KeysTellApart(fleet)
  {
    if forall k :: k in pairs <==> Present(fleet, k) {
      forall a, b | Present(fleet, a) && Present(fleet, b) && Joined(a) == Joined(b) ensures a == b {
        var i :| 0 <= i < |pairs| && pairs[i] == a;
        var j :| 0 <= j < |pairs| && pairs[j] == b;
      }
    }
  }

  /** The provider lists exactly the pairs the summary has rows for if and only if
    * the joined keys tell the pairs apart ... */
  lemma ListAgreesWithSummary(fleet: Fleet, rows: seq<SummaryRow>, pairs: seq<CardType>)
    requires IsSummary(fleet, rows) && IsCardTypeList(fleet, pairs)
    ensures (forall k :: k in pairs <==> HasRow(rows, k)) <==> KeysTellApart(fleet)
  {
    forall k ensures HasRow(rows, k) <==> Present(fleet, k) { RowsCoverPairs(fleet, rows, k); }
    ListIsComplete(fleet, pairs);
  }

  /** ... which they do when no vendor contains a NUL ... */
  lemma JoinedIsInjective(a: CardType, b: CardType)
    requires '\0' !in a.vendor && '\0' !in b.vendor && Joined(a) == Joined(b)
    ensures a == b
  {
    var n, m := |a.vendor|, |b.vendor|;
    assert Joined(a)[n] == '\0' && Joined(b)[m] == '\0';
    assert forall i :: 0 <= i < n ==> Joined(a)[i] == a.vendor[i];
    assert forall i :: 0 <= i < m ==> Joined(b)[i] == b.vendor[i];
    assert n == m;
    assert Joined(a)[..n] == a.vendor && Joined(b)[..n] == b.vendor;
    assert Joined(a)[n + 1..] == a.cardType && Joined(b)[n + 1..] == b.cardType;
  }

  lemma PlainVendorsTellApart(fleet: Fleet)
    requires forall id :: id in fleet ==> '\0' !in fleet[id].vendor
    ensures KeysTellApart(fleet)
  {
    forall a, b | Present(fleet, a) && Present(fleet, b) && Joined(a) == Joined(b) ensures a == b {
      JoinedIsInjective(a, b);
    }
  }

  const ONE: CardType := CardType("a" + NUL + "b", "c")
  const OTHER: CardType := CardType("a", "b" + NUL + "c")

  lemma NulJoinsAlike()
    ensures Joined(ONE) == Joined(OTHER) && ONE != OTHER
  {
    assert |ONE.vendor| == 3 && |OTHER.vendor| == 1;
    assert ("a" + NUL + "b") + NUL + "c" == "a" + NUL + ("b" + NUL + "c");
  }

  function NodeWith(id: string, k: CardType): CacheNode {
    CacheNode(id, id, k.vendor, "healthy", 0, 1, [ResourceRow(k.cardType, 1, 0)])
  }

  /** One device of each of the two pairs. */
  const CONFUSED: Fleet := map["1" := NodeWith("1", ONE), "2" := NodeWith("2", OTHER)]

  function NodeReport(id: string, k: CardType): InventoryNode {
    InventoryNode(id, id, k.vendor, "ready", "healthy", 0, 1, [ResourceRow(k.cardType, 1, 0)])
  }

  /** It is what a snapshot message leaves in the cache; there a vendor is any text, though
    * the controller's own snapshots name one of four. */
  lemma ConfusedIsIngested()
    ensures Ingested([NodeReport("1", ONE), NodeReport("2", OTHER)]) == CONFUSED
  {
    var one, both := [NodeReport("1", ONE)], [NodeReport("1", ONE), NodeReport("2", OTHER)];
    assert both[..1] == one && one[..0] == [];
    assert Ingested(one) == map["1" := NodeWith("1", ONE)];
  }

  lemma OffersItsCard(id: string, k: CardType)
    ensures Offers(NodeWith(id, k), k)
  {
    assert ResourceRow(k.cardType, 1, 0) in NodeWith(id, k).resources;
  }

  lemma BothPresent()
    ensures Present(CONFUSED, ONE) && Present(CONFUSED, OTHER)
  {
    OffersItsCard("1", ONE);
    OffersItsCard("2", OTHER);
    assert "1" in CONFUSED && "2" in CONFUSED;
  }

  /** ... and do not in this fleet of two nodes: its summary has a row for either pair,
    * and its list leaves one of them out. */
  lemma NulConfusesKeys(rows: seq<SummaryRow>, pairs: seq<CardType>)
    requires IsSummary(CONFUSED, rows) && IsCardTypeList(CONFUSED, pairs)
    ensures !KeysTellApart(CONFUSED)
    ensures HasRow(rows, ONE) && HasRow(rows, OTHER) && !(ONE in pairs && OTHER in pairs)
  {
    NulJoinsAlike();
    BothPresent();
    RowsCoverPairs(CONFUSED, rows, ONE);
    RowsCoverPairs(CONFUSED, rows, OTHER);
  }

  lemma ListsAgree(fleet: Fleet, a: seq<CardType>, b: seq<CardType>)
    requires KeysTellApart(fleet)
    requires IsCardTypeList(fleet, a) && IsCardTypeList(fleet, b)
    ensures a == b
  {
    forall k ensures k in a <==> k in b { }
    var all := set k | k in a;
    assert Walks(a, all) && Walks(b, all);
    WalksArePermutations(a, b, all);
    OrderPairs(a);
    SortedIsUnique(PairLess, a, b);
  }

  lemma PairsReplaced(fleet: Fleet, a: seq<CardType>, i: nat, z: CardType)
    requires PairsOfFleet(fleet, a) && i < |a| && Present(fleet, z) && Joined(z) == Joined(a[i])
    ensures PairsOfFleet(fleet, a[i := z])
  {
    var out := a[i := z];
    forall k | k in out ensures Present(fleet, k) {
      var j :| 0 <= j < |out| && out[j] == k;
      if j != i { assert a[j] in a; }
    }
    forall k | Present(fleet, k) ensures Covers(out, Joined(k)) {
      var p :| p in a && Joined(p) == Joined(k);
      var j :| 0 <= j < |a| && a[j] == p;
      assert out[j] in out;
    }
  }

  /** Where two pairs share a joined key, a list may name either of them. */
  lemma AnotherList(fleet: Fleet, a: seq<CardType>, i: nat, z: CardType) returns (b: seq<CardType>)
    requires IsCardTypeList(fleet, a) && i < |a| && Present(fleet, z) && Joined(z) == Joined(a[i]) && z != a[i]
    ensures IsCardTypeList(fleet, b) && b != a
  {
    var out := a[i := z];
    PairsReplaced(fleet, a, i, z);
    OrderPairs(out);
    b := SortedExists(PairLess, out);
    KeptPairs(fleet, out, b);
    SameMembers(out, b);
    assert out[i] == z && z in b;
    assert z !in a;
  }

  /** The list is one, whatever order the maps are walked in, if and only if the joined
    * keys tell the pairs apart. */
  lemma ListIsUnique(fleet: Fleet, a: seq<CardType>)
    requires IsCardTypeList(fleet, a)
    ensures (forall b :: IsCardTypeList(fleet, b) ==> b == a) <==> KeysTellApart(fleet)
  {
    if KeysTellApart(fleet) {
      forall b | IsCardTypeList(fleet, b) ensures b == a { ListsAgree(fleet, a, b); }
    } else {
      var x, y :| Present(fleet, x) && Present(fleet, y) && Joined(x) == Joined(y) && x != y;
      assert Covers(a, Joined(x));
      var p :| p in a && Joined(p) == Joined(x);
      var i :| 0 <= i < |a| && a[i] == p;
      var b := AnotherList(fleet, a, i, if p == x then y else x);
    }
  }

  // -------------------------------------------------------------- end to end

  /** What the nodes advertise, leaving out resources with nothing to give. */
  ghost function PositiveCapacity(n: Node): int {
    SumOver(AcceleratorKeys(n), PositiveOf(n))
  }

  ghost function PositiveOf(n: Node): string -> int {
    (r: string) => if Get(n.allocatable, r) > 0 then Get(n.allocatable, r) else 0
  }

  ghost function RowDevices(n: CacheNode): ResourceRow -> int { (r: ResourceRow) => Positive(Devices, r) }

  lemma {:induction false} RowsAdvertise(n: Node, held: map<string, int>, order: seq<string>, c: CacheNode)
    ensures Sum(RowsOf(n, held, order), RowDevices(c)) == Sum(order, PositiveOf(n))
  {
    if order == [] {
    } else {
      var k := |order| - 1;
      assert RowsOf(n, held, order)[..k] == RowsOf(n, held, order[..k]);
      RowsAdvertise(n, held, order[..k], c);
    }
  }

  lemma NodeAdvertises(inv: InventoryNode, n: Node, pods: seq<Pod>)
    requires Reports(inv, n, pods)
    ensures Positives(Devices)(Cached(inv)) == PositiveCapacity(n)
  {
    var held :| ShareOf(pods, n.name, held) && Describes(inv, n, held);
    var order :| Walks(order, AcceleratorKeys(n)) && inv.resources == RowsOf(n, held, order);
    RowsAdvertise(n, held, order, Cached(inv));
    SumOfWalk(order, AcceleratorKeys(n), PositiveOf(n));
    SumSame(inv.resources, RowDevices(Cached(inv)), (r: ResourceRow) => Positive(Devices, r));
  }

  /** From the cluster to the console: the summary's totals are what the nodes
    * advertise, through the collector, the snapshot, the cache and the grouping. */
  lemma SummaryCountsTheCluster(nodes: seq<Node>, pods: seq<Pod>, snap: seq<InventoryNode>, rows: seq<SummaryRow>)
    requires Snapshot(nodes, pods, snap)
    requires forall i, j :: 0 <= i < j < |nodes| ==> nodes[i].uid != nodes[j].uid
    requires forall n :: n in nodes ==> n.uid != ""
    requires IsSummary(Ingested(snap), rows)
    ensures Sum(rows, (row: SummaryRow) => row.total) == Sum(nodes, (n: Node) => PositiveCapacity(n))
  {
    forall i | 0 <= i < |snap| ensures snap[i].nodeId == nodes[i].uid && nodes[i] in nodes {
      assert Reports(snap[i], nodes[i], pods);
    }
    SummaryConserves(Ingested(snap), rows);
    IngestedSum(snap, Positives(Devices));
    AdvertisedInStep(nodes, pods, snap);
  }

  lemma AdvertisedInStep(nodes: seq<Node>, pods: seq<Pod>, snap: seq<InventoryNode>)
    requires Snapshot(nodes, pods, snap)
    ensures Sum(snap, (inv: InventoryNode) => Positives(Devices)(Cached(inv)))
         == Sum(nodes, (n: Node) => PositiveCapacity(n))
  {
    forall i | 0 <= i < |nodes| ensures Positives(Devices)(Cached(snap[i])) == PositiveCapacity(nodes[i]) {
      assert Reports(snap[i], nodes[i], pods);
      NodeAdvertises(snap[i], nodes[i], pods);
    }
    SumInStep(snap, nodes, (inv: InventoryNode) => Positives(Devices)(Cached(inv)), (n: Node) => PositiveCapacity(n));
  }

  // ------------------------------------------------------ held, end to end

  ghost function HeldOf(n: Node, held: map<string, int>): string -> int {
    (r: string) => if Get(n.allocatable, r) > 0 then Get(held, r) else 0
  }

  ghost function RowHeld(): ResourceRow -> int { (r: ResourceRow) => Positive(InUseDevices, r) }

  lemma {:induction false} RowsHold(n: Node, held: map<string, int>, order: seq<string>)
    ensures Sum(RowsOf(n, held, order), RowHeld()) == Sum(order, HeldOf(n, held))
  {
    if order == [] {
    } else {
      var k := |order| - 1;
      assert RowsOf(n, held, order)[..k] == RowsOf(n, held, order[..k]);
      RowsHold(n, held, order[..k]);
    }
  }

  /** What the pods hold of the resources a node has something to give of. */
  ghost function HeldBy(pods: seq<Pod>): Node -> int {
    (n: Node) => SumOver(AcceleratorKeys(n), HeldOn(n, pods))
  }

  ghost function HeldOn(n: Node, pods: seq<Pod>): string -> int {
    (r: string) => if Get(n.allocatable, r) > 0 then Allocated(pods, n.name, r) else 0
  }

  lemma NodeHolds(inv: InventoryNode, n: Node, pods: seq<Pod>)
    requires Reports(inv, n, pods)
    ensures Positives(InUseDevices)(Cached(inv)) == HeldBy(pods)(n)
  {
    var held :| ShareOf(pods, n.name, held) && Describes(inv, n, held);
    var order :| Walks(order, AcceleratorKeys(n)) && inv.resources == RowsOf(n, held, order);
    RowsHold(n, held, order);
    SumOfWalk(order, AcceleratorKeys(n), HeldOf(n, held));
    SumOverSame(AcceleratorKeys(n), HeldOf(n, held), HeldOn(n, pods));
    SumSame(inv.resources, RowHeld(), (r: ResourceRow) => Positive(InUseDevices, r));
  }

  lemma HeldInStep(nodes: seq<Node>, pods: seq<Pod>, snap: seq<InventoryNode>)
    requires Snapshot(nodes, pods, snap)
    ensures Sum(snap, (inv: InventoryNode) => Positives(InUseDevices)(Cached(inv))) == Sum(nodes, HeldBy(pods))
  {
    forall i | 0 <= i < |nodes| ensures Positives(InUseDevices)(Cached(snap[i])) == HeldBy(pods)(nodes[i]) {
      assert Reports(snap[i], nodes[i], pods);
      NodeHolds(snap[i], nodes[i], pods);
    }
    SumInStep(snap, nodes, (inv: InventoryNode) => Positives(InUseDevices)(Cached(inv)), HeldBy(pods));
  }

  /** The summary's held devices are what the pods hold of the resources the nodes have
    * something to give of, from the pods' requests to the console's rows. */
  lemma SummaryHoldsWhatPodsHold(nodes: seq<Node>, pods: seq<Pod>, snap: seq<InventoryNode>, rows: seq<SummaryRow>)
    requires Snapshot(nodes, pods, snap)
    requires forall i, j :: 0 <= i < j < |nodes| ==> nodes[i].uid != nodes[j].uid
    requires forall n :: n in nodes ==> n.uid != ""
    requires IsSummary(Ingested(snap), rows)
    ensures Sum(rows, (row: SummaryRow) => row.held) == Sum(nodes, HeldBy(pods))
  {
    forall i | 0 <= i < |snap| ensures snap[i].nodeId == nodes[i].uid && nodes[i] in nodes {
      assert Reports(snap[i], nodes[i], pods);
    }
    SummaryConserves(Ingested(snap), rows);
    IngestedSum(snap, Positives(InUseDevices));
    HeldInStep(nodes, pods, snap);
  }

  predicate GivesAll(n: Node) { forall r :: r in n.allocatable && IsAccelerator(r) ==> n.allocatable[r] > 0 }

  lemma NodeHoldsAll(inv: InventoryNode, n: Node, pods: seq<Pod>)
    requires Reports(inv, n, pods) && GivesAll(n)
    ensures HeldBy(pods)(n) == inv.gpusAllocated
  {
    var held :| ShareOf(pods, n.name, held) && Describes(inv, n, held);
    SumOverSame(AcceleratorKeys(n), Using(held), HeldOn(n, pods));
  }

  lemma AllPositive(nodes: seq<Node>, pods: seq<Pod>, snap: seq<InventoryNode>)
    requires Snapshot(nodes, pods, snap) && forall n :: n in nodes ==> GivesAll(n)
    ensures Sum(nodes, HeldBy(pods)) == FleetAllocated(snap)
  {
    forall i | 0 <= i < |nodes| ensures HeldBy(pods)(nodes[i]) == snap[i].gpusAllocated {
      assert Reports(snap[i], nodes[i], pods);
      NodeHoldsAll(snap[i], nodes[i], pods);
    }
    SumInStep(nodes, snap, HeldBy(pods), (inv: InventoryNode) => inv.gpusAllocated);
  }

  /** Where every advertised resource has something to give, they are the fleet's whole
    * allocation: what the scheduled, unfinished pods of the listed nodes request. */
  lemma SummaryHoldsEveryRequest(nodes: seq<Node>, pods: seq<Pod>, snap: seq<InventoryNode>, rows: seq<SummaryRow>)
    requires Snapshot(nodes, pods, snap) && DistinctNodes(nodes)
    requires forall i, j :: 0 <= i < j < |nodes| ==> nodes[i].uid != nodes[j].uid
    requires forall n :: n in nodes ==> n.uid != "" && GivesAll(n)
    requires IsSummary(Ingested(snap), rows)
    ensures Sum(rows, (row: SummaryRow) => row.held) == Sum(pods, PodTotal(nodes))
  {
    SummaryHoldsWhatPodsHold(nodes, pods, snap, rows);
    AllPositive(nodes, pods, snap);
    FleetConservation(nodes, pods, snap);
  }

  // ---------------------------------------------------- what the rows mean

  ghost predicate RowOfPair(n: CacheNode, k: CardType, i: nat) {
    && i < |n.resources| && n.resources[i].allocatable > 0
    && n.vendor == k.vendor && n.resources[i].cardType == k.cardType
  }

  /** The node's resources of the pair that have something to give. */
  ghost function RowsOfPair(n: CacheNode, k: CardType): set<nat> {
    set i: nat | i < |n.resources| && RowOfPair(n, k, i)
  }

  lemma {:induction false} CountedRows(n: CacheNode, k: CardType)
    ensures NodeAmount(k, Rows)(n) == |RowsOfPair(n, k)|
    decreases |n.resources|
  {
    var rs := n.resources;
    if rs == [] {
      assert RowsOfPair(n, k) == {};
    } else {
      var last := |rs| - 1;
      var front := n.(resources := rs[..last]);
      CountedRows(front, k);
      forall i: nat | i < last ensures RowOfPair(n, k, i) <==> RowOfPair(front, k, i) { }
      assert RowsOfPair(n, k) == RowsOfPair(front, k) + if RowOfPair(n, k, last) then {last} else {};
      assert last !in RowsOfPair(front, k);
    }
  }

  /** A row's "nodes" are the resources of its pair that have something to give, summed
    * over the nodes: a node that lists a pair twice counts twice. */
  lemma NodeCountMeans(fleet: Fleet, rows: seq<SummaryRow>, row: SummaryRow)
    requires IsSummary(fleet, rows) && row in rows
    ensures row.nodeCount == FleetSum(fleet, (n: CacheNode) => |RowsOfPair(n, CardType(row.vendor, row.cardType))|)
    ensures row.free == row.total - row.held
  {
    var k := CardType(row.vendor, row.cardType);
    var f := (n: CacheNode) => |RowsOfPair(n, k)|;
    forall n ensures NodeAmount(k, Rows)(n) == f(n) { CountedRows(n, k); }
    SumOverSame(fleet.Keys, OnNode(fleet, NodeAmount(k, Rows)), OnNode(fleet, f));
  }

  lemma RowIsFixed(fleet: Fleet, rows: seq<SummaryRow>, row: SummaryRow)
    requires IsSummary(fleet, rows) && row in rows
    ensures row == RowFor(fleet, Pair(row))
  {
  }

  /** The summary goes by vendor, within a vendor from the fewest free devices up, and
    * among equals by card type. */
  lemma SummaryIsOrdered(fleet: Fleet, rows: seq<SummaryRow>, i: nat, j: nat)
    requires IsSummary(fleet, rows) && i < j < |rows|
    ensures Text.Less(rows[i].vendor, rows[j].vendor) || (
              && rows[i].vendor == rows[j].vendor
              && (rows[i].free < rows[j].free
                  || (rows[i].free == rows[j].free && Text.Less(rows[i].cardType, rows[j].cardType))))
  {
    var a, b := rows[i], rows[j];
    assert !SummaryLess(b, a) && a != b;
    RowIsFixed(fleet, rows, a);
    RowIsFixed(fleet, rows, b);
    Text.LessTotal(a.vendor, b.vendor);
    Text.LessTotal(a.cardType, b.cardType);
  }

  /** The list of pairs goes by vendor and then by card type. */
  lemma ListIsOrdered(fleet: Fleet, pairs: seq<CardType>, i: nat, j: nat)
    requires IsCardTypeList(fleet, pairs) && i < j < |pairs|
    ensures Text.Less(pairs[i].vendor, pairs[j].vendor)
         || (pairs[i].vendor == pairs[j].vendor && Text.Less(pairs[i].cardType, pairs[j].cardType))
  {
    assert !PairLess(pairs[j], pairs[i]) && Joined(pairs[i]) != Joined(pairs[j]);
    Text.LessTotal(pairs[i].vendor, pairs[j].vendor);
    Text.LessTotal(pairs[i].cardType, pairs[j].cardType);
  }
}
