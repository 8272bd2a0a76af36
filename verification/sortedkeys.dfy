/** String keys in byte order, and sums over the keys of a map. */
module SortedKeys {
  import opened Ordering
  import Text

  /** The keys in byte order: there is exactly one such walk. */
  ghost function SortedNames(keys: set<string>): (names: seq<string>)
    ensures Walks(names, keys) && Sorted(Text.Less, names)
  {
    SortedWalkExists(keys);
    var names :| Walks(names, keys) && Sorted(Text.Less, names);
    names
  }

  lemma LessIsTotal(xs: seq<string>)
    ensures TotalOn(Text.Less, xs) && WeakOn(Text.Less, xs)
    ensures forall a, b :: a in xs && b in xs && Text.Less(a, b) ==> !Text.Less(b, a)
  {
    forall a, b | a in xs && b in xs ensures a != b ==> Text.Less(a, b) != Text.Less(b, a) {
      Text.LessTotal(a, b);
    }
    forall a | a in xs ensures !Text.Less(a, a) { Text.LessTotal(a, a); }
    forall a, b, c | a in xs && b in xs && c in xs && !Text.Less(b, a) && !Text.Less(c, b) ensures !Text.Less(c, a) {
      Text.LessTotal(a, b);
      Text.LessTotal(b, c);
      Text.LessTotal(a, c);
      if Text.Less(a, b) && Text.Less(b, c) { Text.LessTransitive(a, b, c); }
    }
    forall a, b | a in xs && b in xs && Text.Less(a, b) ensures !Text.Less(b, a) { Text.LessTotal(a, b); }
  }

  lemma {:induction false} WalkExists(keys: set<string>) returns (order: seq<string>)
    ensures Walks(order, keys)
  {
    if keys == {} {
      order := [];
    } else {
      var k :| k in keys;
      var rest := WalkExists(keys - {k});
      order := rest + [k];
    }
  }

  lemma SortedWalkExists(keys: set<string>)
    ensures exists names :: Walks(names, keys) && Sorted(Text.Less, names)
  {
    var order := WalkExists(keys);
    LessIsTotal(order);
    var names := SortedExists(Text.Less, order);
    PermutedDistinct(order, names);
    SameMembers(order, names);
    assert Walks(names, keys);
  }

  lemma SortedNamesFound(keys: set<string>, order: seq<string>, names: seq<string>)
    requires Walks(order, keys) && multiset(names) == multiset(order) && Sorted(Text.Less, names)
    ensures names == SortedNames(keys)
    ensures forall n :: n in names ==> n in keys
  {
    WalksArePermutations(order, SortedNames(keys), keys);
    LessIsTotal(names);
    SortedIsUnique(Text.Less, names, SortedNames(keys));
  }

  /** Σ f(k) over a set of keys. */
  ghost function SumOver(keys: set<string>, f: string -> int): int {
    Sum(SortedNames(keys), f)
  }

  /** Any walk of the keys gives this sum. */
  lemma SumOfWalk(order: seq<string>, keys: set<string>, f: string -> int)
    requires Walks(order, keys)
    ensures Sum(order, f) == SumOver(keys, f)
  {
    WalksArePermutations(order, SortedNames(keys), keys);
    SumPermutation(order, SortedNames(keys), f);
  }

  lemma SumOverSame(keys: set<string>, f: string -> int, g: string -> int)
    requires forall k :: k in keys ==> f(k) == g(k)
    ensures SumOver(keys, f) == SumOver(keys, g)
  {
    SumSame(SortedNames(keys), f, g);
  }

  lemma SumOverAdjoin(keys: set<string>, k: string, f: string -> int)
    requires k !in keys
    ensures SumOver(keys + {k}, f) == SumOver(keys, f) + f(k)
  {
    var order := SortedNames(keys) + [k];
    assert k !in SortedNames(keys);
    assert Walks(order, keys + {k});
    SumOfWalk(order, keys + {k}, f);
    assert order[..|order| - 1] == SortedNames(keys);
  }

  // ------------------------------------------------------- laying maps over

  function Picked<V>(m: map<string, V>, keep: string -> bool): map<string, V> {
    map k | k in m && keep(k) :: m[k]
  }

  predicate AnyKey(k: string) { true }

  lemma PickedAny<V>(m: map<string, V>)
    ensures Picked(m, AnyKey) == m
  {
  }

  /** One map laid over another, key by key in whatever order they come. */
  method Overlay<V>(m: map<string, V>, src: map<string, V>, keep: string -> bool) returns (out: map<string, V>)
    ensures out == m + Picked(src, keep)
  {
    out := m;
    var order := Range(src.Keys);
    for i := 0 to |order|
      invariant forall k :: k in out <==> k in m || (k in order[..i] && keep(k))
      invariant forall k :: k in order[..i] && keep(k) ==> k in src && out[k] == src[k]
      invariant forall k :: k in out && !(k in order[..i] && keep(k)) ==> out[k] == m[k]
    {
      assert order[..i + 1] == order[..i] + [order[i]];
      if keep(order[i]) { out := out[order[i] := src[order[i]]]; }
    }
    assert order[..|order|] == order;
  }
}
