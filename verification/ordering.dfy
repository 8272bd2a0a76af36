/** Go's map iteration and slice sorting. Both leave something open: a map may be
  * walked in any order, and sort.Slice may place equal elements either way. Their
  * contracts promise no more than that, so whatever is proved of a caller holds
  * for every order. */
module Ordering {

  /** `order` walks the keys of a map: each one once, in some order. */
  ghost predicate Walks<K(!new)>(order: seq<K>, keys: set<K>) {
    && (forall k :: k in keys <==> k in order)
    && (forall i, j :: 0 <= i < j < |order| ==> order[i] != order[j])
  }

  /** `for k := range m`: the walk is some enumeration of the keys. */
  method Range<K(==,!new)>(keys: set<K>) returns (order: seq<K>)
    ensures Walks(order, keys)
  {
    order := [];
    var left := keys;
    while left != {}
      invariant left <= keys
      invariant Walks(order, keys - left)
      decreases left
    {
      var k :| k in left;
      assert k !in order;
      order := order + [k];
      left := left - {k};
    }
    assert keys - left == keys;
  }

  /** Two walks of one map are permutations of each other. */
  lemma WalksArePermutations<K(!new)>(a: seq<K>, b: seq<K>, keys: set<K>)
    requires Walks(a, keys) && Walks(b, keys)
    ensures multiset(a) == multiset(b)
  {
    WalkCounts(a);
    WalkCounts(b);
    forall k ensures multiset(a)[k] == multiset(b)[k] {
      assert k in a <==> k in multiset(a);
      assert k in b <==> k in multiset(b);
      assert k in a <==> k in b by { assert k in keys <==> k in a; assert k in keys <==> k in b; }
    }
  }

  lemma {:induction false} WalkCounts<K>(a: seq<K>)
    requires forall i, j :: 0 <= i < j < |a| ==> a[i] != a[j]
    ensures forall k :: k in a ==> multiset(a)[k] == 1
  {
    if a == [] {
    } else {
      var front, last := a[..|a| - 1], a[|a| - 1];
      WalkCounts(front);
      assert a == front + [last];
      assert last !in front;
      assert multiset(a) == multiset(front) + multiset{last};
    }
  }

  /** What holds each element once still does in another order. */
  lemma PermutedDistinct<T(!new)>(xs: seq<T>, ys: seq<T>)
    requires multiset(xs) == multiset(ys) && forall i, j :: 0 <= i < j < |xs| ==> xs[i] != xs[j]
    ensures forall i, j :: 0 <= i < j < |ys| ==> ys[i] != ys[j]
  {
    WalkCounts(xs);
    forall i, j | 0 <= i < j < |ys| ensures ys[i] != ys[j] {
      assert ys == ys[..j] + [ys[j]] + ys[j + 1..];
      assert ys[..j][i] == ys[i];
      assert multiset(ys) == multiset(ys[..j]) + multiset{ys[j]} + multiset(ys[j + 1..]);
      assert multiset(ys[..j])[ys[i]] >= 1 && ys[j] in multiset(xs) && multiset(xs)[ys[j]] == 1;
    }
  }

  /** The guarantee of sort.Slice: no element is less than one before it. */
  ghost predicate Sorted<T>(less: (T, T) -> bool, xs: seq<T>) {
    forall i, j :: 0 <= i < j < |xs| ==> !less(xs[j], xs[i])
  }

  /** `less` orders any two different members of xs, one way only. */
  ghost predicate TotalOn<T>(less: (T, T) -> bool, xs: seq<T>) {
    forall a, b :: a in xs && b in xs && a != b ==> less(a, b) != less(b, a)
  }

  ghost predicate WeakOn<T>(less: (T, T) -> bool, xs: seq<T>) {
    && (forall a :: a in xs ==> !less(a, a))
    && (forall a, b, c :: a in xs && b in xs && c in xs && !less(b, a) && !less(c, b) ==> !less(c, a))
  }

  /** sort.Slice: some sorted permutation of the slice. */
  method SortSlice<T(!new)>(xs: seq<T>, less: (T, T) -> bool) returns (ys: seq<T>)
    requires WeakOn(less, xs)
    requires forall a, b :: a in xs && b in xs && less(a, b) ==> !less(b, a)
    ensures multiset(ys) == multiset(xs)
    ensures Sorted(less, ys)
  {
    ys := [];
    for n := 0 to |xs|
      invariant multiset(ys) == multiset(xs[..n])
      invariant Sorted(less, ys)
    {
      var x := xs[n];
      assert xs[..n + 1] == xs[..n] + [x];
      SameMembers(ys, xs[..n]);
      var p := |ys|;
      while p > 0 && less(x, ys[p - 1])
        invariant 0 <= p <= |ys|
        invariant forall i :: p <= i < |ys| ==> less(x, ys[i])
      {
        p := p - 1;
      }
      var zs := ys[..p] + [x] + ys[p..];
      assert ys == ys[..p] + ys[p..];
      InsertKeepsSorted(less, xs, ys, x, p);
      ys := zs;
    }
    assert xs[..|xs|] == xs;
  }

  lemma SameMembers<T(!new)>(a: seq<T>, b: seq<T>)
    requires multiset(a) == multiset(b)
    ensures forall x :: x in a <==> x in b
    ensures |a| == |b|
  {
    forall x ensures x in a <==> x in b {
      assert x in a <==> x in multiset(a);
      assert x in b <==> x in multiset(b);
    }
    assert |a| == |multiset(a)| && |b| == |multiset(b)|;
  }

  lemma InsertKeepsSorted<T(!new)>(less: (T, T) -> bool, xs: seq<T>, ys: seq<T>, x: T, p: nat)
    requires p <= |ys| && x in xs && (forall y :: y in ys ==> y in xs)
    requires WeakOn(less, xs)
    requires forall a, b :: a in xs && b in xs && less(a, b) ==> !less(b, a)
    requires Sorted(less, ys)
    requires forall i :: p <= i < |ys| ==> less(x, ys[i])
    requires p > 0 ==> !less(x, ys[p - 1])
    ensures Sorted(less, ys[..p] + [x] + ys[p..])
  {
    var zs := ys[..p] + [x] + ys[p..];
    forall i, j | 0 <= i < j < |zs| ensures !less(zs[j], zs[i]) {
      if j == p {
        assert zs[i] == ys[i];
        if i < p - 1 { assert !less(ys[p - 1], ys[i]); assert ys[p - 1] in ys && ys[i] in ys; }
      } else if i == p {
        assert zs[j] == ys[j - 1];
        assert ys[j - 1] in ys;
      }
    }
  }

  /** Where x goes among sorted elements. */
  lemma {:induction false} SlotFor<T>(less: (T, T) -> bool, ys: seq<T>, x: T, n: nat) returns (p: nat)
    requires n <= |ys| && forall i :: n <= i < |ys| ==> less(x, ys[i])
    ensures p <= |ys| && (p > 0 ==> !less(x, ys[p - 1]))
    ensures forall i :: p <= i < |ys| ==> less(x, ys[i])
  {
    if n == 0 || !less(x, ys[n - 1]) {
      p := n;
    } else {
      p := SlotFor(less, ys, x, n - 1);
    }
  }

  lemma InsertedMembers<T>(ys: seq<T>, x: T, p: nat)
    requires p <= |ys|
    ensures multiset(ys[..p] + [x] + ys[p..]) == multiset(ys) + multiset{x}
  {
    assert ys == ys[..p] + ys[p..];
  }

  /** So every slice has a sorted permutation. */
  lemma {:induction false} SortedExists<T(!new)>(less: (T, T) -> bool, xs: seq<T>) returns (ys: seq<T>)
    requires WeakOn(less, xs)
    requires forall a, b :: a in xs && b in xs && less(a, b) ==> !less(b, a)
    ensures multiset(ys) == multiset(xs) && Sorted(less, ys)
  {
    if xs == [] {
      ys := [];
    } else {
      var front, x := xs[..|xs| - 1], xs[|xs| - 1];
      assert xs == front + [x];
      var zs := SortedExists(less, front);
      SameMembers(zs, front);
      var p := SlotFor(less, zs, x, |zs|);
      InsertKeepsSorted(less, xs, zs, x, p);
      InsertedMembers(zs, x, p);
      ys := zs[..p] + [x] + zs[p..];
    }
  }

  lemma DropLast<T>(xs: seq<T>)
    requires xs != []
    ensures multiset(xs[..|xs| - 1]) == multiset(xs) - multiset{xs[|xs| - 1]}
  {
    assert xs == xs[..|xs| - 1] + [xs[|xs| - 1]];
  }

  /** Two sorted permutations end with the same element. */
  lemma LastIsUnique<T(!new)>(less: (T, T) -> bool, xs: seq<T>, ys: seq<T>)
    requires multiset(xs) == multiset(ys) && xs != [] && ys != []
    requires Sorted(less, xs) && Sorted(less, ys) && TotalOn(less, xs)
    ensures xs[|xs| - 1] == ys[|ys| - 1]
  {
    var a, b := xs[|xs| - 1], ys[|ys| - 1];
    assert a in xs && b in ys;
    SameMembers(xs, ys);
  }

  lemma SortedPrefix<T(!new)>(less: (T, T) -> bool, xs: seq<T>)
    requires Sorted(less, xs) && xs != []
    ensures Sorted(less, xs[..|xs| - 1])
    ensures TotalOn(less, xs) ==> TotalOn(less, xs[..|xs| - 1])
  {
  }

  /** A sorted permutation is unique when the order tells all its members apart,
    * so the unstable sort and the arbitrary walk before it leave no trace. */
  lemma {:induction false} SortedIsUnique<T(!new)>(less: (T, T) -> bool, xs: seq<T>, ys: seq<T>)
    requires multiset(xs) == multiset(ys)
    requires Sorted(less, xs) && Sorted(less, ys)
    requires TotalOn(less, xs)
    ensures xs == ys
  {
    assert |xs| == |multiset(xs)| && |ys| == |multiset(ys)|;
    if xs == [] {
    } else {
      var p, q := xs[..|xs| - 1], ys[..|ys| - 1];
      assert xs[|xs| - 1] == ys[|ys| - 1] by { LastIsUnique(less, xs, ys); }
      assert multiset(p) == multiset(q) by { DropLast(xs); DropLast(ys); }
      SortedPrefix(less, xs);
      SortedPrefix(less, ys);
      SortedIsUnique(less, p, q);
      assert xs == p + [xs[|xs| - 1]] && ys == q + [ys[|ys| - 1]];
    }
  }

  /** Σ f(x) over a sequence. */
  function Sum<T>(xs: seq<T>, f: T -> int): int {
    if xs == [] then 0 else Sum(xs[..|xs| - 1], f) + f(xs[|xs| - 1])
  }

  lemma {:induction false} SumConcat<T>(xs: seq<T>, ys: seq<T>, f: T -> int)
    ensures Sum(xs + ys, f) == Sum(xs, f) + Sum(ys, f)
  {
    if ys == [] {
      assert xs + ys == xs;
    } else {
      var n := |ys| - 1;
      SumConcat(xs, ys[..n], f);
      assert (xs + ys)[..|xs + ys| - 1] == xs + ys[..n];
    }
  }

  lemma {:induction false} SumPermutation<T(!new)>(xs: seq<T>, ys: seq<T>, f: T -> int)
    requires multiset(xs) == multiset(ys)
    ensures Sum(xs, f) == Sum(ys, f)
  {
    SameMembers(xs, ys);
    if xs == [] {
    } else {
      var n := |xs| - 1;
      var x := xs[n];
      assert x in ys;
      var i :| 0 <= i < |ys| && ys[i] == x;
      var rest := ys[..i] + ys[i + 1..];
      assert ys == ys[..i] + [x] + ys[i + 1..];
      assert xs == xs[..n] + [x];
      assert multiset(rest) == multiset(ys) - multiset{x};
      assert multiset(xs[..n]) == multiset(xs) - multiset{x};
      SumPermutation(xs[..n], rest, f);
      SumConcat(ys[..i], ys[i + 1..], f);
      SumConcat(ys[..i] + [x], ys[i + 1..], f);
      SumConcat(ys[..i], [x], f);
      assert Sum([x], f) == f(x) by { assert [x][..0] == []; }
    }
  }

  /** Exchanging the order of a double sum: by rows, then by columns. */
  lemma {:induction false} SumExchange<A(!new), B(!new)>(
    xs: seq<A>, ys: seq<B>, row: A -> (B -> int), column: B -> (A -> int), rows: A -> int, columns: B -> int)
    requires forall x, y :: row(x)(y) == column(y)(x)
    requires forall x :: rows(x) == Sum(ys, row(x))
    requires forall y :: columns(y) == Sum(xs, column(y))
    ensures Sum(xs, rows) == Sum(ys, columns)
  {
    if xs == [] {
      SumZero(ys, columns);
    } else {
      var n := |xs| - 1;
      var fewer := (y: B) => Sum(xs[..n], column(y));
      SumExchange(xs[..n], ys, row, column, rows, fewer);
      SumAdd(ys, fewer, row(xs[n]), columns);
    }
  }

  lemma {:induction false} SumZero<T>(xs: seq<T>, f: T -> int)
    requires forall x :: x in xs ==> f(x) == 0
    ensures Sum(xs, f) == 0
  {
    if xs == [] {
    } else {
      SumZero(xs[..|xs| - 1], f);
    }
  }

  lemma {:induction false} SumAdd<T>(xs: seq<T>, f: T -> int, g: T -> int, h: T -> int)
    requires forall x :: x in xs ==> h(x) == f(x) + g(x)
    ensures Sum(xs, h) == Sum(xs, f) + Sum(xs, g)
  {
    if xs == [] {
    } else {
      SumAdd(xs[..|xs| - 1], f, g, h);
    }
  }

  lemma {:induction false} SumSame<T>(xs: seq<T>, f: T -> int, g: T -> int)
    requires forall x :: x in xs ==> f(x) == g(x)
    ensures Sum(xs, f) == Sum(xs, g)
  {
    if xs == [] {
    } else {
      SumSame(xs[..|xs| - 1], f, g);
    }
  }

  /** Two sequences that agree in step have one sum. */
  lemma {:induction false} SumInStep<A, B>(xs: seq<A>, ys: seq<B>, f: A -> int, g: B -> int)
    requires |xs| == |ys| && forall i :: 0 <= i < |xs| ==> f(xs[i]) == g(ys[i])
    ensures Sum(xs, f) == Sum(ys, g)
  {
    if xs == [] {
    } else {
      SumInStep(xs[..|xs| - 1], ys[..|ys| - 1], f, g);
    }
  }
}
