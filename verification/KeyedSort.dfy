/** Sorting by an integer key, as sort.Slice does it: in any way that leaves the keys in order. */
module KeyedSort {
  ghost predicate Sorted<T(!new)>(key: T -> int, s: seq<T>) {
    forall i, j :: 0 <= i < j < |s| ==> key(s[i]) <= key(s[j])
  }

  /** Different elements have different keys. */
  ghost predicate DistinctKeys<T(!new)>(key: T -> int, s: seq<T>) {
    forall i, j :: 0 <= i < |s| && 0 <= j < |s| && key(s[i]) == key(s[j]) ==> s[i] == s[j]
  }

  /** What sort.Slice may leave behind; it is not stable. */
  ghost predicate Outcome<T(!new)>(key: T -> int, s: seq<T>, sorted: seq<T>) {
    multiset(sorted) == multiset(s) && Sorted(key, sorted)
  }

  method Sort<T(!new)>(key: T -> int, s: seq<T>) returns (sorted: seq<T>)
    ensures Outcome(key, s, sorted)
  {
    sorted := [];
    var k := 0;
    while k < |s|
      invariant 0 <= k <= |s|
      invariant Outcome(key, s[..k], sorted)
    {
      sorted := Insert(key, sorted, s[k]);
      assert s[..k + 1] == s[..k] + [s[k]];
      k := k + 1;
    }
    assert s[..|s|] == s;
  }

  method Insert<T(!new)>(key: T -> int, s: seq<T>, x: T) returns (out: seq<T>)
    requires Sorted(key, s)
    ensures Outcome(key, s + [x], out)
  {
    var p := |s|;
    while p > 0 && key(s[p - 1]) > key(x)
      invariant 0 <= p <= |s|
      invariant forall i :: p <= i < |s| ==> key(s[i]) > key(x)
    {
      p := p - 1;
    }
    out := s[..p] + [x] + s[p..];
    SortedSplice(key, s, x, p);
    Splice(s, x, p);
  }

  lemma SortedSplice<T(!new)>(key: T -> int, s: seq<T>, x: T, p: nat)
    requires Sorted(key, s) && p <= |s| && (p > 0 ==> key(s[p - 1]) <= key(x))
    requires forall i :: p <= i < |s| ==> key(s[i]) > key(x)
    ensures Sorted(key, s[..p] + [x] + s[p..])
  {
    var out := s[..p] + [x] + s[p..];
    assert forall i :: 0 <= i < p ==> key(s[i]) <= key(x);
    assert forall k :: 0 <= k < |out| ==> out[k] == if k < p then s[k] else if k == p then x else s[k - 1];
  }

  lemma Splice<T>(s: seq<T>, x: T, p: nat)
    requires p <= |s|
    ensures multiset(s[..p] + [x] + s[p..]) == multiset(s) + multiset{x} == multiset(s + [x])
  {
    assert s == s[..p] + s[p..];
  }

  lemma SameLength<T>(a: seq<T>, b: seq<T>)
    requires multiset(a) == multiset(b)
    ensures |a| == |b|
  {
    assert |multiset(a)| == |a| && |multiset(b)| == |b|;
  }

  lemma SameFirst<T(!new)>(key: T -> int, a: seq<T>, b: seq<T>)
    requires multiset(a) == multiset(b) && Sorted(key, a) && Sorted(key, b) && DistinctKeys(key, a)
    requires a != [] && b != []
    ensures a[0] == b[0]
  {
    assert a[0] in multiset(b) && b[0] in multiset(a);
    var i :| 0 <= i < |a| && a[i] == b[0];
    var j :| 0 <= j < |b| && b[j] == a[0];
    assert key(b[0]) <= key(b[j]);
  }

  lemma Tail<T>(s: seq<T>)
    requires s != []
    ensures multiset(s[1..]) == multiset(s) - multiset{s[0]}
  {
    assert s == [s[0]] + s[1..];
  }

  /** With distinct keys there is only one way to sort. */
  lemma {:induction false} SortUnique<T(!new)>(key: T -> int, a: seq<T>, b: seq<T>)
    requires multiset(a) == multiset(b) && Sorted(key, a) && Sorted(key, b) && DistinctKeys(key, a)
    ensures a == b
  {
    SameLength(a, b);
    if a == [] {
    } else {
      SameFirst(key, a, b);
      Tail(a);
      Tail(b);
      SortUnique(key, a[1..], b[1..]);
      assert a == [a[0]] + a[1..] && b == [b[0]] + b[1..];
    }
  }

  /** Keys are distinct in every arrangement or in none. */
  lemma DistinctInAnyOrder<T(!new)>(key: T -> int, a: seq<T>, b: seq<T>)
    requires multiset(a) == multiset(b) && DistinctKeys(key, a)
    ensures DistinctKeys(key, b)
  {
    forall i, j | 0 <= i < |b| && 0 <= j < |b| && key(b[i]) == key(b[j])
      ensures b[i] == b[j]
    {
      assert b[i] in multiset(a) && b[j] in multiset(a);
    }
  }

  /** Elements with equal keys can be swapped. */
  lemma SwapEqual<T(!new)>(key: T -> int, s: seq<T>, sorted: seq<T>, i: nat, j: nat) returns (other: seq<T>)
    requires Outcome(key, s, sorted) && i < j < |sorted| && key(sorted[i]) == key(sorted[j]) && sorted[i] != sorted[j]
    ensures Outcome(key, s, other) && other != sorted
  {
    other := sorted[i := sorted[j]][j := sorted[i]];
    assert forall k :: 0 <= k < |other| ==> key(other[k]) == key(sorted[k]);
    assert other[i] != sorted[i];
  }

  /** The result of the sort is determined by its input exactly when different elements have different keys. */
  lemma UniqueIffDistinct<T(!new)>(key: T -> int, s: seq<T>, sorted: seq<T>)
    requires Outcome(key, s, sorted)
    ensures (forall other :: Outcome(key, s, other) ==> other == sorted) <==> DistinctKeys(key, s)
  {
    if DistinctKeys(key, s) {
      DistinctInAnyOrder(key, s, sorted);
      forall other | Outcome(key, s, other)
        ensures other == sorted
      {
        SortUnique(key, sorted, other);
      }
    } else {
      if DistinctKeys(key, sorted) {
        DistinctInAnyOrder(key, sorted, s);
      }
      var i, j :| 0 <= i < |sorted| && 0 <= j < |sorted| && key(sorted[i]) == key(sorted[j]) && sorted[i] != sorted[j];
      var lo, hi := if i < j then i else j, if i < j then j else i;
      var other := SwapEqual(key, s, sorted, lo, hi);
    }
  }
}
