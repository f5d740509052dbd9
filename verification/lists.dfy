/** What the controllers do to a slice in place: keep some elements, and sort by a key. */
module Lists {
  import opened Prelude

  predicate Sorted<T>(s: seq<T>, key: T -> int) {
    forall i, j :: 0 <= i < j < |s| ==> key(s[i]) <= key(s[j])
  }

  predicate NoRepeats<T(==)>(s: seq<T>) {
    forall i, j :: 0 <= i < j < |s| ==> s[i] != s[j]
  }

  /** No two different elements have the same key. */
  ghost predicate KeysDiffer<T(!new)>(s: seq<T>, key: T -> int) {
    forall x, y :: x in s && y in s && key(x) == key(y) ==> x == y
  }

  function Without<T>(s: seq<T>, k: nat): seq<T>
    requires k < |s|
  {
    s[..k] + s[k + 1..]
  }

  lemma WithoutFront<T>(s: seq<T>, k: nat)
    requires k < |s|
    ensures var n := |s| - 1;
            Without(s, k) == if k == n then s[..n] else Without(s[..n], k) + [s[n]]
  {
  }

  lemma FilterNext<T(!new)>(s: seq<T>, n: nat, p: T -> bool)
    requires n < |s|
    ensures Filter(s[..n + 1], p) == Filter(s[..n], p) + if p(s[n]) then [s[n]] else []
    ensures |Filter(s[..n], p)| <= n
  {
    assert s[..n + 1][..n] == s[..n];
  }

  lemma {:induction false} FilterCount<T(!new)>(s: seq<T>, p: T -> bool, x: T)
    ensures multiset(Filter(s, p))[x] == if p(x) then multiset(s)[x] else 0
  {
    if s != [] {
      var n := |s| - 1;
      FilterCount(s[..n], p, x);
      assert s == s[..n] + [s[n]];
    }
  }

  /** The first n of the elements `was` have been gone through, and the first `kept` places filled. */
  ghost predicate Compacted<T(!new)>(items: array<T>, was: seq<T>, kept: nat, n: nat, p: T -> bool)
    reads items
  {
    && kept <= n <= |was| <= items.Length
    && items[..kept] == Filter(was[..n], p)
    && forall k :: n <= k < |was| ==> items[k] == was[k]
  }

  /** One turn of a loop that overwrites Items[i] with a moving index. */
  method KeepNext<T(!new)>(items: array<T>, ghost was: seq<T>, kept: nat, n: nat, ghost p: T -> bool,
                           stay: bool)
    returns (next: nat)
    requires n < |was| && Compacted(items, was, kept, n, p) && stay == p(was[n])
    modifies items
    ensures Compacted(items, was, next, n + 1, p)
  {
    FilterNext(was, n, p);
    next := kept;
    if stay {
      items[kept] := items[n];
      next := kept + 1;
    }
  }

  /** The whole loop: what it keeps is at the front, and the rest is cut off afterwards. */
  method Keep<T(!new)>(items: array<T>, p: T -> bool) returns (kept: nat)
    modifies items
    ensures kept <= items.Length
    ensures items[..kept] == Filter(old(items[..]), p)
  {
    ghost var was := items[..];
    kept := 0;
    for n := 0 to items.Length
      invariant Compacted(items, was, kept, n, p)
    {
      kept := KeepNext(items, was, kept, n, p, p(items[n]));
    }
    assert was[..items.Length] == was;
  }

  /** sort.Slice by a key; the order of equal keys is not promised. */
  method SortBy<T>(a: array<T>, key: T -> int)
    modifies a
    ensures Sorted(a[..], key) && multiset(a[..]) == multiset(old(a[..]))
  {
    for n := 0 to a.Length
      invariant Sorted(a[..n], key) && multiset(a[..]) == multiset(old(a[..]))
    {
      SiftDown(a, key, n);
    }
    assert a[..a.Length] == a[..];
  }

  method Swap<T>(a: array<T>, j: nat)
    requires 0 < j < a.Length
    modifies a
    ensures a[j] == old(a[j - 1]) && a[j - 1] == old(a[j])
    ensures forall p :: 0 <= p < a.Length && p != j && p != j - 1 ==> a[p] == old(a[p])
    ensures multiset(a[..]) == multiset(old(a[..]))
  {
    a[j], a[j - 1] := a[j - 1], a[j];
  }

  /** In order up to n, but for the element at j, which may be too small for its place. */
  ghost predicate Sifting<T>(a: array<T>, key: T -> int, j: nat, n: nat)
    requires n < a.Length
    reads a
  {
    forall p, q :: 0 <= p < q <= n && q != j ==> key(a[p]) <= key(a[q])
  }

  method SiftStep<T>(a: array<T>, key: T -> int, j: nat, n: nat)
    requires 0 < j <= n < a.Length && key(a[j]) < key(a[j - 1]) && Sifting(a, key, j, n)
    modifies a
    ensures Sifting(a, key, j - 1, n) && multiset(a[..]) == multiset(old(a[..]))
  {
    Swap(a, j);
  }

  /** Moves a[n] down to its place among the sorted elements before it. */
  method SiftDown<T>(a: array<T>, key: T -> int, n: nat)
    requires n < a.Length && Sorted(a[..n], key)
    modifies a
    ensures Sorted(a[..n + 1], key) && multiset(a[..]) == multiset(old(a[..]))
  {
    var j := n;
    assert forall p, q :: 0 <= p < q < n ==> key(a[..n][p]) <= key(a[..n][q]);
    while j > 0 && key(a[j]) < key(a[j - 1])
      invariant 0 <= j <= n && multiset(a[..]) == multiset(old(a[..]))
      invariant Sifting(a, key, j, n)
    {
      SiftStep(a, key, j, n);
      j := j - 1;
    }
  }

  lemma {:induction false} LastIsGreatest<T>(s: seq<T>, t: seq<T>, key: T -> int)
    requires multiset(s) == multiset(t) && s != [] && t != []
    requires Sorted(s, key) && Sorted(t, key)
    ensures key(s[|s| - 1]) == key(t[|t| - 1])
  {
    var x, y := s[|s| - 1], t[|t| - 1];
    assert x in multiset(s) && y in multiset(t);
    assert x in t && y in s;
  }

  lemma WithoutLast<T>(s: seq<T>)
    requires s != []
    ensures var m := |s| - 1; multiset(s[..m]) == multiset(s) - multiset{s[m]}
  {
    assert s == s[..|s| - 1] + [s[|s| - 1]];
  }

  lemma SameLast<T(!new)>(s: seq<T>, t: seq<T>, key: T -> int)
    requires multiset(s) == multiset(t) && KeysDiffer(s, key) && s != [] && t != []
    requires Sorted(s, key) && Sorted(t, key)
    ensures s[|s| - 1] == t[|t| - 1]
  {
    LastIsGreatest(s, t, key);
    assert t[|t| - 1] in multiset(t);
    assert t[|t| - 1] in s;
  }

  /** When the keys differ there is one sorted order. */
  lemma {:induction false} SortedOnce<T(!new)>(s: seq<T>, t: seq<T>, key: T -> int)
    requires multiset(s) == multiset(t) && KeysDiffer(s, key)
    requires Sorted(s, key) && Sorted(t, key)
    ensures s == t
  {
    assert |s| == |t| by {
      assert |multiset(s)| == |multiset(t)|;
    }
    if s != [] {
      var m := |s| - 1;
      SameLast(s, t, key);
      assert s[..m] == t[..m] by {
        WithoutLast(s);
        WithoutLast(t);
        SortedOnce(s[..m], t[..m], key);
      }
      assert s == s[..m] + [s[m]] && t == t[..m] + [t[m]];
    }
  }
}
