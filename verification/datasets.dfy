/** mergeDataset in pkg/graphql/spawn.go: the datasets of a group and of everyone, by name. */
module Datasets {
  import opened Escapism

  /** A DtoDataset; `details` are the fields that merging passes on. */
  datatype Dataset = Dataset(name: Text, writable: bool, details: int)

  // ---- Go's order of strings: by bytes ----

  predicate Less(a: Text, b: Text) {
    b != [] && (a == [] || a[0] < b[0] || (a[0] == b[0] && Less(a[1..], b[1..])))
  }

  lemma {:induction false} LessTotal(a: Text, b: Text)
    ensures Less(a, b) || Less(b, a) || a == b
    ensures !(Less(a, b) && Less(b, a))
    ensures !Less(a, a)
  {
    if a != [] && b != [] {
      LessTotal(a[1..], b[1..]);
      assert a == [a[0]] + a[1..] && b == [b[0]] + b[1..];
    }
    if a != [] {
      LessTotal(a[1..], a[1..]);
    }
  }

  lemma {:induction false} LessTransitive(a: Text, b: Text, c: Text)
    requires Less(a, b) && Less(b, c)
    ensures Less(a, c)
  {
    if a != [] && a[0] == b[0] == c[0] {
      LessTransitive(a[1..], b[1..], c[1..]);
    }
  }

  lemma AtLeastTransitive(a: Text, b: Text, c: Text)
    requires !Less(a, b) && !Less(b, c)
    ensures !Less(a, c)
  {
    LessTotal(a, b);
    LessTotal(b, c);
    if Less(a, c) && a != b && b != c {
      LessTransitive(a, c, b);
    }
  }

  // ---- which entry a name gets ----

  predicate Named(s: seq<Dataset>, i: nat, name: Text)
    requires i < |s|
  {
    s[i].name == name
  }

  /** The last writable entry of that name, or else the first of that name. */
  ghost predicate Wins(s: seq<Dataset>, i: nat)
    requires i < |s|
  {
    if s[i].writable then
      forall j :: i < j < |s| && Named(s, j, s[i].name) ==> !s[j].writable
    else
      && (forall j :: 0 <= j < i ==> !Named(s, j, s[i].name))
      && (forall j :: i < j < |s| && Named(s, j, s[i].name) ==> !s[j].writable)
  }

  ghost predicate Winner(s: seq<Dataset>, d: Dataset) {
    exists i :: 0 <= i < |s| && s[i] == d && Wins(s, i)
  }

  predicate Known(s: seq<Dataset>, name: Text) {
    exists i :: 0 <= i < |s| && Named(s, i, name)
  }

  predicate StrictlyDescending(r: seq<Dataset>) {
    forall i, j :: 0 <= i < j < |r| ==> Less(r[j].name, r[i].name)
  }

  /** Byte order: a proper prefix comes first, and else the first difference decides. */
  lemma {:induction false} LessExactly(a: Text, b: Text)
    ensures Less(a, b) <==> exists k :: 0 <= k <= |a| && k < |b| && a[..k] == b[..k] && (k == |a| || a[k] < b[k])
  {
    if a != [] && b != [] && a[0] == b[0] {
      LessExactly(a[1..], b[1..]);
      if k :| 0 <= k <= |a| && k < |b| && a[..k] == b[..k] && (k == |a| || a[k] < b[k]) {
        assert k > 0;
        assert a[1..][..k - 1] == a[..k][1..] == b[..k][1..] == b[1..][..k - 1];
      }
      var c, d := a[1..], b[1..];
      if k :| 0 <= k <= |c| && k < |d| && c[..k] == d[..k] && (k == |c| || c[k] < d[k]) {
        assert a[..k + 1] == [a[0]] + c[..k] && b[..k + 1] == [b[0]] + d[..k];
      }
    } else if b != [] {
      if Less(a, b) {
        assert a[..0] == b[..0];
      }
      forall k | 0 < k <= |a| && k < |b| ensures a[..k] != b[..k] {
        assert a[..k][0] != b[..k][0];
      }
    }
  }

  /** Strictly descending names, one for each name of the input, each with its winner. */
  ghost predicate Merged(s: seq<Dataset>, r: seq<Dataset>) {
    && StrictlyDescending(r)
    && (forall i :: 0 <= i < |r| ==> Winner(s, r[i]))
    && (forall i :: 0 <= i < |s| ==> Known(r, s[i].name))
  }

  /** A name has one winner. */
  lemma OneWinner(s: seq<Dataset>, d: Dataset, e: Dataset)
    requires Winner(s, d) && Winner(s, e) && d.name == e.name
    ensures d == e
  {
    var i :| 0 <= i < |s| && s[i] == d && Wins(s, i);
    var j :| 0 <= j < |s| && s[j] == e && Wins(s, j);
    assert Named(s, i, d.name) && Named(s, j, d.name);
  }

  /** Writable exactly when some entry of that name is. */
  lemma WinnerWritable(s: seq<Dataset>, d: Dataset)
    requires Winner(s, d)
    ensures d in s
    ensures d.writable <==> exists i :: 0 <= i < |s| && Named(s, i, d.name) && s[i].writable
  {
    var i :| 0 <= i < |s| && s[i] == d && Wins(s, i);
    assert Named(s, i, d.name);
  }

  /**
   * A writable entry after which no writable one has its name, or one that is not writable,
   * before which none has its name, and none of whose name is writable.
   */
  predicate Picked(s: seq<Dataset>, i: nat)
    requires i < |s|
  {
    && (forall j :: i < j < |s| && s[j].name == s[i].name ==> !s[j].writable)
    && (!s[i].writable ==> forall j :: 0 <= j < i ==> s[j].name != s[i].name)
  }

  lemma PickedWins(s: seq<Dataset>, i: nat)
    requires i < |s|
    ensures Picked(s, i) <==> Wins(s, i)
  {
    assert forall j :: 0 <= j < |s| ==> (Named(s, j, s[i].name) <==> s[j].name == s[i].name);
  }

  /** The merged entries are exactly those. */
  lemma MergedExactly(s: seq<Dataset>, r: seq<Dataset>, d: Dataset)
    requires Merged(s, r)
    ensures d in r <==> exists i :: 0 <= i < |s| && s[i] == d && Picked(s, i)
  {
    if d in r {
      var i :| 0 <= i < |s| && s[i] == d && Wins(s, i);
      PickedWins(s, i);
    }
    if i :| 0 <= i < |s| && s[i] == d && Picked(s, i) {
      PickedWins(s, i);
      assert Known(r, s[i].name);
      var k :| 0 <= k < |r| && Named(r, k, s[i].name);
      OneWinner(s, d, r[k]);
    }
  }

  // ---- the code ----

  /** The table holds the winner of every name. */
  ghost predicate Tabled(s: seq<Dataset>, table: map<Text, Dataset>) {
    && (forall name :: name in table ==> table[name].name == name && Winner(s, table[name]))
    && (forall i :: 0 <= i < |s| ==> s[i].name in table)
  }

  /** One more entry: whether it goes into the table. */
  lemma TableNext(s: seq<Dataset>, table: map<Text, Dataset>, d: Dataset)
    requires Tabled(s, table)
    ensures Tabled(s + [d], if d.name !in table || d.writable then table[d.name := d] else table)
  {
    var t := s + [d];
    var next := if d.name !in table || d.writable then table[d.name := d] else table;
    forall name | name in next ensures next[name].name == name && Winner(t, next[name]) {
      if next[name] == d && (d.name !in table || d.writable) && name == d.name {
        assert t[|s|] == d && Wins(t, |s|);
      } else {
        var i :| 0 <= i < |s| && s[i] == table[name] && Wins(s, i);
        assert t[i] == table[name];
        assert forall j :: 0 <= j < |s| ==> Named(t, j, name) == Named(s, j, name);
        assert Wins(t, i);
      }
    }
  }

  method MergeDataset(group: seq<Dataset>, global: seq<Dataset>) returns (merged: seq<Dataset>)
    ensures Merged(group + global, merged)
  {
    var all := group + global;
    var datasets: map<Text, Dataset> := map[];
    for n := 0 to |all|
      invariant Tabled(all[..n], datasets)
    {
      var s := all[n];
      TableNext(all[..n], datasets, s);
      assert all[..n + 1] == all[..n] + [s];
      if s.name in datasets {
        if s.writable {
          datasets := datasets[s.name := s];
        }
      } else {
        datasets := datasets[s.name := s];
      }
    }
    assert all[..|all|] == all;
    merged := Listed(all, datasets);
    var a := new Dataset[|merged|](i requires 0 <= i < |merged| => merged[i]);
    assert a[..] == merged;
    Sort(a);
    StillMerged(all, merged, a[..]);
    merged := a[..];
  }

  /** In any order: each name once, with its winner. */
  ghost predicate Unsorted(s: seq<Dataset>, r: seq<Dataset>) {
    && (forall i, j :: 0 <= i < j < |r| ==> r[i].name != r[j].name)
    && (forall d :: d in r ==> Winner(s, d))
    && (forall i :: 0 <= i < |s| ==> Known(r, s[i].name))
  }

  /** Go's map iteration takes the names in any order. */
  method Listed(ghost s: seq<Dataset>, table: map<Text, Dataset>) returns (r: seq<Dataset>)
    requires Tabled(s, table)
    ensures Unsorted(s, r)
  {
    r := [];
    var names := table.Keys;
    while names != {}
      invariant names <= table.Keys
      invariant forall d :: d in r ==> d.name in table && table[d.name] == d && d.name !in names
      invariant forall name :: name in table && name !in names ==> table[name] in r
      invariant forall i, j :: 0 <= i < j < |r| ==> r[i].name != r[j].name
      decreases |names|
    {
      var name :| name in names;
      names := names - {name};
      r := r + [table[name]];
    }
    forall i | 0 <= i < |s| ensures Known(r, s[i].name) {
      assert table[s[i].name] in r;
      var k :| 0 <= k < |r| && r[k] == table[s[i].name];
      assert Named(r, k, s[i].name);
    }
  }

  /** Names do not increase. */
  ghost predicate Descending(r: seq<Dataset>) {
    forall i, j :: 0 <= i < j < |r| ==> !Less(r[i].name, r[j].name)
  }

  lemma NamesOnce(r: seq<Dataset>, d: Dataset, e: Dataset)
    requires forall i, j :: 0 <= i < j < |r| ==> r[i].name != r[j].name
    requires d in r && e in r && d.name == e.name
    ensures d == e && multiset(r)[d] == 1
  {
    var k :| 0 <= k < |r| && r[k] == d;
    assert r == r[..k] + [d] + r[k + 1..];
    assert d !in r[..k] && d !in r[k + 1..];
  }

  lemma StillMerged(s: seq<Dataset>, r: seq<Dataset>, q: seq<Dataset>)
    requires Unsorted(s, r) && multiset(q) == multiset(r) && Descending(q)
    ensures Merged(s, q)
  {
    forall i | 0 <= i < |q| ensures q[i] in r {
      assert q[i] in multiset(q);
    }
    forall i, j | 0 <= i < j < |q| ensures Less(q[j].name, q[i].name) {
      if q[i].name == q[j].name {
        NamesOnce(r, q[i], q[j]);
        TwiceThere(q, i, j);
      }
      LessTotal(q[i].name, q[j].name);
    }
    forall i | 0 <= i < |s| ensures Known(q, s[i].name) {
      assert Known(r, s[i].name);
      var j :| 0 <= j < |r| && Named(r, j, s[i].name);
      assert r[j] in multiset(r);
      var k :| 0 <= k < |q| && q[k] == r[j];
      assert Named(q, k, s[i].name);
    }
  }

  lemma TwiceThere(q: seq<Dataset>, i: nat, j: nat)
    requires i < j < |q| && q[i] == q[j]
    ensures multiset(q)[q[i]] >= 2
  {
    assert q == q[..j] + q[j..];
    assert q[i] in q[..j] && q[j] in q[j..];
  }

  /** sort.SliceStable, by descending name. */
  method Sort(a: array<Dataset>)
    modifies a
    ensures Descending(a[..]) && multiset(a[..]) == multiset(old(a[..]))
  {
    for n := 0 to a.Length
      invariant Descending(a[..n]) && multiset(a[..]) == multiset(old(a[..]))
    {
      Sift(a, n);
    }
    assert a[..a.Length] == a[..];
  }

  /** In order up to n, but for the element at j, which may be too great for its place. */
  ghost predicate Sifting(a: array<Dataset>, j: nat, n: nat)
    requires n < a.Length
    reads a
  {
    forall p, q :: 0 <= p < q <= n && q != j ==> !Less(a[p].name, a[q].name)
  }

  method SiftStep(a: array<Dataset>, j: nat, n: nat)
    requires 0 < j <= n < a.Length && Less(a[j - 1].name, a[j].name) && Sifting(a, j, n)
    modifies a
    ensures Sifting(a, j - 1, n) && multiset(a[..]) == multiset(old(a[..]))
  {
    LessTotal(a[j - 1].name, a[j].name);
    a[j], a[j - 1] := a[j - 1], a[j];
  }

  method Sift(a: array<Dataset>, n: nat)
    requires n < a.Length && Descending(a[..n])
    modifies a
    ensures Descending(a[..n + 1]) && multiset(a[..]) == multiset(old(a[..]))
  {
    var j := n;
    assert forall p, q :: 0 <= p < q < n ==> !Less(a[..n][p].name, a[..n][q].name);
    while j > 0 && Less(a[j - 1].name, a[j].name)
      invariant 0 <= j <= n && multiset(a[..]) == multiset(old(a[..]))
      invariant Sifting(a, j, n)
    {
      SiftStep(a, j, n);
      j := j - 1;
    }
    forall p | 0 <= p < j ensures !Less(a[p].name, a[j].name) {
      if p < j - 1 {
        AtLeastTransitive(a[p].name, a[j - 1].name, a[j].name);
      }
    }
  }

  // ---- what it comes to ----

  lemma MergedNames(s: seq<Dataset>, r: seq<Dataset>, q: seq<Dataset>, i: nat)
    requires Merged(s, r) && Merged(s, q) && i < |r|
    ensures r[i] in q
  {
    WinnerWritable(s, r[i]);
    var k :| 0 <= k < |s| && s[k] == r[i];
    assert Known(q, s[k].name);
    var j :| 0 <= j < |q| && Named(q, j, s[k].name);
    OneWinner(s, r[i], q[j]);
  }

  /** The result does not depend on the order in which the map is gone through. */
  lemma MergedOnce(s: seq<Dataset>, r: seq<Dataset>, q: seq<Dataset>)
    requires Merged(s, r) && Merged(s, q)
    ensures r == q
  {
    forall i | 0 <= i < |r| ensures r[i] in q {
      MergedNames(s, r, q, i);
    }
    forall i | 0 <= i < |q| ensures q[i] in r {
      MergedNames(s, q, r, i);
    }
    SameDescending(r, q);
  }

  predicate AllIn(r: seq<Dataset>, q: seq<Dataset>) {
    forall i :: 0 <= i < |r| ==> r[i] in q
  }

  /** A strictly descending list is determined by its elements. */
  lemma {:induction false} SameDescending(r: seq<Dataset>, q: seq<Dataset>)
    requires StrictlyDescending(r) && StrictlyDescending(q) && AllIn(r, q) && AllIn(q, r)
    ensures r == q
  {
    if r == [] || q == [] {
      SameEmptiness(r, q);
    } else {
      FirstSame(r, q);
      RestWithin(r, q);
      RestWithin(q, r);
      SameDescending(r[1..], q[1..]);
      assert r == [r[0]] + r[1..] && q == [q[0]] + q[1..];
    }
  }

  lemma SameEmptiness(r: seq<Dataset>, q: seq<Dataset>)
    requires AllIn(r, q) && AllIn(q, r)
    ensures r == [] <==> q == []
  {
    if |r| > 0 {
      assert r[0] in q;
    }
    if |q| > 0 {
      assert q[0] in r;
    }
  }

  lemma FirstSame(r: seq<Dataset>, q: seq<Dataset>)
    requires r != [] && q != [] && r[0] in q && q[0] in r
    requires StrictlyDescending(r) && StrictlyDescending(q)
    ensures r[0] == q[0]
  {
    var i :| 0 <= i < |q| && q[i] == r[0];
    var j :| 0 <= j < |r| && r[j] == q[0];
    LessTotal(r[0].name, q[0].name);
  }

  lemma RestWithin(r: seq<Dataset>, q: seq<Dataset>)
    requires r != [] && q != [] && r[0] == q[0] && StrictlyDescending(r) && AllIn(r, q)
    ensures AllIn(r[1..], q[1..]) && StrictlyDescending(r[1..])
  {
    forall i | 0 <= i < |r[1..]| ensures r[1..][i] in q[1..] {
      LessTotal(r[0].name, r[i + 1].name);
      var k :| 0 <= k < |q| && q[k] == r[i + 1];
      assert q[1..][k - 1] == r[i + 1];
    }
  }
}
