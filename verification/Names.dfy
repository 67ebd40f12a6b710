/** Strings in lexicographic order: the iteration order of the sorted maps. */
module Names {
  import opened Common

  predicate LexLe(a: string, b: string) {
    a == [] || (b != [] && (a[0] < b[0] || (a[0] == b[0] && LexLe(a[1..], b[1..]))))
  }

  /** At place `k` the strings first differ, and `a` has the smaller character. */
  ghost predicate DiffersBelow(a: string, b: string, k: nat) {
    k < |a| && k < |b| && a[..k] == b[..k] && a[k] < b[k]
  }

  lemma DifferingHead(a: string, b: string, k: nat)
    requires DiffersBelow(a, b, k) && k > 0
    ensures a[0] == b[0] && DiffersBelow(a[1..], b[1..], k - 1)
  {
    assert a[..k][0] == b[..k][0];
    assert a[1..][..k - 1] == a[..k][1..] && b[1..][..k - 1] == b[..k][1..];
  }

  lemma DiffersLater(a: string, b: string, k: nat)
    requires a != [] && b != [] && a[0] == b[0] && DiffersBelow(a[1..], b[1..], k)
    ensures DiffersBelow(a, b, k + 1)
  {
    assert a[..k + 1] == [a[0]] + a[1..][..k] && b[..k + 1] == [b[0]] + b[1..][..k];
  }

  /** The order is lexicographic: a prefix comes first, else the first difference decides. */
  lemma {:induction false} LexMeans(a: string, b: string)
    ensures LexLe(a, b) <==> a <= b || exists k: nat :: DiffersBelow(a, b, k)
  {
    if a != [] && b != [] {
      assert a == [a[0]] + a[1..] && b == [b[0]] + b[1..];
      if a[0] < b[0] {
        assert DiffersBelow(a, b, 0);
      }
      if k: nat :| DiffersBelow(a, b, k) && k > 0 {
        DifferingHead(a, b, k);
      }
      LexMeans(a[1..], b[1..]);
      if k: nat :| a[0] == b[0] && DiffersBelow(a[1..], b[1..], k) {
        DiffersLater(a, b, k);
      }
    }
  }

  lemma {:induction false} LexTotal(a: string, b: string)
    ensures LexLe(a, b) || LexLe(b, a)
  {
    if a != [] && b != [] && a[0] == b[0] {
      LexTotal(a[1..], b[1..]);
    }
  }

  lemma {:induction false} LexAntisymmetric(a: string, b: string)
    requires LexLe(a, b) && LexLe(b, a)
    ensures a == b
  {
    if a != [] {
      LexAntisymmetric(a[1..], b[1..]);
      assert a == [a[0]] + a[1..] && b == [b[0]] + b[1..];
    }
  }

  lemma {:induction false} LexTransitive(a: string, b: string, c: string)
    requires LexLe(a, b) && LexLe(b, c)
    ensures LexLe(a, c)
  {
    if a != [] && a[0] == b[0] == c[0] {
      LexTransitive(a[1..], b[1..], c[1..]);
    }
  }

  ghost predicate IsLeast(m: string, s: set<string>) {
    m in s && forall x :: x in s ==> LexLe(m, x)
  }

  /** `r` lists the names of `s` once each, in ascending order. */
  ghost predicate Listing(r: seq<string>, s: set<string>) {
    && Distinct(r)
    && (forall x :: x in r <==> x in s)
    && forall i, j :: 0 <= i < j < |r| ==> LexLe(r[i], r[j])
  }

  lemma {:induction false} ListingUnique(r: seq<string>, r': seq<string>, s: set<string>)
    requires Listing(r, s) && Listing(r', s)
    ensures r == r'
    decreases |r|
  {
    if r == [] {
      if r' != [] {
        HasMember(r');
      }
    } else {
      assert r[0] in r' && r' != [];
      assert r'[0] in r;
      LexTotal(r[0], r[0]);
      var i :| 0 <= i < |r| && r[i] == r'[0];
      var j :| 0 <= j < |r'| && r'[j] == r[0];
      assert LexLe(r[0], r'[0]) && LexLe(r'[0], r[0]);
      LexAntisymmetric(r[0], r'[0]);
      ListingTail(r, s);
      ListingTail(r', s);
      ListingUnique(r[1..], r'[1..], s - {r[0]});
      assert r == [r[0]] + r[1..] && r' == [r'[0]] + r'[1..];
    }
  }

  lemma ListingTail(r: seq<string>, s: set<string>)
    requires Listing(r, s) && r != []
    ensures Listing(r[1..], s - {r[0]})
  {
    forall x ensures x in r[1..] <==> x in s - {r[0]} {
      if x in s && x != r[0] {
        var i :| 0 <= i < |r| && r[i] == x;
        assert r[1..][i - 1] == x;
      }
    }
  }

  lemma ListingNext(r: seq<string>, s: set<string>, k: nat)
    requires Listing(r, s) && k < |r|
    ensures r[k] in s && r[k] !in r[..k]
  {
  }

  lemma ListingGrows(r: seq<string>, left: set<string>, m: string, s: set<string>)
    requires Listing(r, s - left) && left <= s && IsLeast(m, left)
    requires forall x, y :: x in r && y in left ==> LexLe(x, y)
    ensures Listing(r + [m], s - (left - {m}))
    ensures forall x, y :: x in r + [m] && y in left - {m} ==> LexLe(x, y)
  {
  }

  /** Collecting the names of a map and sorting them. */
  method SortNames(s: set<string>) returns (r: seq<string>)
    ensures Listing(r, s)
  {
    var left := s;
    r := [];
    while left != {}
      invariant left <= s && Listing(r, s - left)
      invariant forall x, y :: x in r && y in left ==> LexLe(x, y)
      decreases |left|
    {
      var m := FindLeast(left);
      ListingGrows(r, left, m, s);
      r := r + [m];
      left := left - {m};
    }
    assert s - left == s;
  }

  method FindLeast(s: set<string>) returns (m: string)
    requires s != {}
    ensures IsLeast(m, s)
  {
    m :| m in s;
    var left := s - {m};
    LexTotal(m, m);
    while left != {}
      invariant left <= s && m in s
      invariant forall x :: x in s - left ==> LexLe(m, x)
      decreases |left|
    {
      var x :| x in left;
      left := left - {x};
      LexTotal(m, x);
      LexTotal(x, x);
      if !LexLe(m, x) {
        forall y | y in s - left ensures LexLe(x, y) {
          if y != x {
            LexTransitive(x, m, y);
          }
        }
        m := x;
      }
    }
  }
}
