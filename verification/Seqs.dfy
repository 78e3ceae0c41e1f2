/** List operations shared by the models. */
module Seqs {

  function Filter<T(!new)>(s: seq<T>, keep: T -> bool): (r: seq<T>)
    ensures forall x :: x in r <==> x in s && keep(x)
  {
    if s == [] then []
    else
      var rest := Filter(s[..|s| - 1], keep);
      var last := s[|s| - 1];
      assert s == s[..|s| - 1] + [last];
      if keep(last) then rest + [last] else rest
  }

  lemma {:induction false} FilterConcat<T(!new)>(a: seq<T>, b: seq<T>, keep: T -> bool)
    ensures Filter(a + b, keep) == Filter(a, keep) + Filter(b, keep)
  {
    if b == [] {
      assert a + b == a;
    } else {
      FilterConcat(a, b[..|b| - 1], keep);
      assert (a + b)[..|a + b| - 1] == a + b[..|b| - 1];
    }
  }

  lemma FilterSingle<T(!new)>(x: T, keep: T -> bool)
    ensures Filter([x], keep) == if keep(x) then [x] else []
  {
    assert [x][..0] == [];
  }

  lemma {:induction false} FilterPrefix<T(!new)>(s: seq<T>, keep: T -> bool, k: nat)
    requires k <= |s| && forall i :: 0 <= i < |s| ==> (keep(s[i]) <==> i < k)
    ensures Filter(s, keep) == s[..k]
  {
    if |s| > 0 {
      var n := |s| - 1;
      if k == |s| {
        FilterPrefix(s[..n], keep, n);
        assert s[..n][..n] + [s[n]] == s[..k];
      } else {
        FilterPrefix(s[..n], keep, k);
        assert s[..n][..k] == s[..k];
      }
    }
  }

  /** A test that holds of the left neighbour whenever it holds of an element selects a prefix. */
  lemma {:induction false} FilterIsPrefix<T(!new)>(s: seq<T>, keep: T -> bool) returns (k: nat)
    requires forall i, j :: 0 <= i < j < |s| && j == i + 1 && keep(s[j]) ==> keep(s[i])
    ensures k <= |s| && Filter(s, keep) == s[..k]
    ensures forall i :: 0 <= i < |s| ==> (keep(s[i]) <==> i < k)
  {
    hide Filter;
    k := |s|;
    while k > 0 && !keep(s[k - 1])
      invariant k <= |s| && forall i :: k <= i < |s| ==> !keep(s[i])
    {
      k := k - 1;
    }
    var j := k;
    while j > 0
      invariant 0 <= j <= k && (j > 0 ==> keep(s[j - 1])) && forall i :: j <= i < k ==> keep(s[i])
    {
      j := j - 1;
    }
    FilterPrefix(s, keep, k);
  }

  lemma MultisetMembers<T>(a: seq<T>, b: seq<T>)
    requires multiset(a) == multiset(b)
    ensures |a| == |b| && forall x :: x in a <==> x in b
  {
    assert |multiset(a)| == |a| && |multiset(b)| == |b|;
    forall x ensures x in a <==> x in b {
      assert x in a <==> x in multiset(a);
      assert x in b <==> x in multiset(b);
    }
  }

  lemma InsertKeepsElements<T>(s: seq<T>, i: int, x: T)
    requires 0 <= i <= |s|
    ensures multiset(s[..i] + [x] + s[i..]) == multiset(s + [x])
  {
    assert s == s[..i] + s[i..];
  }

  ghost predicate NeighboursInOrder<T>(s: seq<T>, ok: (T, T) -> bool) {
    forall i, j :: 0 <= i < j < |s| && j == i + 1 ==> ok(s[i], s[j])
  }

  lemma InsertKeepsOrder<T>(s: seq<T>, i: int, x: T, ok: (T, T) -> bool)
    requires NeighboursInOrder(s, ok) && 0 <= i <= |s|
    requires i > 0 ==> ok(s[i - 1], x)
    requires i < |s| ==> ok(x, s[i])
    ensures NeighboursInOrder(s[..i] + [x] + s[i..], ok)
  {
    var grown := s[..i] + [x] + s[i..];
    forall a, b | 0 <= a < b < |grown| && b == a + 1 ensures ok(grown[a], grown[b]) {
      assert grown[a] == if a < i then s[a] else if a == i then x else s[a - 1];
      assert grown[b] == if b < i then s[b] else if b == i then x else s[b - 1];
    }
  }

  /** No element occurs twice. */
  predicate Distinct<T(==)>(s: seq<T>) {
    forall i, j :: 0 <= i < j < |s| ==> s[i] != s[j]
  }

  function Elements<T(==)>(s: seq<T>): set<T> {
    set x | x in s
  }

  /** Counting tells whether a list repeats itself. */
  lemma {:induction false} DistinctCard<T>(s: seq<T>)
    ensures |Elements(s)| <= |s|
    ensures Distinct(s) <==> |Elements(s)| == |s|
  {
    if s != [] {
      var init, last := s[..|s| - 1], s[|s| - 1];
      DistinctCard(init);
      assert s == init + [last];
      assert Elements(s) == Elements(init) + {last};
      assert Distinct(s) <==> Distinct(init) && last !in init;
    }
  }
}
