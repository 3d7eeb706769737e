/** Sorted sequences. The sorts of the standard library are modelled by their contract: any
    permutation in which no later element is less than an earlier one. */
module Ordering {
  /** Irreflexive and transitive. */
  ghost predicate StrictOrder<T(!new)>(less: (T, T) -> bool) {
    && (forall x :: !less(x, x))
    && (forall x, y, z :: less(x, y) && less(y, z) ==> less(x, z))
  }

  ghost predicate TotalStrictOrder<T(!new)>(less: (T, T) -> bool) {
    StrictOrder(less) && forall x, y :: less(x, y) || x == y || less(y, x)
  }

  ghost predicate Ascending<T>(s: seq<T>, less: (T, T) -> bool) {
    forall i, j :: 0 <= i < j < |s| ==> less(s[i], s[j])
  }

  ghost predicate Distinct<T>(s: seq<T>) {
    forall i, j :: 0 <= i < j < |s| ==> s[i] != s[j]
  }

  function Elements<T>(s: seq<T>): set<T> {
    set x | x in s
  }

  lemma {:induction false} AscendingUnique<T(!new)>(a: seq<T>, b: seq<T>, less: (T, T) -> bool)
    requires StrictOrder(less) && Ascending(a, less) && Ascending(b, less)
    requires forall x :: x in a <==> x in b
    ensures a == b
  {
    if b != [] {
      assert b[0] in a;
    }
    if a != [] {
      assert a[0] in b;
      assert a[0] == b[0];
      forall x ensures x in a[1..] <==> x in b[1..] {
        assert x in a <==> x == a[0] || x in a[1..];
        assert x in b <==> x == b[0] || x in b[1..];
      }
      AscendingUnique(a[1..], b[1..], less);
    }
  }

  lemma {:induction false} MinimumExists<T(!new)>(s: set<T>, less: (T, T) -> bool) returns (m: T)
    requires s != {} && TotalStrictOrder(less)
    ensures m in s && forall y :: y in s ==> y == m || less(m, y)
    decreases |s|
  {
    m :| m in s;
    if s != {m} {
      var rest := s - {m};
      var k := MinimumExists(rest, less);
      if less(k, m) { m := k; }
    }
  }

  ghost function Minimum<T(!new)>(s: set<T>, less: (T, T) -> bool): (m: T)
    requires s != {} && TotalStrictOrder(less)
    ensures m in s && forall y :: y in s && y != m ==> less(m, y)
  {
    assert exists m :: m in s && forall y :: y in s && y != m ==> less(m, y) by {
      var m := MinimumExists(s, less);
    }
    var m :| m in s && forall y :: y in s && y != m ==> less(m, y);
    m
  }

  /** The elements of `s` in ascending order. */
  ghost function SortedSet<T(!new)>(s: set<T>, less: (T, T) -> bool): (r: seq<T>)
    requires TotalStrictOrder(less)
    ensures Ascending(r, less) && Elements(r) == s
    decreases |s|
  {
    if s == {} then []
    else
      var m := Minimum(s, less);
      var tail := SortedSet(s - {m}, less);
      SortedSetStep(m, tail, s, less);
      [m] + tail
  }

  lemma SortedSetStep<T(!new)>(m: T, tail: seq<T>, s: set<T>, less: (T, T) -> bool)
    requires m in s && Elements(tail) == s - {m} && Ascending(tail, less)
    requires forall y :: y in s && y != m ==> less(m, y)
    ensures Ascending([m] + tail, less) && Elements([m] + tail) == s
  {
    forall k | 0 <= k < |tail| ensures less(m, tail[k]) {
      assert tail[k] in Elements(tail);
    }
    assert Elements([m] + tail) == {m} + Elements(tail);
  }

  /** Inserts each element of `keys` into an ascending sequence: the stand-in for sort.Strings and
      sort.Slice on keys that are pairwise different. */
  method SortKeys<T(!new)>(keys: seq<T>, less: (T, T) -> bool) returns (r: seq<T>)
    requires TotalStrictOrder(less) && Distinct(keys)
    ensures Ascending(r, less) && Elements(r) == Elements(keys) && |r| == |keys|
    ensures r == SortedSet(Elements(keys), less)
  {
    r := [];
    for i := 0 to |keys|
      invariant Ascending(r, less) && Elements(r) == Elements(keys[..i]) && |r| == i
    {
      assert keys[i] !in keys[..i];
      assert keys[i] !in Elements(r);
      var p := 0;
      while p < |r| && less(r[p], keys[i])
        invariant 0 <= p <= |r|
        invariant forall j :: 0 <= j < p ==> less(r[j], keys[i])
      {
        p := p + 1;
      }
      forall j | p <= j < |r| ensures less(keys[i], r[j]) {
        assert r[p] in Elements(r);
        assert less(keys[i], r[p]);
      }
      var next := r[..p] + [keys[i]] + r[p..];
      assert Elements(next) == Elements(r) + {keys[i]};
      assert keys[..i + 1] == keys[..i] + [keys[i]];
      r := next;
    }
    assert keys[..|keys|] == keys;
    var s := SortedSet(Elements(keys), less);
    forall x ensures x in r <==> x in s {
      assert x in r <==> x in Elements(r);
      assert x in s <==> x in Elements(s);
    }
    AscendingUnique(r, s, less);
  }

  /** `s` without its element at `k`. */
  function Without<T>(s: seq<T>, k: nat): (r: seq<T>)
    requires k < |s|
    ensures |r| == |s| - 1
  {
    if k == 0 then s[1..] else [s[0]] + Without(s[1..], k - 1)
  }

  lemma {:induction false} WithoutBag<T>(s: seq<T>, k: nat)
    requires k < |s|
    ensures multiset(s) == multiset(Without(s, k)) + multiset{s[k]}
  {
    if k > 0 { WithoutBag(s[1..], k - 1); }
    assert s == [s[0]] + s[1..];
  }

  lemma WithoutEqual<T>(a: seq<T>, i: nat, b: seq<T>, j: nat)
    requires i < |a| && j < |b| && multiset(a) == multiset(b) && a[i] == b[j]
    ensures multiset(Without(a, i)) == multiset(Without(b, j))
  {
    hide Without;
    WithoutBag(a, i);
    WithoutBag(b, j);
    assert multiset(Without(a, i)) == multiset(a) - multiset{a[i]};
    assert multiset(Without(b, j)) == multiset(b) - multiset{b[j]};
  }
}
