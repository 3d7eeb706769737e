/** The order of the result list (internal/services/bulk.go:159-164, 259-267). */
module ResultOrder {
  import opened GoStrings
  import opened Models
  import opened Ordering

  predicate ResultLess(a: Result, b: Result) {
    if a.target.clusterContext != b.target.clusterContext then Less(a.target.clusterContext, b.target.clusterContext)
    else Less(a.target.app.name, b.target.app.name)
  }

  /** By cluster context, and within a context by application name. */
  predicate ByClusterThenApp(rs: seq<Result>) {
    forall i, j :: 0 <= i < j < |rs| ==>
      Less(rs[i].target.clusterContext, rs[j].target.clusterContext)
      || (rs[i].target.clusterContext == rs[j].target.clusterContext
          && Less(rs[i].target.app.name, rs[j].target.app.name))
  }

  lemma AscendingMeaning(rs: seq<Result>)
    requires Ascending(rs, ResultLess)
    ensures ByClusterThenApp(rs)
  {
    hide Less;
  }

  /** The same, where a target may occur more than once. */
  predicate InOrder(rs: seq<Result>) {
    forall i, j :: 0 <= i < j < |rs| ==>
      rs[i].target == rs[j].target || Less(rs[i].target.clusterContext, rs[j].target.clusterContext)
      || (rs[i].target.clusterContext == rs[j].target.clusterContext
          && Less(rs[i].target.app.name, rs[j].target.app.name))
  }

  lemma SortedMeaning(rs: seq<Result>)
    requires SortedResults(rs)
    ensures InOrder(rs)
  {
    hide Less;
    forall i, j | 0 <= i < j < |rs|
      ensures rs[i].target == rs[j].target || Less(rs[i].target.clusterContext, rs[j].target.clusterContext)
              || (rs[i].target.clusterContext == rs[j].target.clusterContext
                  && Less(rs[i].target.app.name, rs[j].target.app.name))
    {
      ResultLessTotal(rs[i], rs[j]);
    }
  }

  /** The cluster decides before the application does. */
  lemma ClusterBeforeApp(a: Result, b: Result)
    requires a.target == Target("c1", AppKey("z")) && b.target == Target("c2", AppKey("a"))
    ensures SortResults([b, a]) == [a, b]
  {
    assert Less("c1", "c2") && !Less("c2", "c1");
    assert [b, a][1..] == [a] && [a][1..] == [];
    assert SortResults([]) == [] && SortResults([a]) == [a];
    assert InsertResult(b, []) == [b];
  }

  /** What slices.SortFunc promises, besides a permutation. */
  ghost predicate SortedResults(rs: seq<Result>) {
    forall i, j :: 0 <= i < j < |rs| ==> !ResultLess(rs[j], rs[i])
  }

  function InsertResult(r: Result, rs: seq<Result>): seq<Result> {
    if rs == [] || !ResultLess(rs[0], r) then [r] + rs else [rs[0]] + InsertResult(r, rs[1..])
  }

  function SortResults(rs: seq<Result>): seq<Result> {
    if rs == [] then [] else InsertResult(rs[0], SortResults(rs[1..]))
  }

  lemma {:induction false} InsertBag(r: Result, rs: seq<Result>)
    ensures multiset(InsertResult(r, rs)) == multiset(rs) + multiset{r}
  {
    hide ResultLess;
    if rs != [] {
      assert rs == [rs[0]] + rs[1..];
      InsertBag(r, rs[1..]);
    }
  }

  lemma {:induction false} InsertSorts(r: Result, rs: seq<Result>)
    requires SortedResults(rs)
    ensures SortedResults(InsertResult(r, rs))
  {
    hide ResultLess;
    if rs == [] || !ResultLess(rs[0], r) {
      InFront(r, rs);
    } else {
      InsertSorts(r, rs[1..]);
      InsertBag(r, rs[1..]);
      var rest := InsertResult(r, rs[1..]);
      forall j | 0 <= j < |rest| ensures !ResultLess(rest[j], rs[0]) {
        assert rest[j] in multiset(rest);
        if rest[j] == r {
          ResultLessAsymmetric(rs[0], r);
        } else {
          assert rest[j] in multiset(rs[1..]);
        }
      }
    }
  }

  lemma {:induction false} SortResultsSorts(rs: seq<Result>)
    ensures multiset(SortResults(rs)) == multiset(rs) && SortedResults(SortResults(rs))
  {
    if rs != [] {
      SortResultsSorts(rs[1..]);
      InsertBag(rs[0], SortResults(rs[1..]));
      InsertSorts(rs[0], SortResults(rs[1..]));
      assert rs == [rs[0]] + rs[1..];
    }
  }

  lemma InFront(r: Result, tail: seq<Result>)
    requires SortedResults(tail) && (tail != [] ==> !ResultLess(tail[0], r))
    ensures SortedResults([r] + tail)
  {
    hide ResultLess;
    forall j | 0 <= j < |tail| ensures !ResultLess(tail[j], r) {
      if ResultLess(tail[j], r) {
        ResultLessOrders(tail[j], r, tail[0]);
      }
    }
  }

  lemma ResultLessAsymmetric(a: Result, b: Result)
    requires ResultLess(a, b)
    ensures !ResultLess(b, a)
  {
    hide Less;
    if Less(a.target.clusterContext, b.target.clusterContext) && Less(b.target.clusterContext, a.target.clusterContext) {
      LessTransitive(a.target.clusterContext, b.target.clusterContext, a.target.clusterContext);
    }
    if Less(a.target.app.name, b.target.app.name) && Less(b.target.app.name, a.target.app.name) {
      LessTransitive(a.target.app.name, b.target.app.name, a.target.app.name);
    }
    LessIrreflexive(a.target.clusterContext);
    LessIrreflexive(a.target.app.name);
  }

  /** If one result is below another, any third is above the first or below the second. */
  lemma ResultLessOrders(a: Result, b: Result, c: Result)
    requires ResultLess(a, b)
    ensures ResultLess(a, c) || ResultLess(c, b)
  {
    hide Less;
    LessTotal(a.target.clusterContext, c.target.clusterContext);
    LessTotal(c.target.clusterContext, b.target.clusterContext);
    LessTotal(a.target.app.name, c.target.app.name);
    LessTotal(c.target.app.name, b.target.app.name);
    if Less(c.target.clusterContext, a.target.clusterContext) && Less(a.target.clusterContext, b.target.clusterContext) {
      LessTransitive(c.target.clusterContext, a.target.clusterContext, b.target.clusterContext);
    }
    if Less(c.target.app.name, a.target.app.name) && Less(a.target.app.name, b.target.app.name) {
      LessTransitive(c.target.app.name, a.target.app.name, b.target.app.name);
    }
  }

  /** The order of results is that of clusters, and of applications within a cluster; and it is strict. */
  lemma ResultLessStrict()
    ensures StrictOrder(ResultLess)
    ensures forall a: Result, b: Result :: ResultLess(a, b) <==>
              Less(a.target.clusterContext, b.target.clusterContext)
              || (a.target.clusterContext == b.target.clusterContext && Less(a.target.app.name, b.target.app.name))
  {
    forall a: Result, b: Result
      ensures ResultLess(a, b) <==>
              Less(a.target.clusterContext, b.target.clusterContext)
              || (a.target.clusterContext == b.target.clusterContext && Less(a.target.app.name, b.target.app.name))
    {
      LessIrreflexive(a.target.clusterContext);
    }
    hide ResultLess;
    forall a: Result ensures !ResultLess(a, a) {
      if ResultLess(a, a) { ResultLessAsymmetric(a, a); }
    }
    forall a: Result, b: Result, c: Result | ResultLess(a, b) && ResultLess(b, c) ensures ResultLess(a, c) {
      ResultLessOrders(a, b, c);
      if ResultLess(c, b) { ResultLessAsymmetric(b, c); }
    }
  }

  lemma ResultLessTotal(a: Result, b: Result)
    ensures ResultLess(a, b) || ResultLess(b, a) || a.target == b.target
  {
    hide Less;
    LessTotal(a.target.clusterContext, b.target.clusterContext);
    LessTotal(a.target.app.name, b.target.app.name);
  }

  ghost predicate DistinctTargets(rs: seq<Result>) {
    forall i, j :: 0 <= i < j < |rs| ==> rs[i].target != rs[j].target
  }

  /** With one result per target, the order of the list is strict and the sorted list unique. */
  lemma SortedUnique(a: seq<Result>, b: seq<Result>)
    requires multiset(a) == multiset(b) && SortedResults(a) && SortedResults(b)
    requires DistinctTargets(a) && DistinctTargets(b)
    ensures a == b && Ascending(a, ResultLess) && ByClusterThenApp(a)
  {
    hide ResultLess, ByClusterThenApp;
    SortedAscends(a);
    AscendingMeaning(a);
    SortedAscends(b);
    ResultLessStrict();
    forall x ensures x in a <==> x in b {
      assert x in a <==> x in multiset(a);
      assert x in b <==> x in multiset(b);
    }
    AscendingUnique(a, b, ResultLess);
  }

  lemma SortedAscends(rs: seq<Result>)
    requires SortedResults(rs) && DistinctTargets(rs)
    ensures Ascending(rs, ResultLess)
  {
    hide ResultLess;
    forall i, j | 0 <= i < j < |rs| ensures ResultLess(rs[i], rs[j]) {
      ResultLessTotal(rs[i], rs[j]);
    }
  }
}
