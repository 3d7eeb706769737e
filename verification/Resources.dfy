/** Resources of an application across clusters (internal/tui/tui.go:1649-1690, 1867-1968). The results
    do not depend on the order in which Go iterates over maps. */
module Resources {
  import opened GoStrings
  import opened Models
  import opened Ordering

  // ---- the order of resources ----

  predicate ResourceLess(a: SyncResource, b: SyncResource) {
    if a.group != b.group then Less(a.group, b.group)
    else if a.kind != b.kind then Less(a.kind, b.kind)
    else if a.namespace != b.namespace then Less(a.namespace, b.namespace)
    else Less(a.name, b.name)
  }

  lemma LessOrders()
    ensures TotalStrictOrder(Less)
  {
    forall a: string ensures !Less(a, a) { LessIrreflexive(a); }
    forall a: string, b: string, c: string | Less(a, b) && Less(b, c) ensures Less(a, c) { LessTransitive(a, b, c); }
    forall a: string, b: string ensures Less(a, b) || a == b || Less(b, a) { LessTotal(a, b); }
  }

  lemma ResourceLessTransitive(a: SyncResource, b: SyncResource, c: SyncResource)
    requires ResourceLess(a, b) && ResourceLess(b, c)
    ensures ResourceLess(a, c)
  {
    hide Less;
    LessOrders();
  }

  lemma ResourceLessOrders()
    ensures TotalStrictOrder(ResourceLess)
  {
    hide Less;
    LessOrders();
    forall a: SyncResource, b: SyncResource, c: SyncResource | ResourceLess(a, b) && ResourceLess(b, c)
      ensures ResourceLess(a, c)
    {
      ResourceLessTransitive(a, b, c);
    }
  }

  // ---- selectable resources ----

  /** An empty list of clusters stands for all of them. */
  predicate Allowed(clusters: seq<string>, c: string) {
    clusters == [] || c in clusters
  }

  /** The clusters of `clusters` that host the application. */
  function Scope(inv: Inventory, app: AppKey, clusters: seq<string>): set<string> {
    if app in inv then set c | c in inv[app] && Allowed(clusters, c) else {}
  }

  predicate Named(r: SyncResource) {
    TrimSpace(r.kind) != "" && TrimSpace(r.name) != ""
  }

  function NamedIn(rs: seq<SyncResource>): set<SyncResource> {
    set r | r in rs && Named(r)
  }

  /** The named resources of the application in the clusters. */
  function Selectable(inv: Inventory, app: AppKey, clusters: seq<string>): set<SyncResource> {
    set c, r | c in Scope(inv, app, clusters) && r in NamedIn(inv[app][c].resources) :: r
  }

  /** The selectable resources, in order. */
  ghost function ResourcesFor(inv: Inventory, app: AppKey, clusters: seq<string>): (rs: seq<SyncResource>)
    ensures Ascending(rs, ResourceLess) && Elements(rs) == Selectable(inv, app, clusters)
  {
    ResourceLessOrders();
    SortedSet(Selectable(inv, app, clusters), ResourceLess)
  }

  /** Group, then kind, then namespace, then name. */
  predicate Before(a: SyncResource, b: SyncResource) {
    Less(a.group, b.group)
    || (a.group == b.group && Less(a.kind, b.kind))
    || (a.group == b.group && a.kind == b.kind && Less(a.namespace, b.namespace))
    || (a.group == b.group && a.kind == b.kind && a.namespace == b.namespace && Less(a.name, b.name))
  }

  /** The list holds exactly the resources with a kind and a name that some cluster in the selection lists for
      the application (an empty selection stands for all), in order. */
  lemma ResourcesForMeaning(inv: Inventory, app: AppKey, clusters: seq<string>)
    ensures var rs := ResourcesFor(inv, app, clusters);
            (forall r :: r in rs <==>
               TrimSpace(r.kind) != "" && TrimSpace(r.name) != ""
               && app in inv && exists c :: c in inv[app] && (clusters == [] || c in clusters) && r in inv[app][c].resources)
            && forall i, j :: 0 <= i < j < |rs| ==> Before(rs[i], rs[j])
  {
    hide Less, TrimSpace;
    LessOrders();
    var rs := ResourcesFor(inv, app, clusters);
    forall r ensures r in rs <==>
               TrimSpace(r.kind) != "" && TrimSpace(r.name) != ""
               && app in inv && exists c :: c in inv[app] && (clusters == [] || c in clusters) && r in inv[app][c].resources
    {
      assert r in rs <==> r in Elements(rs);
      SelectableMeaning(inv, app, clusters, r);
    }
    forall i, j | 0 <= i < j < |rs| ensures Before(rs[i], rs[j]) {
      assert ResourceLess(rs[i], rs[j]);
    }
  }

  lemma SelectableMeaning(inv: Inventory, app: AppKey, clusters: seq<string>, r: SyncResource)
    ensures r in Selectable(inv, app, clusters) <==>
            TrimSpace(r.kind) != "" && TrimSpace(r.name) != ""
            && app in inv && exists c :: c in inv[app] && (clusters == [] || c in clusters) && r in inv[app][c].resources
  {
    hide TrimSpace;
    if app in inv {
      forall c | c in inv[app] && (clusters == [] || c in clusters) && r in inv[app][c].resources && Named(r)
        ensures r in Selectable(inv, app, clusters)
      {
        assert c in Scope(inv, app, clusters) && r in NamedIn(inv[app][c].resources);
      }
    }
  }

  method ResourcesForAppInClusters(inv: Inventory, app: AppKey, clusters: seq<string>) returns (out: seq<SyncResource>)
    ensures out == ResourcesFor(inv, app, clusters)
  {
    hide ResourceLess, Named;
    var found: set<SyncResource> := {};
    if app in inv {
      var perCluster := inv[app];
      var left := perCluster.Keys;
      while left != {}
        invariant left <= perCluster.Keys
        invariant found == set c, r | c in Scope(inv, app, clusters) && c !in left && r in NamedIn(inv[app][c].resources) :: r
        decreases |left|
      {
        var c :| c in left;
        left := left - {c};
        if Allowed(clusters, c) {
          found := found + NamedIn(perCluster[c].resources);
        }
      }
    }
    assert found == Selectable(inv, app, clusters);
    var keys := Listed(found);
    ResourceLessOrders();
    out := SortKeys(keys, ResourceLess);
  }

  /** The elements of a set, in the arbitrary order of a map iteration. */
  method Listed<T(==)>(s: set<T>) returns (keys: seq<T>)
    ensures Elements(keys) == s && Distinct(keys)
  {
    keys := [];
    var left := s;
    while left != {}
      invariant left <= s && Elements(keys) == s - left && Distinct(keys)
      decreases |left|
    {
      var x :| x in left;
      assert x !in keys by { assert x !in Elements(keys); }
      assert Elements(keys + [x]) == Elements(keys) + {x};
      keys := keys + [x];
      left := left - {x};
    }
  }

  // ---- aggregation ----

  datatype Agg = Agg(synced: nat, outOfSync: nat, unknown: nat, total: nat)

  const NO_AGG := Agg(0, 0, 0, 0)

  datatype SyncClass = InSync | OutOfSync | NotKnown

  function ClassOf(status: string): SyncClass {
    if TrimSpace(status) == "Synced" then InSync
    else if TrimSpace(status) == "OutOfSync" then OutOfSync
    else NotKnown
  }

  /** The status of a resource in one cluster; a later entry for the same resource wins. */
  function ClassIn(statuses: seq<ResourceStatus>, r: SyncResource): SyncClass {
    if statuses == [] then NotKnown
    else if statuses[|statuses| - 1].resource == r then ClassOf(statuses[|statuses| - 1].syncStatus)
    else ClassIn(statuses[..|statuses| - 1], r)
  }

  /** The last entry for the resource, if any. */
  function LastStatus(statuses: seq<ResourceStatus>, r: SyncResource): Option<string> {
    if statuses == [] then None
    else if statuses[|statuses| - 1].resource == r then Some(statuses[|statuses| - 1].syncStatus)
    else LastStatus(statuses[..|statuses| - 1], r)
  }

  /** No later entry is about the resource. */
  lemma {:induction false} LastStatusMeaning(statuses: seq<ResourceStatus>, r: SyncResource, status: string)
    ensures LastStatus(statuses, r) == Some(status) <==>
            exists i :: 0 <= i < |statuses| && statuses[i].resource == r && statuses[i].syncStatus == status
                        && forall j :: i < j < |statuses| ==> statuses[j].resource != r
    decreases |statuses|
  {
    if statuses != [] {
      var n := |statuses| - 1;
      var before := statuses[..n];
      LastStatusMeaning(before, r, status);
      assert forall j :: 0 <= j < n ==> before[j] == statuses[j];
    }
  }

  /** A cluster reports a resource as "Synced" or "OutOfSync" if its last entry says so, up to space around it;
      with no entry, or any other, its state is unknown. */
  lemma {:induction false} ClassMeaning(statuses: seq<ResourceStatus>, r: SyncResource)
    ensures ClassIn(statuses, r) == InSync <==>
            LastStatus(statuses, r).Some? && TrimSpace(LastStatus(statuses, r).value) == "Synced"
    ensures ClassIn(statuses, r) == OutOfSync <==>
            LastStatus(statuses, r).Some? && TrimSpace(LastStatus(statuses, r).value) == "OutOfSync"
    decreases |statuses|
  {
    hide TrimSpace;
    assert |"Synced"| == 6 && |"OutOfSync"| == 9;
    if statuses != [] && statuses[|statuses| - 1].resource != r {
      ClassMeaning(statuses[..|statuses| - 1], r);
    }
  }

  /** The clusters of `seen` where the resource is of class `k`. */
  function Members(inv: Inventory, app: AppKey, seen: set<string>, r: SyncResource, k: SyncClass): set<string> {
    set c | c in seen && app in inv && c in inv[app] && ClassIn(inv[app][c].resourceStatuses, r) == k
  }

  /** The counts over the clusters `seen`. */
  function AggOver(inv: Inventory, app: AppKey, seen: set<string>, r: SyncResource): Agg {
    Agg(|Members(inv, app, seen, r, InSync)|, |Members(inv, app, seen, r, OutOfSync)|,
        |Members(inv, app, seen, r, NotKnown)|, |seen|)
  }

  function AggOf(inv: Inventory, app: AppKey, clusters: seq<string>, r: SyncResource): Agg {
    AggOver(inv, app, Scope(inv, app, clusters), r)
  }

  function Count(agg: Agg, k: SyncClass): Agg {
    match k
    case InSync => agg.(synced := agg.synced + 1, total := agg.total + 1)
    case OutOfSync => agg.(outOfSync := agg.outOfSync + 1, total := agg.total + 1)
    case NotKnown => agg.(unknown := agg.unknown + 1, total := agg.total + 1)
  }

  lemma MembersStep(inv: Inventory, app: AppKey, seen: set<string>, c: string, r: SyncResource, k: SyncClass)
    requires app in inv && c in inv[app] && c !in seen
    ensures |Members(inv, app, seen + {c}, r, k)|
         == |Members(inv, app, seen, r, k)| + (if ClassIn(inv[app][c].resourceStatuses, r) == k then 1 else 0)
  {
    hide ClassIn;
    assert Members(inv, app, seen + {c}, r, k)
        == Members(inv, app, seen, r, k) + (if ClassIn(inv[app][c].resourceStatuses, r) == k then {c} else {});
  }

  lemma AggStep(inv: Inventory, app: AppKey, seen: set<string>, c: string, r: SyncResource)
    requires app in inv && c in inv[app] && c !in seen
    ensures AggOver(inv, app, seen + {c}, r) == Count(AggOver(inv, app, seen, r), ClassIn(inv[app][c].resourceStatuses, r))
  {
    hide ClassIn, Members;
    MembersStep(inv, app, seen, c, r, InSync);
    MembersStep(inv, app, seen, c, r, OutOfSync);
    MembersStep(inv, app, seen, c, r, NotKnown);
  }

  lemma AggNone(inv: Inventory, app: AppKey, r: SyncResource)
    ensures AggOver(inv, app, {}, r) == NO_AGG
  {
  }

  /** The statuses of one cluster, indexed by resource. */
  method IndexStatuses(statuses: seq<ResourceStatus>) returns (index: map<SyncResource, ResourceStatus>)
    ensures forall r :: Lookup(index, r) == ClassIn(statuses, r)
  {
    index := map[];
    for i := 0 to |statuses|
      invariant forall r :: Lookup(index, r) == ClassIn(statuses[..i], r)
    {
      assert statuses[..i + 1][..i] == statuses[..i];
      index := index[statuses[i].resource := statuses[i]];
    }
    assert statuses[..|statuses|] == statuses;
  }

  function Lookup(index: map<SyncResource, ResourceStatus>, r: SyncResource): SyncClass {
    if r in index then ClassOf(index[r].syncStatus) else NotKnown
  }

  /** aggregateResourceAgg */
  method AggregateResourceAgg(inv: Inventory, app: AppKey, clusters: seq<string>, list: seq<SyncResource>)
    returns (out: map<SyncResource, Agg>)
    ensures Distinct(list) ==> out == Aggregated(inv, app, clusters, list)
    ensures app !in inv ==> out == map[]
  {
    hide AggOf, Indexed, Scope;
    out := map[];
    if app !in inv {
      return;
    }
    var statusByCluster := IndexClusters(inv, app, clusters);
    for i := 0 to |list|
      invariant Distinct(list) ==> out == Aggregated(inv, app, clusters, list[..i])
    {
      var r := list[i];
      assert list[..i + 1] == list[..i] + [r];
      var agg := if r in out then out[r] else NO_AGG;
      assert Distinct(list) ==> r !in list[..i];
      agg := CountClusters(inv, app, clusters, statusByCluster, r, agg);
      out := out[r := agg];
    }
    assert list[..|list|] == list;
  }

  function Aggregated(inv: Inventory, app: AppKey, clusters: seq<string>, list: seq<SyncResource>): map<SyncResource, Agg> {
    if app !in inv then map[] else map r | r in list :: AggOf(inv, app, clusters, r)
  }

  ghost predicate Indexed(inv: Inventory, app: AppKey, scope: set<string>,
                          index: map<string, map<SyncResource, ResourceStatus>>)
  {
    app in inv && scope <= inv[app].Keys && index.Keys == scope
    && forall c, r :: c in scope ==> Lookup(index[c], r) == ClassIn(inv[app][c].resourceStatuses, r)
  }

  method IndexClusters(inv: Inventory, app: AppKey, clusters: seq<string>)
    returns (index: map<string, map<SyncResource, ResourceStatus>>)
    requires app in inv
    ensures Indexed(inv, app, Scope(inv, app, clusters), index)
  {
    hide ClassIn, Lookup;
    index := map[];
    var left := inv[app].Keys;
    while left != {}
      invariant left <= inv[app].Keys
      invariant Indexed(inv, app, Scope(inv, app, clusters) - left, index)
      decreases |left|
    {
      var c :| c in left;
      left := left - {c};
      if Allowed(clusters, c) {
        var one := IndexStatuses(inv[app][c].resourceStatuses);
        index := index[c := one];
      }
    }
    assert Scope(inv, app, clusters) - left == Scope(inv, app, clusters);
  }

  /** Adds the counts of one resource over all indexed clusters. */
  method CountClusters(inv: Inventory, app: AppKey, clusters: seq<string>,
                       index: map<string, map<SyncResource, ResourceStatus>>, r: SyncResource, start: Agg) returns (agg: Agg)
    requires Indexed(inv, app, Scope(inv, app, clusters), index)
    ensures start == NO_AGG ==> agg == AggOf(inv, app, clusters, r)
  {
    hide ClassIn, Lookup, Members, AggOver;
    agg := start;
    ghost var scope := Scope(inv, app, clusters);
    AggNone(inv, app, r);
    var left := index.Keys;
    assert scope - left == {};
    while left != {}
      invariant left <= scope
      invariant start == NO_AGG ==> agg == AggOver(inv, app, scope - left, r)
      decreases |left|
    {
      var c :| c in left;
      AggStep(inv, app, scope - left, c, r);
      assert scope - (left - {c}) == (scope - left) + {c};
      left := left - {c};
      agg := Count(agg, Lookup(index[c], r));
    }
    assert scope - left == scope;
  }

  /** The classes partition the clusters: nothing is counted twice or left out. */
  lemma AggPartitions(inv: Inventory, app: AppKey, clusters: seq<string>, r: SyncResource)
    ensures var agg := AggOf(inv, app, clusters, r);
            agg.synced + agg.outOfSync + agg.unknown == agg.total == |Scope(inv, app, clusters)|
  {
    hide ClassIn;
    var scope := Scope(inv, app, clusters);
    var a, b, c := Members(inv, app, scope, r, InSync), Members(inv, app, scope, r, OutOfSync), Members(inv, app, scope, r, NotKnown);
    assert scope == a + b + c;
    assert |a + b| == |a| + |b|;
    assert |a + b + c| == |a + b| + |c|;
  }

  /** The clusters in scope whose last entry for the resource is `status`. */
  function Reporting(inv: Inventory, app: AppKey, clusters: seq<string>, r: SyncResource, status: string): set<string> {
    if app !in inv then {}
    else set c | c in inv[app] && (clusters == [] || c in clusters)
                 && LastStatus(inv[app][c].resourceStatuses, r).Some?
                 && TrimSpace(LastStatus(inv[app][c].resourceStatuses, r).value) == status
  }

  /** The counts are the numbers of clusters that report "Synced", "OutOfSync", or neither. */
  lemma AggMeaning(inv: Inventory, app: AppKey, clusters: seq<string>, r: SyncResource)
    ensures var agg := AggOf(inv, app, clusters, r);
            agg.synced == |Reporting(inv, app, clusters, r, "Synced")|
            && agg.outOfSync == |Reporting(inv, app, clusters, r, "OutOfSync")|
            && agg.unknown == agg.total - agg.synced - agg.outOfSync
            && agg.total == if app in inv then |set c | c in inv[app] && (clusters == [] || c in clusters)| else 0
  {
    hide ClassIn, Reporting, Members;
    AggPartitions(inv, app, clusters, r);
    MembersReport(inv, app, clusters, r);
    if app in inv {
      assert Scope(inv, app, clusters) == set c | c in inv[app] && (clusters == [] || c in clusters);
    }
  }

  lemma MembersReport(inv: Inventory, app: AppKey, clusters: seq<string>, r: SyncResource)
    ensures var scope := Scope(inv, app, clusters);
            Members(inv, app, scope, r, InSync) == Reporting(inv, app, clusters, r, "Synced")
            && Members(inv, app, scope, r, OutOfSync) == Reporting(inv, app, clusters, r, "OutOfSync")
  {
    hide ClassIn, TrimSpace, LastStatus;
    if app in inv {
      forall c | c in inv[app]
        ensures var statuses := inv[app][c].resourceStatuses;
                (ClassIn(statuses, r) == InSync <==>
                   LastStatus(statuses, r).Some? && TrimSpace(LastStatus(statuses, r).value) == "Synced")
                && (ClassIn(statuses, r) == OutOfSync <==>
                      LastStatus(statuses, r).Some? && TrimSpace(LastStatus(statuses, r).value) == "OutOfSync")
      {
        ClassMeaning(inv[app][c].resourceStatuses, r);
      }
    }
  }

  /** The condition under which key `n` selects a resource (tui.go:617). */
  predicate NotAllSynced(agg: Agg) {
    agg.total == 0 || agg.outOfSync > 0 || agg.unknown > 0 || agg.synced < agg.total
  }

  /** The cases of the label of a resource (tui.go:1877-1886). */
  datatype Label = LabelSynced | LabelOutOfSync | LabelUnknown | LabelMixed | LabelNone

  function LabelOf(agg: Agg): Label {
    if agg.total > 0 && agg.synced == agg.total then LabelSynced
    else if agg.outOfSync > 0 then LabelOutOfSync
    else if agg.total > 0 && agg.unknown > 0 then LabelUnknown
    else if agg.total > 0 then LabelMixed
    else LabelNone
  }

  /** Key `n` selects a resource exactly if it is not known to be synced in every cluster in scope, or no
      cluster is; a resource labelled "Synced" is exactly one it leaves alone; and no resource is ever
      labelled "Mixed". */
  lemma SelectsUnsynced(inv: Inventory, app: AppKey, clusters: seq<string>, r: SyncResource)
    ensures var agg := AggOf(inv, app, clusters, r);
            var scope := Scope(inv, app, clusters);
            (NotAllSynced(agg) <==>
               scope == {} || exists c :: c in scope && c !in Reporting(inv, app, clusters, r, "Synced"))
            && (NotAllSynced(agg) <==> !LabelOf(agg).LabelSynced?)
            && !LabelOf(agg).LabelMixed?
  {
    hide ClassIn, Reporting;
    AggPartitions(inv, app, clusters, r);
    MembersReport(inv, app, clusters, r);
    var scope := Scope(inv, app, clusters);
    var agg := AggOf(inv, app, clusters, r);
    var synced := Members(inv, app, scope, r, InSync);
    assert synced <= scope;
    if synced == scope {
      assert forall c :: c in scope ==> c in synced;
    } else {
      var c :| c in scope && c !in synced;
      assert synced <= scope - {c};
      SubsetSize(synced, scope - {c});
    }
  }

  /** The label: "Synced" if every cluster in scope reports that and there is one; otherwise "OutOfSync" if some
      cluster reports that; otherwise "Unknown" if there is a cluster; otherwise none. */
  lemma LabelMeaning(inv: Inventory, app: AppKey, clusters: seq<string>, r: SyncResource)
    ensures var agg := AggOf(inv, app, clusters, r);
            var shown := LabelOf(agg);
            var someOut := Reporting(inv, app, clusters, r, "OutOfSync") != {};
            (shown.LabelOutOfSync? <==> someOut)
            && (shown.LabelUnknown? <==> !someOut && agg.total > 0 && !shown.LabelSynced?)
            && (shown.LabelNone? <==> agg.total == 0)
  {
    hide AggOf, Reporting;
    AggMeaning(inv, app, clusters, r);
    AggPartitions(inv, app, clusters, r);
  }

  lemma {:induction false} SubsetSize<T>(a: set<T>, b: set<T>)
    requires a <= b
    ensures |a| <= |b|
  {
    if a != {} {
      var x :| x in a;
      SubsetSize(a - {x}, b - {x});
    }
  }

  /** isAppFullySynced */
  predicate FullySynced(inv: Inventory, app: AppKey) {
    app in inv && inv[app] != map[] && forall c :: c in inv[app] ==> TrimSpace(inv[app][c].syncStatus) == "Synced"
  }
}
