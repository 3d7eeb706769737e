/** Which (cluster, application) pairs a selection stands for (internal/services/targets.go). */
module Targets {
  import opened GoStrings
  import opened Models
  import opened Ordering

  predicate Hosts(inv: Inventory, a: AppKey, c: string) {
    a in inv && c in inv[a]
  }

  /** The targets of one cluster, in the order of `apps`. */
  function TargetsIn(inv: Inventory, apps: seq<AppKey>, c: string): seq<Target> {
    if apps == [] then []
    else (if Hosts(inv, apps[0], c) then [Target(c, apps[0])] else []) + TargetsIn(inv, apps[1..], c)
  }

  /** The targets of a selection: cluster by cluster, each in the order of `apps`. */
  function TargetsOf(inv: Inventory, apps: seq<AppKey>, clusters: seq<string>): seq<Target> {
    if clusters == [] then []
    else TargetsIn(inv, apps, clusters[0]) + TargetsOf(inv, apps, clusters[1..])
  }

  method TargetsForSelection(inv: Inventory, selectedApps: seq<AppKey>, selectedClusters: seq<string>)
    returns (targets: seq<Target>)
    ensures targets == TargetsOf(inv, selectedApps, selectedClusters)
    ensures forall t :: t in targets <==>
              t.app in selectedApps && t.clusterContext in selectedClusters && Hosts(inv, t.app, t.clusterContext)
    ensures Distinct(selectedApps) && Distinct(selectedClusters) ==> Distinct(targets)
  {
    targets := [];
    for i := 0 to |selectedClusters|
      invariant targets == TargetsOf(inv, selectedApps, selectedClusters[..i])
    {
      var c := selectedClusters[i];
      ghost var before := targets;
      for j := 0 to |selectedApps|
        invariant targets == before + TargetsIn(inv, selectedApps[..j], c)
      {
        TargetsInSnoc(inv, selectedApps[..j], selectedApps[j], c);
        assert selectedApps[..j + 1] == selectedApps[..j] + [selectedApps[j]];
        if Hosts(inv, selectedApps[j], c) {
          targets := targets + [Target(c, selectedApps[j])];
        }
      }
      assert selectedApps[..|selectedApps|] == selectedApps;
      TargetsOfSnoc(inv, selectedApps, selectedClusters[..i], c);
      assert selectedClusters[..i + 1] == selectedClusters[..i] + [c];
    }
    assert selectedClusters[..|selectedClusters|] == selectedClusters;
    TargetsExactly(inv, selectedApps, selectedClusters);
    if Distinct(selectedApps) && Distinct(selectedClusters) {
      TargetsDistinct(inv, selectedApps, selectedClusters);
    }
  }

  lemma {:induction false} TargetsInSnoc(inv: Inventory, apps: seq<AppKey>, a: AppKey, c: string)
    ensures TargetsIn(inv, apps + [a], c) == TargetsIn(inv, apps, c) + (if Hosts(inv, a, c) then [Target(c, a)] else [])
  {
    if apps != [] {
      TargetsInSnoc(inv, apps[1..], a, c);
      assert (apps + [a])[1..] == apps[1..] + [a];
    }
  }

  lemma {:induction false} TargetsOfSnoc(inv: Inventory, apps: seq<AppKey>, clusters: seq<string>, c: string)
    ensures TargetsOf(inv, apps, clusters + [c]) == TargetsOf(inv, apps, clusters) + TargetsIn(inv, apps, c)
  {
    if clusters != [] {
      TargetsOfSnoc(inv, apps, clusters[1..], c);
      assert (clusters + [c])[1..] == clusters[1..] + [c];
    }
  }

  lemma {:induction false} TargetsInExactly(inv: Inventory, apps: seq<AppKey>, c: string)
    ensures forall t :: t in TargetsIn(inv, apps, c) <==>
              t.clusterContext == c && t.app in apps && Hosts(inv, t.app, c)
  {
    if apps != [] {
      TargetsInExactly(inv, apps[1..], c);
      assert forall a :: a in apps <==> a == apps[0] || a in apps[1..];
    }
  }

  lemma {:induction false} TargetsExactly(inv: Inventory, apps: seq<AppKey>, clusters: seq<string>)
    ensures forall t :: t in TargetsOf(inv, apps, clusters) <==>
              t.app in apps && t.clusterContext in clusters && Hosts(inv, t.app, t.clusterContext)
  {
    if clusters != [] {
      TargetsInExactly(inv, apps, clusters[0]);
      TargetsExactly(inv, apps, clusters[1..]);
      assert forall c :: c in clusters <==> c == clusters[0] || c in clusters[1..];
    }
  }

  lemma {:induction false} TargetsInDistinct(inv: Inventory, apps: seq<AppKey>, c: string)
    requires Distinct(apps)
    ensures Distinct(TargetsIn(inv, apps, c))
  {
    if apps != [] {
      TargetsInDistinct(inv, apps[1..], c);
      TargetsInExactly(inv, apps[1..], c);
      assert apps[0] !in apps[1..];
      assert Target(c, apps[0]) !in TargetsIn(inv, apps[1..], c);
    }
  }

  lemma {:induction false} TargetsDistinct(inv: Inventory, apps: seq<AppKey>, clusters: seq<string>)
    requires Distinct(apps) && Distinct(clusters)
    ensures Distinct(TargetsOf(inv, apps, clusters))
  {
    if clusters != [] {
      var first, rest := TargetsIn(inv, apps, clusters[0]), TargetsOf(inv, apps, clusters[1..]);
      TargetsInDistinct(inv, apps, clusters[0]);
      TargetsInExactly(inv, apps, clusters[0]);
      TargetsDistinct(inv, apps, clusters[1..]);
      TargetsExactly(inv, apps, clusters[1..]);
      assert clusters[0] !in clusters[1..];
      forall i, j | 0 <= i < |first| && 0 <= j < |rest| ensures first[i] != rest[j] {
        assert first[i] in first && rest[j] in rest;
      }
    }
  }

  /** Cluster by cluster: with sorted selections the targets are sorted by cluster, and by application. */
  ghost predicate InOrder(ts: seq<Target>) {
    forall i, j :: 0 <= i < j < |ts| ==>
      Less(ts[i].clusterContext, ts[j].clusterContext)
      || (ts[i].clusterContext == ts[j].clusterContext && Less(ts[i].app.name, ts[j].app.name))
  }

  lemma {:induction false} TargetsInOrder(inv: Inventory, apps: seq<AppKey>, c: string)
    requires forall i, j :: 0 <= i < j < |apps| ==> Less(apps[i].name, apps[j].name)
    ensures InOrder(TargetsIn(inv, apps, c))
  {
    hide Less;
    if apps != [] {
      TargetsInOrder(inv, apps[1..], c);
      TargetsInExactly(inv, apps[1..], c);
      var rest := TargetsIn(inv, apps[1..], c);
      forall j | 0 <= j < |rest| ensures rest[j].clusterContext == c && Less(apps[0].name, rest[j].app.name) {
        assert rest[j] in rest;
        var k :| 0 <= k < |apps| - 1 && apps[1..][k] == rest[j].app;
      }
    }
  }

  lemma {:induction false} TargetsSorted(inv: Inventory, apps: seq<AppKey>, clusters: seq<string>)
    requires forall i, j :: 0 <= i < j < |apps| ==> Less(apps[i].name, apps[j].name)
    requires forall i, j :: 0 <= i < j < |clusters| ==> Less(clusters[i], clusters[j])
    ensures InOrder(TargetsOf(inv, apps, clusters))
  {
    hide Less, TargetsIn;
    if clusters != [] {
      TargetsSorted(inv, apps, clusters[1..]);
      TargetsInOrder(inv, apps, clusters[0]);
      TargetsInExactly(inv, apps, clusters[0]);
      TargetsExactly(inv, apps, clusters[1..]);
      var first, rest := TargetsIn(inv, apps, clusters[0]), TargetsOf(inv, apps, clusters[1..]);
      forall i, j | 0 <= i < |first| && 0 <= j < |rest| ensures Less(first[i].clusterContext, rest[j].clusterContext) {
        assert first[i] in first && rest[j] in rest;
        var k :| 0 <= k < |clusters| - 1 && clusters[1..][k] == rest[j].clusterContext;
      }
    }
  }
}
