/** What the wizard hands to the bulk runner: as long as no refresh arrives after the clusters were
    chosen, exactly the resources that were marked, for every application that has any. */
module WizardSelection {
  import opened GoStrings
  import opened Models
  import opened Ordering
  import opened Resources
  import opened Discovery
  import opened Targets
  import opened Wizard

  lemma {:induction false} ChosenExactly<T>(list: seq<T>, m: map<T, bool>)
    ensures forall x :: x in Chosen(list, m) <==> x in list && Is(m, x)
    ensures Distinct(list) ==> Distinct(Chosen(list, m))
  {
    if list != [] {
      ChosenExactly(list[1..], m);
      if Distinct(list) {
        assert Distinct(list[1..]) && list[0] !in list[1..];
      }
    }
  }

  lemma {:induction false} WithResourcesExactly(inv: Inventory, apps: seq<AppKey>, clusters: seq<string>)
    ensures forall a :: a in WithResources(inv, apps, clusters) <==> a in apps && ResourcesFor(inv, a, clusters) != []
    ensures Distinct(apps) ==> Distinct(WithResources(inv, apps, clusters))
  {
    hide ResourcesFor;
    if apps != [] {
      WithResourcesExactly(inv, apps[1..], clusters);
      if Distinct(apps) {
        assert Distinct(apps[1..]) && apps[0] !in apps[1..];
      }
    }
  }

  // ---- what always holds ----

  /** Every cluster that hosts an application is known. */
  ghost predicate Known(data: Catalog) {
    forall k, c :: k in data.inv && c in data.inv[k] ==> c in data.clusterBy
  }

  ghost predicate Sorted(names: seq<string>) {
    forall i, j :: 0 <= i < j < |names| ==> Less(names[i], names[j])
  }

  lemma SortedDistinct(names: seq<string>)
    requires Sorted(names)
    ensures Distinct(names)
  {
    hide Less;
    forall i, j | 0 <= i < j < |names| ensures names[i] != names[j] {
      LessIrreflexive(names[i]);
    }
  }

  ghost predicate Steady(s: State) {
    s.data.appKeysAll == KeysOf(s.data.inv) && Known(s.data) && Sorted(s.picks.clusterNames)
  }

  /** An inventory that was loaded holds only contexts of the clusters that were loaded with it; see
      `LoadsAreCovered`. */
  ghost predicate Covered(m: Msg) {
    (m.LoadDone? || m.RefreshDone?) && m.load.Loaded? ==>
      forall k, c :: k in m.load.inv && c in m.load.inv[k] ==>
        exists i :: 0 <= i < |m.load.clusters| && m.load.clusters[i].contextName == c
  }

  lemma SteadyInitially(cli: Cli)
    ensures Steady(Initial(cli))
  {
    var keys := KeysOf(map[]);
    SomeIn(keys);
  }

  lemma SomeIn<T>(s: seq<T>)
    ensures s == [] || exists x :: x in s
  {
    if s != [] { assert s[0] in s; }
  }

  /** A message that brings a new inventory. */
  predicate Reloads(m: Msg) {
    (m.LoadDone? || m.RefreshDone?) && m.load.Loaded?
  }

  lemma ReloadSteady(s: State, m: Msg)
    requires Steady(s) && Covered(m) && Reloads(m)
    ensures Steady(Step(s, m).state)
  {
    hide Scrolled, KeysOf, ClusterMap, Matching, Remaining, RefreshedCursor;
    FreshKnown(m);
  }

  lemma FreshKnown(m: Msg)
    requires Covered(m) && Reloads(m)
    ensures Known(Fresh(m.load))
  {
    hide KeysOf;
  }

  /** Keys leave the inventory alone, and change the clusters on offer only to a list without duplicates. */
  lemma KeysSteady(s: State, key: Key, typed: string)
    requires Sorted(s.picks.clusterNames)
    ensures var t := OnKey(s, key, typed).state;
            t.data == s.data.(appKeys := t.data.appKeys) && Sorted(t.picks.clusterNames)
  {
    hide OnApps, OnClusters, OnResources, OnAction, OnConfirm, OnDone;
    match s.step
    case SelectApps => AppsSteady(s, key, typed);
    case SelectClusters => ClustersSteady(s, key);
    case SelectResources => ResourcesSteady(s, key);
    case SelectAction => ActionSteady(s, key);
    case Confirm => ConfirmSteady(s, key);
    case Done => DoneSteady(s, key);
    case Loading =>
    case Broken =>
    case Running =>
  }

  lemma AppsSteady(s: State, key: Key, typed: string)
    requires Sorted(s.picks.clusterNames)
    ensures var t := OnApps(s, key, typed).state;
            t.data == s.data.(appKeys := t.data.appKeys) && Sorted(t.picks.clusterNames)
  {
    hide Scrolled, MoveTo, MarkApps, Typed, AppsHeight, Filtered, SelectedAppsOf, FirstUnknown;
    FilteredFrame(s.(view := Typed(s.view, key, typed)));
    FilteredFrame(s.(view := s.view.(filter := "")));
  }

  lemma ClustersSteady(s: State, key: Key)
    ensures var t := OnClusters(s, key).state;
            t.data == s.data && t.picks.clusterNames == s.picks.clusterNames && t.picks.appSelected == s.picks.appSelected
    ensures var t := OnClusters(s, key).state;
            t.step != s.step ==> t.step == SelectApps || t.step == Broken || (key == Enter && t == ClustersChosen(s).state)
  {
    hide Scrolled, MoveTo, ClustersHeight, SetAll, AllChosen, WithResources, Opened, SelectedAppsOf, SelectedClustersOf;
  }

  lemma ResourcesSteady(s: State, key: Key)
    ensures var t := OnResources(s, key).state;
            t.data == s.data && t.picks == s.picks.(res := t.picks.res)
  {
    hide Scrolled, MoveTo, ResourcesHeight, MarkResources, Opened, SelectedResourcesOf, SelectedClustersOf;
  }

  lemma ActionSteady(s: State, key: Key)
    ensures var t := OnAction(s, key).state;
            t.data == s.data && t.picks == s.picks
  {
    hide Planned, RequestOf, StartView;
  }

  lemma ConfirmSteady(s: State, key: Key)
    ensures var t := OnConfirm(s, key).state;
            t.data == s.data && t.picks == s.picks
  {
    hide RequestOf, StartView;
  }

  lemma DoneSteady(s: State, key: Key)
    ensures var t := OnDone(s, key).state;
            t.data == s.data && (t.picks == s.picks || t.picks.clusterNames == [])
            && (t.step == SelectApps || t.step == s.step)
  {
  }

  lemma OtherSteady(s: State, m: Msg)
    requires !m.Press? && !Reloads(m)
    ensures var t := Step(s, m).state;
            t.data == s.data.(loadErrs := t.data.loadErrs) && t.picks == s.picks && t.plan == s.plan
            && (t.step == s.step || t.step == Broken || t.step == Done)
  {
    hide Scrolled, OnProgress;
  }

  lemma StepSteady(s: State, m: Msg)
    requires Steady(s) && Covered(m)
    ensures Steady(Step(s, m).state)
  {
    hide Covered, KeysOf, OnKey, OnRefresh, OnLoad, OnRunDone, Resized;
    if m.Press? {
      KeysSteady(s, m.key, m.typed);
    } else if Reloads(m) {
      ReloadSteady(s, m);
    } else {
      OtherSteady(s, m);
    }
  }

  // ---- what holds until the inventory changes ----

  predicate Picking(step: Stage) {
    step == SelectResources || step == SelectAction || step == Confirm
  }

  /** The applications on offer are those selected that have resources in the selected clusters, and
      the first `n` of them have marked ones. */
  ghost predicate MarkedUpTo(inv: Inventory, apps: seq<AppKey>, clusters: seq<string>, res: ResourcePicks, n: nat) {
    && clusters != [] && res.apps == WithResources(inv, apps, clusters)
    && res.idx < |res.apps| && n <= |res.apps|
    && res.list == ResourcesFor(inv, res.apps[res.idx], clusters)
    && res.agg == Aggregated(inv, res.apps[res.idx], clusters, res.list)
    && forall j :: 0 <= j < n ==> MarkedIn(inv, clusters, res, res.apps[j]) != []
  }

  ghost predicate Picked(s: State) {
    Picking(s.step) ==>
      MarkedUpTo(s.data.inv, SelectedAppsOf(s), SelectedClustersOf(s), s.picks.res,
                 if s.step == SelectResources then s.picks.res.idx else |s.picks.res.apps|)
  }

  /** Marking resources of the application on the screen leaves the others alone. */
  lemma MarkingKeeps(inv: Inventory, apps: seq<AppKey>, clusters: seq<string>, res: ResourcePicks, key: Key, cursor: int)
    requires Distinct(apps) && MarkedUpTo(inv, apps, clusters, res, res.idx)
    requires key == Char(' ') ==> 0 <= cursor < |res.list|
    ensures MarkedUpTo(inv, apps, clusters, MarkResources(res, key, cursor), res.idx)
  {
    hide ResourcesFor, Aggregated, SetAll, ChooseIf, AllChosen, Chosen, WithResources;
    WithResourcesExactly(inv, apps, clusters);
    var after := MarkResources(res, key, cursor);
    forall j | 0 <= j < res.idx ensures MarksOf(after, res.apps[j]) == MarksOf(res, res.apps[j]) {
      assert res.apps[j] != res.apps[res.idx];
    }
  }

  lemma OpeningKeeps(inv: Inventory, apps: seq<AppKey>, clusters: seq<string>, res: ResourcePicks)
    requires MarkedUpTo(inv, apps, clusters, res, res.idx) && MarkedIn(inv, clusters, res, res.apps[res.idx]) != []
    ensures MarkedUpTo(inv, apps, clusters, res, res.idx + 1)
    ensures res.idx + 1 < |res.apps| ==>
              MarkedUpTo(inv, apps, clusters, Opened(inv, clusters, res, res.idx + 1), res.idx + 1)
  {
    hide ResourcesFor, Aggregated, Chosen, WithResources;
  }

  lemma ClustersChosenPicks(s: State)
    requires s.step == SelectClusters
    ensures Picked(ClustersChosen(s).state)
  {
    hide ResourcesFor, Aggregated, Chosen, WithResources;
  }

  lemma SelectedDistinct(s: State)
    requires Steady(s)
    ensures Distinct(SelectedAppsOf(s)) && Distinct(SelectedClustersOf(s))
    ensures forall a :: a in SelectedAppsOf(s) ==> a in s.data.inv
  {
    SortedDistinct(s.picks.clusterNames);
    ChosenExactly(s.data.appKeysAll, s.picks.appSelected);
    ChosenExactly(s.picks.clusterNames, s.picks.clSelected);
  }

  lemma ResourcesPicked(s: State, key: Key)
    requires Steady(s) && Picked(s) && s.step == SelectResources
    ensures Picked(OnResources(s, key).state)
  {
    hide Scrolled, MoveTo, ResourcesHeight, MarkResources, ResourcesChosen, MarkedUpTo, SelectedAppsOf, SelectedClustersOf, KeysOf;
    SelectedDistinct(s);
    ResourcesSteady(s, key);
    var t := OnResources(s, key).state;
    SameSelection(s, t);
    if key == Enter && s.picks.res.idx < |s.picks.res.apps| {
      ResourcesChosenPicked(s);
    } else if Marking(key) && t != s {
      MarkingKeeps(s.data.inv, SelectedAppsOf(s), SelectedClustersOf(s), s.picks.res, key, s.cursor);
      MarksKeepIndex(s.picks.res, key, s.cursor);
    }
  }

  lemma MarksKeepIndex(res: ResourcePicks, key: Key, cursor: int)
    requires res.idx < |res.apps| && (key == Char(' ') ==> 0 <= cursor < |res.list|)
    ensures MarkResources(res, key, cursor).idx == res.idx
  {
  }

  lemma SameSelection(s: State, t: State)
    requires t.data.appKeysAll == s.data.appKeysAll && t.picks.appSelected == s.picks.appSelected
    requires t.picks.clusterNames == s.picks.clusterNames && t.picks.clSelected == s.picks.clSelected
    ensures SelectedAppsOf(t) == SelectedAppsOf(s) && SelectedClustersOf(t) == SelectedClustersOf(s)
  {
  }

  lemma ResourcesChosenPicked(s: State)
    requires Picked(s) && s.step == SelectResources && s.picks.res.idx < |s.picks.res.apps|
    ensures Picked(ResourcesChosen(s).state)
  {
    hide Scrolled, MarkedUpTo, SelectedAppsOf, SelectedClustersOf, MarkedIn, Opened;
    var t := ResourcesChosen(s).state;
    ResourcesChosenFrame(s);
    SameSelection(s, t);
    if t != s {
      OpeningKeeps(s.data.inv, SelectedAppsOf(s), SelectedClustersOf(s), s.picks.res);
    }
  }

  lemma ResourcesChosenFrame(s: State)
    requires s.step == SelectResources && s.picks.res.idx < |s.picks.res.apps|
    ensures var t := ResourcesChosen(s).state;
            t.data == s.data && t.picks == s.picks.(res := t.picks.res)
            && (t == s || SelectedResourcesOf(s, s.picks.res.apps[s.picks.res.idx]) != [])
            && (t.step == SelectResources && t != s ==>
                  t.picks.res == Opened(s.data.inv, SelectedClustersOf(s), s.picks.res, s.picks.res.idx + 1)
                  && t.picks.res.idx == s.picks.res.idx + 1)
            && (t.step != SelectResources ==> t.picks.res == s.picks.res && s.picks.res.idx + 1 == |s.picks.res.apps|)
  {
    hide Scrolled, SelectedClustersOf, ResourcesFor, Aggregated;
  }

  lemma KeyPicked(s: State, key: Key, typed: string)
    requires Steady(s) && Picked(s)
    ensures Picked(OnKey(s, key, typed).state)
  {
    hide OnApps, OnClusters, OnResources, OnAction, OnConfirm, OnDone, Picked, Steady;
    match s.step
    case SelectApps => AppsPicked(s, key, typed);
    case SelectClusters => ClustersPicked(s, key);
    case SelectResources => ResourcesPicked(s, key);
    case SelectAction => ActionPicked(s, key);
    case Confirm => ActionPicked(s, key);
    case Done => NotPicking(OnDone(s, key).state); DoneSteady(s, key);
    case Loading => 
    case Broken =>
    case Running =>
  }

  lemma NotPicking(s: State)
    ensures !Picking(s.step) ==> Picked(s)
  {
  }

  lemma AppsPicked(s: State, key: Key, typed: string)
    requires s.step == SelectApps
    ensures Picked(OnApps(s, key, typed).state)
  {
    hide MarkedUpTo, Scrolled, MoveTo, MarkApps, Typed, AppsHeight, Matching, SelectedAppsOf, FirstUnknown, ClustersOf;
  }

  lemma ClustersPicked(s: State, key: Key)
    requires s.step == SelectClusters
    ensures Picked(OnClusters(s, key).state)
  {
    hide Picked, OnClusters, ClustersChosen;
    ClustersSteady(s, key);
    ClustersChosenPicks(s);
    NotPicking(OnClusters(s, key).state);
  }

  /** The action and the confirmation leave the selection alone; from there one step back leads to the
      resources of the last application. */
  lemma ActionPicked(s: State, key: Key)
    requires Picked(s) && (s.step == SelectAction || s.step == Confirm)
    ensures Picked(OnAction(s, key).state) && Picked(OnConfirm(s, key).state)
  {
    hide OnAction, OnConfirm, Chosen;
    ActionSteady(s, key);
    ConfirmSteady(s, key);
    SameSelection(s, OnAction(s, key).state);
    SameSelection(s, OnConfirm(s, key).state);
  }

  lemma OtherPicked(s: State, m: Msg)
    requires Picked(s) && !m.Press? && !Reloads(m)
    ensures Picked(Step(s, m).state)
  {
    hide Step, MarkedUpTo, SelectedAppsOf, SelectedClustersOf;
    OtherSteady(s, m);
    SameSelection(s, Step(s, m).state);
  }

  lemma StepPicked(s: State, m: Msg)
    requires Steady(s) && Picked(s) && !Reloads(m)
    ensures Picked(Step(s, m).state)
  {
    hide Picked, Steady, OnKey;
    if m.Press? {
      KeyPicked(s, m.key, m.typed);
    } else {
      OtherPicked(s, m);
    }
  }

  // ---- over whole runs ----

  ghost predicate AllCovered(ms: seq<Msg>) {
    forall k :: 0 <= k < |ms| ==> Covered(ms[k])
  }

  /** The clusters were chosen in the run, and no new inventory has arrived since. */
  ghost predicate Current(s: State, ms: seq<Msg>)
    decreases |ms|
  {
    ms != []
    && var before := ms[..|ms| - 1];
       var m := ms[|ms| - 1];
       !Reloads(m) && (ChoosesClusters(After(s, before), m) || Current(s, before))
  }

  /** "enter" in the list of clusters, with something to go on with. */
  ghost predicate ChoosesClusters(s: State, m: Msg) {
    m.Press? && m.key == Enter && s.step == SelectClusters && Step(s, m).state.step == SelectResources
  }

  lemma {:induction false} RunSteady(cli: Cli, ms: seq<Msg>)
    requires AllCovered(ms)
    ensures Steady(After(Initial(cli), ms))
    decreases |ms|
  {
    hide Step, Steady, Covered;
    if ms == [] {
      SteadyInitially(cli);
    } else {
      RunSteady(cli, ms[..|ms| - 1]);
      StepSteady(After(Initial(cli), ms[..|ms| - 1]), ms[|ms| - 1]);
    }
  }

  lemma {:induction false} RunPicked(cli: Cli, ms: seq<Msg>)
    requires AllCovered(ms) && Current(Initial(cli), ms)
    ensures Picked(After(Initial(cli), ms))
    decreases |ms|
  {
    hide Step, Steady, Covered, Picked;
    var before := ms[..|ms| - 1];
    RunSteady(cli, before);
    if Current(Initial(cli), before) {
      RunPicked(cli, before);
    } else {
      NotPicking(After(Initial(cli), before));
    }
    StepPicked(After(Initial(cli), before), ms[|ms| - 1]);
  }

  // ---- the request of a launch ----

  /** Every application of the request has a resource list; all of it was marked by the user and is
      selectable; and it is empty exactly if the application has no selectable resource in the chosen
      clusters. */
  ghost predicate NotWidened(r: RunRequest, marks: map<AppKey, map<SyncResource, bool>>) {
    forall a :: a in r.apps ==>
      && a in r.resources
      && (forall x :: x in r.resources[a] ==> a in marks && Is(marks[a], x) && x in ResourcesFor(r.inv, a, r.clusters))
      && (r.resources[a] == [] <==> ResourcesFor(r.inv, a, r.clusters) == [])
  }

  ghost function TargetsFor(r: RunRequest): seq<Target> {
    TargetsOf(r.inv, r.apps, r.clusters)
  }

  lemma LaunchIsRequest(s: State, m: Msg)
    requires Step(s, m).cmd.Launch?
    ensures (s.step == SelectAction || s.step == Confirm) && m.Press?
    ensures var r := Step(s, m).cmd.request;
            r == RequestOf(s).(action := r.action)
  {
    hide OnApps, OnClusters, OnResources, RequestOf, Planned, StartView, OnDone;
    if m.Press? {
      NoOtherLaunch(s, m.key, m.typed);
      RequestAction(s, m.key);
    }
  }

  lemma RequestAction(s: State, key: Key)
    ensures OnAction(s, key).cmd.Launch? ==> OnAction(s, key).cmd.request == RequestOf(s).(action := OnAction(s, key).cmd.request.action)
  {
    hide Planned, StartView, MarkedIn;
    if OnAction(s, key).cmd.Launch? {
      var t := s.(plan := s.plan.(action := ACTIONS[s.plan.actionIdx]));
      SameSelection(s, t);
      assert forall a :: SelectedResourcesOf(t, a) == SelectedResourcesOf(s, a);
    }
  }

  lemma NoOtherLaunch(s: State, key: Key, typed: string)
    ensures !OnApps(s, key, typed).cmd.Launch? && !OnClusters(s, key).cmd.Launch? && !OnResources(s, key).cmd.Launch?
            && !OnDone(s, key).cmd.Launch?
  {
    hide Scrolled, MoveTo, MarkApps, Typed, AppsHeight, Matching, SelectedAppsOf, FirstUnknown, ClustersOf;
    hide ClustersHeight, SetAll, AllChosen, WithResources, Opened, SelectedClustersOf, ResourcesHeight, MarkResources;
    hide SelectedResourcesOf;
  }

  /** The request of a state with a complete selection. */
  lemma RequestNotWidened(s: State)
    requires Steady(s) && Picked(s) && (s.step == SelectAction || s.step == Confirm)
    ensures NotWidened(RequestOf(s), s.picks.res.marks)
  {
    hide ResourcesFor, Chosen, KeysOf, Aggregated, WithResources;
    var r := RequestOf(s);
    WithResourcesExactly(r.inv, r.apps, r.clusters);
    forall a | a in r.apps
      ensures forall x :: x in r.resources[a] ==>
                a in s.picks.res.marks && Is(s.picks.res.marks[a], x) && x in ResourcesFor(r.inv, a, r.clusters)
      ensures r.resources[a] == [] <==> ResourcesFor(r.inv, a, r.clusters) == []
    {
      RequestResources(s, a);
    }
  }

  lemma RequestResources(s: State, a: AppKey)
    requires Picked(s) && (s.step == SelectAction || s.step == Confirm) && a in SelectedAppsOf(s)
    ensures var list := ResourcesFor(s.data.inv, a, SelectedClustersOf(s));
            var got := SelectedResourcesOf(s, a);
            (forall x :: x in got ==> a in s.picks.res.marks && Is(s.picks.res.marks[a], x) && x in list)
            && (got == [] <==> list == [])
  {
    hide ResourcesFor, Chosen, Aggregated, WithResources;
    var clusters := SelectedClustersOf(s);
    var list := ResourcesFor(s.data.inv, a, clusters);
    ChosenExactly(list, MarksOf(s.picks.res, a));
    WithResourcesExactly(s.data.inv, SelectedAppsOf(s), clusters);
    var got := SelectedResourcesOf(s, a);
    SomeIn(got);
    if list != [] {
      var j :| 0 <= j < |s.picks.res.apps| && s.picks.res.apps[j] == a;
    }
  }

  /** A selectable resource has a cluster that hosts its application. */
  lemma SelectableHasTarget(inv: Inventory, apps: seq<AppKey>, clusters: seq<string>, a: AppKey)
    requires a in apps && clusters != [] && ResourcesFor(inv, a, clusters) != []
    ensures TargetsOf(inv, apps, clusters) != []
  {
    hide NamedIn, TargetsOf;
    var x := ResourcesFor(inv, a, clusters)[0];
    assert x in Elements(ResourcesFor(inv, a, clusters));
    assert x in Selectable(inv, a, clusters);
    var c :| c in Scope(inv, a, clusters);
    TargetsExactly(inv, apps, clusters);
    assert Target(c, a) in TargetsOf(inv, apps, clusters);
  }

  /** The targets of a request are different from each other and their clusters are known. */
  lemma TargetsSteady(s: State)
    requires Steady(s)
    ensures var r := RequestOf(s);
            Distinct(TargetsFor(r)) && forall t :: t in TargetsFor(r) ==> t.clusterContext in r.clusterBy
  {
    hide TargetsOf, KeysOf, MarkedIn, SelectedAppsOf, SelectedClustersOf;
    var r := RequestOf(s);
    SelectedDistinct(s);
    TargetsDistinct(r.inv, r.apps, r.clusters);
    TargetsExactly(r.inv, r.apps, r.clusters);
  }

  lemma TargetsPicked(s: State)
    requires Steady(s) && Picked(s) && (s.step == SelectAction || s.step == Confirm)
    ensures TargetsFor(RequestOf(s)) != []
  {
    hide TargetsOf, KeysOf, ResourcesFor, Chosen, Aggregated, WithResources;
    var r := RequestOf(s);
    WithResourcesExactly(r.inv, r.apps, r.clusters);
    var a := s.picks.res.apps[0];
    assert a in s.picks.res.apps;
    SelectableHasTarget(r.inv, r.apps, r.clusters, a);
  }

  /** Every launch, of every run: its targets are pairwise different and in known clusters. */
  lemma LaunchedTargets(cli: Cli, ms: seq<Msg>, m: Msg)
    requires AllCovered(ms) && Step(After(Initial(cli), ms), m).cmd.Launch?
    ensures var r := Step(After(Initial(cli), ms), m).cmd.request;
            Distinct(TargetsFor(r)) && forall t :: t in TargetsFor(r) ==> t.clusterContext in r.clusterBy
  {
    hide Step, Steady, RequestOf, TargetsOf;
    var s := After(Initial(cli), ms);
    RunSteady(cli, ms);
    LaunchIsRequest(s, m);
    TargetsSteady(s);
  }

  /** Every launch with no new inventory since the clusters were chosen: nothing but marked resources is
      requested, no application with resources is left without a selection, and there are targets. */
  lemma LaunchedSelection(cli: Cli, ms: seq<Msg>, m: Msg)
    requires AllCovered(ms) && Current(Initial(cli), ms) && Step(After(Initial(cli), ms), m).cmd.Launch?
    ensures var s := After(Initial(cli), ms);
            var r := Step(s, m).cmd.request;
            NotWidened(r, s.picks.res.marks) && TargetsFor(r) != []
  {
    hide Step, Steady, Picked, RequestOf, TargetsOf, ResourcesFor;
    var s := After(Initial(cli), ms);
    RunSteady(cli, ms);
    RunPicked(cli, ms);
    LaunchIsRequest(s, m);
    RequestNotWidened(s);
    TargetsPicked(s);
  }

  /** What discovery yields for a list of clusters is covered by it. */
  lemma LoadsAreCovered(clusters: seq<Cluster>, arrivals: seq<Arrival>, inv: Inventory, errs: map<string, Err>)
    requires IsInventory(inv, arrivals)
    requires forall i :: 0 <= i < |arrivals| ==>
               exists j :: 0 <= j < |clusters| && clusters[j].contextName == arrivals[i].context
    ensures Covered(LoadDone(Loaded(clusters, inv, errs))) && Covered(RefreshDone(Loaded(clusters, inv, errs)))
  {
    hide IsInventory, LastListed;
    forall k, c | k in inv && c in inv[k] ensures exists i :: 0 <= i < |clusters| && clusters[i].contextName == c {
      EntriesWereListed(inv, arrivals, k, c);
      var i :| 0 <= i < |arrivals| && arrivals[i].context == c;
    }
  }
}
