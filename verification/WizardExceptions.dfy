/** Refreshes that arrive after the clusters were chosen: when they do harm, and runs in which they do. */
module WizardExceptions {
  import opened GoStrings
  import opened Models
  import opened Ordering
  import opened Resources
  import opened Discovery
  import opened Targets
  import opened Worker
  import opened Trace
  import opened Wizard
  import opened WizardSafety
  import opened WizardSelection
  import EndToEnd

  // ---- the exact conditions ----

  predicate Choosing(step: Stage) {
    step == SelectAction || step == Confirm
  }

  /** The messages `ms` neither leave the choice of the action nor bring another inventory. */
  ghost predicate Stays(s: State, ms: seq<Msg>) {
    (forall k :: 0 <= k <= |ms| ==> Choosing(After(s, ms[..k]).step)) && forall k :: 0 <= k < |ms| ==> !Reloads(ms[k])
  }

  lemma StepStays(s: State, m: Msg)
    requires Choosing(s.step) && Choosing(Step(s, m).state.step) && !Reloads(m)
    ensures var t := Step(s, m).state;
            t.picks == s.picks && t.data == s.data.(loadErrs := t.data.loadErrs)
  {
    hide OnAction, OnConfirm, OnRefresh, OnRunDone, Resized, OnProgress, OnLoad;
    if m.Press? {
      ActionSteady(s, m.key);
      ConfirmSteady(s, m.key);
    } else {
      OtherSteady(s, m);
    }
  }

  lemma {:induction false} StaysPut(s: State, ms: seq<Msg>)
    requires Stays(s, ms)
    ensures var t := After(s, ms);
            t.picks == s.picks && t.data == s.data.(loadErrs := t.data.loadErrs)
    decreases |ms|
  {
    hide Step;
    assert ms[..|ms|] == ms;
    if ms != [] {
      var n := |ms| - 1;
      assert forall k :: 0 <= k <= n ==> ms[..n][..k] == ms[..k];
      StaysPut(s, ms[..n]);
      StepStays(After(s, ms[..n]), ms[n]);
    }
  }

  /** Every application that is still there and selected, and has selectable resources in the selected
      clusters, has a marked one among them. */
  ghost predicate StillMarked(s: State, inv: Inventory) {
    forall a :: a in inv && Is(s.picks.appSelected, a) && ResourcesFor(inv, a, SelectedClustersOf(s)) != [] ==>
      exists x :: x in ResourcesFor(inv, a, SelectedClustersOf(s)) && Is(MarksOf(s.picks.res, a), x)
  }

  /** A chosen cluster hosts an application that is still there and selected. */
  predicate StillHosted(s: State, inv: Inventory) {
    exists a, c :: a in inv && Is(s.picks.appSelected, a) && c in SelectedClustersOf(s) && c in inv[a]
  }

  /** What the state after a refresh requests, in terms of the state before it. */
  lemma RequestAfterRefresh(s: State, load: Load, t: State)
    requires load.Loaded?
    requires t.picks == OnRefresh(s, load).picks
    requires t.data == OnRefresh(s, load).data.(loadErrs := t.data.loadErrs)
    ensures t.data.inv == load.inv && t.picks.res == s.picks.res && SelectedClustersOf(t) == SelectedClustersOf(s)
    ensures forall a :: a in SelectedAppsOf(t) <==> a in load.inv && Is(s.picks.appSelected, a)
  {
    hide OnRefresh, KeysOf, Chosen;
    RefreshFrame(s, load);
    ChosenExactly(t.data.appKeysAll, t.picks.appSelected);
  }

  lemma MarkedAmong(inv: Inventory, clusters: seq<string>, res: ResourcePicks, a: AppKey)
    ensures var list := ResourcesFor(inv, a, clusters);
            (forall x :: x in MarkedIn(inv, clusters, res, a) <==> x in list && Is(MarksOf(res, a), x))
            && (MarkedIn(inv, clusters, res, a) == [] <==> !exists x :: x in list && Is(MarksOf(res, a), x))
            && (list == [] || exists x :: x in list)
  {
    hide ResourcesFor, Chosen;
    ChosenExactly(ResourcesFor(inv, a, clusters), MarksOf(res, a));
    SomeIn(MarkedIn(inv, clusters, res, a));
    SomeIn(ResourcesFor(inv, a, clusters));
  }

  lemma NotWidenedIff(s: State, load: Load, t: State)
    requires load.Loaded?
    requires t.picks == OnRefresh(s, load).picks
    requires t.data == OnRefresh(s, load).data.(loadErrs := t.data.loadErrs)
    ensures NotWidened(RequestOf(t), t.picks.res.marks) <==> StillMarked(s, load.inv)
  {
    hide ResourcesFor, Chosen, KeysOf, OnRefresh, SelectedAppsOf, SelectedClustersOf, MarkedIn;
    RequestAfterRefresh(s, load, t);
    forall a ensures var list := ResourcesFor(load.inv, a, SelectedClustersOf(s));
                     var got := SelectedResourcesOf(t, a);
                     (forall x :: x in got <==> x in list && Is(MarksOf(s.picks.res, a), x))
                     && (got == [] <==> !exists x :: x in list && Is(MarksOf(s.picks.res, a), x))
                     && (list == [] || exists x :: x in list)
    {
      MarkedAmong(load.inv, SelectedClustersOf(s), s.picks.res, a);
    }
  }

  lemma HostedIff(s: State, load: Load, t: State)
    requires load.Loaded?
    requires t.picks == OnRefresh(s, load).picks
    requires t.data == OnRefresh(s, load).data.(loadErrs := t.data.loadErrs)
    ensures TargetsFor(RequestOf(t)) != [] <==> StillHosted(s, load.inv)
  {
    hide TargetsOf, KeysOf, OnRefresh, MarkedIn, SelectedAppsOf, SelectedClustersOf;
    RequestAfterRefresh(s, load, t);
    var targets := TargetsFor(RequestOf(t));
    TargetsExactly(load.inv, SelectedAppsOf(t), SelectedClustersOf(t));
    SomeIn(targets);
    forall a, c | a in load.inv && Is(s.picks.appSelected, a) && c in SelectedClustersOf(s) && c in load.inv[a]
      ensures targets != []
    {
      assert Target(c, a) in targets;
    }
  }

  /** After a refresh in the choice of the action, whatever is pressed there before the run starts, the run is
      not widened exactly if every application that is still there and selected, and has selectable
      resources, has a marked one among them. */
  lemma RefreshWidens(s: State, load: Load, ms: seq<Msg>, m: Msg)
    requires load.Loaded? && Stays(OnRefresh(s, load), ms) && Step(After(OnRefresh(s, load), ms), m).cmd.Launch?
    ensures var t := After(OnRefresh(s, load), ms);
            NotWidened(Step(t, m).cmd.request, t.picks.res.marks) <==> StillMarked(s, load.inv)
  {
    hide Step, OnRefresh, RequestOf, StillMarked;
    var t := After(OnRefresh(s, load), ms);
    StaysPut(OnRefresh(s, load), ms);
    LaunchIsRequest(t, m);
    NotWidenedIff(s, load, t);
  }

  /** And it has targets exactly if a chosen cluster hosts such an application. */
  lemma RefreshLeavesTargets(s: State, load: Load, ms: seq<Msg>, m: Msg)
    requires load.Loaded? && Stays(OnRefresh(s, load), ms) && Step(After(OnRefresh(s, load), ms), m).cmd.Launch?
    ensures TargetsFor(Step(After(OnRefresh(s, load), ms), m).cmd.request) != [] <==> StillHosted(s, load.inv)
  {
    hide Step, OnRefresh, RequestOf, StillHosted;
    var t := After(OnRefresh(s, load), ms);
    StaysPut(OnRefresh(s, load), ms);
    LaunchIsRequest(t, m);
    HostedIff(s, load, t);
  }

  // ---- inventories and keys for some runs ----

  const A := AppKey("a")
  const B := AppKey("b")
  const HERE := Cluster("c", "")
  const FIRST := SyncResource("", "K", "x", "")
  const SECOND := SyncResource("", "K", "y", "")

  function With(rs: seq<SyncResource>): Application {
    ZERO_APPLICATION.(resources := rs)
  }

  /** Application `b` in one cluster, with one resource. */
  function OnlyB(r: SyncResource): Inventory {
    map[B := map["c" := With([r])]]
  }

  /** And application `a` beside it. */
  function WithA(rs: seq<SyncResource>): Inventory {
    map[A := map["c" := With(rs)], B := map["c" := With([FIRST])]]
  }

  function Brings(inv: Inventory): Load {
    Loaded([HERE], inv, map[])
  }

  lemma SingleSorted<T(!new)>(s: seq<T>, x: T, less: (T, T) -> bool)
    requires Ascending(s, less) && StrictOrder(less) && Elements(s) == {x}
    ensures s == [x]
  {
    assert forall y :: y in s <==> y in Elements(s);
    AscendingUnique(s, [x], less);
  }

  lemma KeysOfOnlyB(r: SyncResource)
    ensures KeysOf(OnlyB(r)) == [B]
  {
    hide NameLess;
    NameLessOrders();
    SingleSorted(KeysOf(OnlyB(r)), B, NameLess);
  }

  lemma KeysOfNone()
    ensures KeysOf(map[]) == []
  {
    SomeIn(KeysOf(map[]));
  }

  lemma KeysOfWithA(rs: seq<SyncResource>)
    ensures KeysOf(WithA(rs)) == [A, B]
  {
    NameLessOrders();
    assert NameLess(A, B) by { assert Less("a", "b"); }
    hide NameLess;
    AscendingUnique(KeysOf(WithA(rs)), [A, B], NameLess);
  }

  lemma HostedHere(inv: Inventory, apps: seq<AppKey>)
    requires HostsOf(inv, apps) == {"c"}
    ensures ClustersOf(inv, apps) == ["c"]
  {
    hide Less;
    LessOrders();
    SingleSorted(ClustersOf(inv, apps), "c", Less);
  }

  lemma OneResource(inv: Inventory, k: AppKey, r: SyncResource)
    requires (r == FIRST || r == SECOND) && k in inv && inv[k] == map["c" := With([r])]
    ensures ResourcesFor(inv, k, ["c"]) == [r]
  {
    assert Named(r);
    hide ResourceLess, Named;
    ResourceLessOrders();
    assert Scope(inv, k, ["c"]) == {"c"};
    assert NamedIn([r]) == {r};
    assert Selectable(inv, k, ["c"]) == {r};
    SingleSorted(ResourcesFor(inv, k, ["c"]), r, ResourceLess);
  }

  lemma NoResource(inv: Inventory, k: AppKey)
    requires k in inv && inv[k] == map["c" := With([])]
    ensures ResourcesFor(inv, k, ["c"]) == []
  {
    hide ResourceLess, Named;
    assert Scope(inv, k, ["c"]) == {"c"};
    assert NamedIn([]) == {};
    assert Selectable(inv, k, ["c"]) == {};
    assert Elements(ResourcesFor(inv, k, ["c"])) == {};
    SomeIn(ResourcesFor(inv, k, ["c"]));
    assert forall x :: x in ResourcesFor(inv, k, ["c"]) <==> x in Elements(ResourcesFor(inv, k, ["c"]));
  }

  lemma ChosenOne<T>(x: T, m: map<T, bool>)
    ensures Chosen([x], m) == if Is(m, x) then [x] else []
  {
    assert [x][1..] == [];
  }

  lemma ChosenTwo<T>(x: T, y: T, m: map<T, bool>)
    requires Is(m, x) && Is(m, y)
    ensures Chosen([x, y], m) == [x, y]
  {
    ChosenOne(y, m);
    assert [x, y][1..] == [y];
  }

  /** An inventory, the key that selects applications in it, and what comes of it: application `b` is the only
      one with something to select. */
  datatype Plot = Plot(inv: Inventory, key: Key, keys: seq<AppKey>, chosen: map<AppKey, bool>, apps: seq<AppKey>)

  ghost predicate Works(p: Plot) {
    && Marking(p.key) && p.keys != [] && KeysOf(p.inv) == p.keys
    && MarkApps(Fresh(Brings(p.inv)), map[], p.key, 0) == p.chosen
    && p.apps != [] && Chosen(p.keys, p.chosen) == p.apps && FirstUnknown(p.inv, p.apps) == None
    && ClustersOf(p.inv, p.apps) == ["c"]
    && WithResources(p.inv, p.apps, ["c"]) == [B] && ResourcesFor(p.inv, B, ["c"]) == [FIRST]
  }

  const ALONE := Plot(OnlyB(FIRST), Char(' '), [B], map[B := true], [B])
  const BESIDE := Plot(WithA([]), Char('a'), [A, B], map[A := true, B := true], [A, B])

  lemma AloneWorks()
    ensures Works(ALONE)
  {
    hide KeysOf, ResourcesFor, ClustersOf, SetAll, AllChosen, ChooseIf, HostsOf;
    KeysOfOnlyB(FIRST);
    assert MarkApps(Fresh(Brings(OnlyB(FIRST))), map[], Char(' '), 0) == map[B := true];
    ChosenOne(B, map[B := true]);
    assert [B][1..] == [] && FirstUnknown(OnlyB(FIRST), []) == None && WithResources(OnlyB(FIRST), [], ["c"]) == [];
    HostsOfB();
    HostedHere(OnlyB(FIRST), [B]);
    OneResource(OnlyB(FIRST), B, FIRST);
  }

  lemma HostsOfB()
    ensures HostsOf(OnlyB(FIRST), [B]) == {"c"}
  {
    assert B in [B] && "c" in OnlyB(FIRST)[B];
  }

  lemma HostsOfBoth()
    ensures HostsOf(WithA([]), [A, B]) == {"c"}
  {
    assert B in [A, B] && "c" in WithA([])[B];
  }

  lemma BesideMarked()
    ensures MarkApps(Fresh(Brings(WithA([]))), map[], Char('a'), 0) == map[A := true, B := true]
  {
    hide KeysOf, ChooseIf;
    KeysOfWithA([]);
    var none: map<AppKey, bool> := map[];
    assert !Is(none, [A, B][0]);
    assert Elements([A, B]) == {A, B};
    assert SetAll([A, B], none, true) == map[A := true, B := true];
  }

  lemma BesideWorks()
    ensures Works(BESIDE)
  {
    hide KeysOf, ResourcesFor, ClustersOf, MarkApps, HostsOf;
    KeysOfWithA([]);
    BesideMarked();
    ChosenTwo(A, B, map[A := true, B := true]);
    assert [A, B][1..] == [B] && [B][1..] == [];
    assert FirstUnknown(WithA([]), []) == None && FirstUnknown(WithA([]), [B]) == None;
    HostsOfBoth();
    HostedHere(WithA([]), [A, B]);
    NoResource(WithA([]), A);
    OneResource(WithA([]), B, FIRST);
    assert WithResources(WithA([]), [], ["c"]) == [] && WithResources(WithA([]), [B], ["c"]) == [B];
  }

  // ---- from the start to the choice of the action ----

  ghost predicate AtApps(s: State, p: Plot, chosen: map<AppKey, bool>) {
    s.step == SelectApps && s.cursor == 0 && s.data == Fresh(Brings(p.inv)) && s.picks.appSelected == chosen
    && s.view.filter == "" && !s.view.filtering && s.plan == FirstPlan(s.cli)
  }

  /** The applications of the plot and their cluster are chosen. */
  ghost predicate Chose(s: State, p: Plot) {
    s.data == Fresh(Brings(p.inv)) && s.picks.appSelected == p.chosen && s.picks.clusterNames == ["c"]
    && s.picks.clSelected == map["c" := true] && s.view.filter == "" && s.plan == FirstPlan(s.cli)
  }

  ghost predicate AtClusters(s: State, p: Plot) {
    s.step == SelectClusters && s.cursor == 0 && Chose(s, p)
  }

  ghost predicate AtResources(s: State, p: Plot, marks: map<AppKey, map<SyncResource, bool>>) {
    s.step == SelectResources && s.cursor == 0 && Chose(s, p)
    && s.picks.res.apps == [B] && s.picks.res.idx == 0 && s.picks.res.list == [FIRST] && s.picks.res.marks == marks
  }

  const MARKED: map<AppKey, map<SyncResource, bool>> := map[B := map[FIRST := true]]

  ghost predicate AtAction(s: State, p: Plot) {
    s.step == SelectAction && Chose(s, p) && s.picks.res.marks == MARKED
  }

  function ToClusters(p: Plot): seq<Msg> {
    [LoadDone(Brings(p.inv)), Press(p.key, ""), Press(Enter, "")]
  }

  function ToAction(p: Plot): seq<Msg> {
    ToClusters(p) + [Press(Enter, ""), Press(Char(' '), ""), Press(Enter, "")]
  }

  lemma Loads(cli: Cli, p: Plot)
    ensures AtApps(Step(Initial(cli), LoadDone(Brings(p.inv))).state, p, map[])
  {
    hide Fresh;
  }

  lemma SelectsApps(s: State, p: Plot)
    requires Works(p) && AtApps(s, p, map[])
    ensures AtApps(Step(s, Press(p.key, "")).state, p, p.chosen)
  {
    hide Filtered, Typed, AppsChosen, Scrolled, MarkApps, KeysOf, Chosen, FirstUnknown, ClustersOf, WithResources, ResourcesFor, ClusterMap;
  }

  lemma EntersClusters(s: State, p: Plot)
    requires Works(p) && AtApps(s, p, p.chosen)
    ensures AtClusters(Step(s, Press(Enter, "")).state, p)
  {
    hide Filtered, Typed, Scrolled, ClustersOf, MarkApps, Chosen, FirstUnknown, Moved, AppsHeight, KeysOf, WithResources, ResourcesFor, ClusterMap;
    assert (map c | c in ["c"] :: true) == map["c" := true];
  }

  lemma ReachesClusters(cli: Cli, p: Plot)
    requires Works(p)
    ensures AtClusters(After(Initial(cli), ToClusters(p)), p)
  {
    hide Step, AtApps, AtClusters, Works;
    var ms := ToClusters(p);
    AfterSnoc(Initial(cli), ms, 0);
    AfterSnoc(Initial(cli), ms, 1);
    AfterSnoc(Initial(cli), ms, 2);
    assert ms[..0] == [] && ms[..3] == ms;
    Loads(cli, p);
    SelectsApps(After(Initial(cli), ms[..1]), p);
    EntersClusters(After(Initial(cli), ms[..2]), p);
  }

  lemma EntersResources(s: State, p: Plot)
    requires Works(p) && AtClusters(s, p)
    ensures AtResources(Step(s, Press(Enter, "")).state, p, map[])
  {
    hide Scrolled, ResourcesFor, Aggregated, SetAll, AllChosen, MarkApps, Chosen, FirstUnknown, ClustersOf, WithResources, KeysOf, ClusterMap;
    ChosenOne("c", map["c" := true]);
  }

  lemma MarksFirst(s: State, p: Plot)
    requires AtResources(s, p, map[])
    ensures AtResources(Step(s, Press(Char(' '), "")).state, p, MARKED)
  {
    hide Scrolled, ResourcesChosen, Fresh;
    assert MarkResources(s.picks.res, Char(' '), 0).marks == MARKED;
  }

  lemma EntersAction(s: State, p: Plot)
    requires Works(p) && AtResources(s, p, MARKED)
    ensures AtAction(Step(s, Press(Enter, "")).state, p)
  {
    hide Scrolled, ResourcesFor, Aggregated, MarkResources, KeysOf, MarkApps, Chosen, FirstUnknown, ClustersOf, WithResources, ClusterMap;
    ChosenOne("c", map["c" := true]);
    ChosenOne(FIRST, map[FIRST := true]);
  }

  lemma ReachesAction(cli: Cli, p: Plot)
    requires Works(p)
    ensures AtAction(After(Initial(cli), ToAction(p)), p)
  {
    hide Step, AtResources, AtClusters, AtAction, Works;
    var ms := ToAction(p);
    ReachesClusters(cli, p);
    assert ms[..3] == ToClusters(p) && ms[..6] == ms;
    AfterSnoc(Initial(cli), ms, 3);
    AfterSnoc(Initial(cli), ms, 4);
    AfterSnoc(Initial(cli), ms, 5);
    EntersResources(After(Initial(cli), ms[..3]), p);
    MarksFirst(After(Initial(cli), ms[..4]), p);
    EntersAction(After(Initial(cli), ms[..5]), p);
  }

  /** Enter in the choice of the action starts the run, if no risky flag is set. */
  lemma EnterLaunches(s: State)
    requires s.step == SelectAction && s.plan == FirstPlan(s.cli)
    ensures Step(s, Press(Enter, "")).cmd == Launch(RequestOf(s))
  {
    hide RequestOf, StartView;
    assert ACTIONS[0] == ActionSync;
    assert s.(plan := s.plan.(action := ActionSync)) == s;
  }

  // ---- a run in which nothing goes wrong ----

  lemma NothingReloads(s: State, ms: seq<Msg>, m: Msg)
    requires !Reloads(m) && (ChoosesClusters(After(s, ms), m) || Current(s, ms))
    ensures Current(s, ms + [m])
  {
    hide Step;
    assert (ms + [m])[..|ms|] == ms;
  }

  /** These messages choose the clusters, and no new inventory arrives after that. */
  lemma ActionIsCurrent(cli: Cli, p: Plot)
    requires Works(p)
    ensures Current(Initial(cli), ToAction(p))
  {
    hide Step, Current, After, Works, Chose;
    var s := Initial(cli);
    ReachesClusters(cli, p);
    EntersResources(After(s, ToClusters(p)), p);
    var four := ToClusters(p) + [Press(Enter, "")];
    var five := four + [Press(Char(' '), "")];
    assert ToAction(p) == five + [Press(Enter, "")];
    NothingReloads(s, ToClusters(p), Press(Enter, ""));
    NothingReloads(s, four, Press(Char(' '), ""));
    NothingReloads(s, five, Press(Enter, ""));
  }

  lemma AloneCovered()
    ensures AllCovered(ToAction(ALONE))
  {
    assert Brings(OnlyB(FIRST)).clusters[0].contextName == "c";
  }

  lemma BesideCovered()
    ensures AllCovered(ToAction(BESIDE))
  {
    assert Brings(WithA([])).clusters[0].contextName == "c";
  }

  /** What the state at the choice of the action requests. */
  lemma RequestAt(s: State, p: Plot)
    requires Works(p) && AtAction(s, p)
    ensures var r := RequestOf(s);
            r.inv == p.inv && r.apps == p.apps && r.clusters == ["c"] && r.action == ActionSync && r.opts == Defaults(s.cli)
            && "c" in r.clusterBy
            && forall a :: a in p.apps ==>
                 a in r.resources && r.resources[a] == MarkedIn(p.inv, ["c"], s.picks.res, a)
  {
    hide ResourcesFor, MarkApps, Chosen, FirstUnknown, ClustersOf, WithResources, KeysOf, ClusterMap, MarkedIn;
    ChosenOne("c", map["c" := true]);
    assert Brings(p.inv).clusters[0].contextName == "c";
  }

  lemma MarkedFirst(p: Plot, res: ResourcePicks)
    requires Works(p) && res.marks == MARKED
    ensures MarkedIn(p.inv, ["c"], res, B) == [FIRST]
  {
    hide ResourcesFor, MarkApps, Chosen, FirstUnknown, ClustersOf, WithResources, KeysOf, ClusterMap;
    ChosenOne(FIRST, map[FIRST := true]);
  }

  /** A run that starts as `WizardSelection.LaunchedSelection` asks, with the marked resource in its request. */
  lemma MarkedRun(cli: Cli)
    ensures AllCovered(ToAction(ALONE)) && Current(Initial(cli), ToAction(ALONE))
    ensures var cmd := Step(After(Initial(cli), ToAction(ALONE)), Press(Enter, "")).cmd;
            cmd.Launch? && cmd.request.action == ActionSync && B in cmd.request.resources && cmd.request.resources[B] == [FIRST]
  {
    hide Step, Current, After, AllCovered, Works, RequestOf, MarkedIn;
    AloneWorks();
    AloneCovered();
    ActionIsCurrent(cli, ALONE);
    ReachesAction(cli, ALONE);
    var s := After(Initial(cli), ToAction(ALONE));
    EnterLaunches(s);
    RequestAt(s, ALONE);
    MarkedFirst(ALONE, s.picks.res);
  }

  // ---- an application without resources ----

  /** Application `a` has no resources and is passed over when they are marked; the run has it as a target,
      and every worker of it that is not turned away syncs it as a whole. */
  lemma PassedOverRun(cli: Cli, h: History)
    ensures AllCovered(ToAction(BESIDE)) && Current(Initial(cli), ToAction(BESIDE))
    ensures var cmd := Step(After(Initial(cli), ToAction(BESIDE)), Press(Enter, "")).cmd;
            cmd.Launch? && SyncsWhole(cmd.request, h)
  {
    hide Step, Current, After, AllCovered, Works, RequestOf, SyncsWhole;
    BesideWorks();
    BesideCovered();
    ActionIsCurrent(cli, BESIDE);
    ReachesAction(cli, BESIDE);
    var s := After(Initial(cli), ToAction(BESIDE));
    EnterLaunches(s);
    PassedOverRequest(s, h);
  }

  /** The request has `a` among its targets without any resource, and `b` with its marked one; with the calls
      `h`, a worker for `a` that was not turned away has synced it as a whole. */
  predicate SyncsWhole(r: RunRequest, h: History) {
    && Target("c", A) in TargetsOf(r.inv, r.apps, r.clusters) && r.resources == map[A := [], B := [FIRST]]
    && (Sentence(EndToEnd.JobFor(r, Target("c", A)), h) && h != [TURNED_AWAY] ==>
          |h| > 1 && h[1].request == CallSync(r.opts.(resources := [])))
  }

  lemma PassedOverRequest(s: State, h: History)
    requires AtAction(s, BESIDE)
    ensures SyncsWhole(RequestOf(s), h)
  {
    hide Works, RequestOf, MarkedIn, Sentence, EndToEnd.JobFor, TargetsOf, Chose;
    var r := RequestOf(s);
    BesideWorks();
    RequestAt(s, BESIDE);
    MarkedFirst(BESIDE, s.picks.res);
    PassedOver(s.picks.res);
    RequestKeys(s);
    assert A in [A, B] && B in [A, B];
    assert r.resources == map[A := [], B := [FIRST]];
    TargetHere(r);
    if Sentence(EndToEnd.JobFor(r, Target("c", A)), h) && h != [TURNED_AWAY] {
      SyncedWhole(r, h, s.cli);
    }
  }

  lemma PassedOver(res: ResourcePicks)
    requires res.marks == MARKED
    ensures MarkedIn(WithA([]), ["c"], res, A) == []
  {
    hide ResourcesFor;
    NoResource(WithA([]), A);
  }

  lemma RequestKeys(s: State)
    ensures forall a :: a in RequestOf(s).resources <==> a in RequestOf(s).apps
  {
    hide SelectedAppsOf, SelectedClustersOf, MarkedIn;
  }

  lemma TargetHere(r: RunRequest)
    requires r.inv == WithA([]) && r.apps == [A, B] && r.clusters == ["c"]
    ensures Target("c", A) in TargetsFor(r)
  {
    TargetsExactly(r.inv, r.apps, r.clusters);
    assert A in [A, B] && "c" in ["c"];
  }

  lemma SyncedWhole(r: RunRequest, h: History, cli: Cli)
    requires r.inv == WithA([]) && r.resources == map[A := [], B := [FIRST]] && r.opts == Defaults(cli) && r.action == ActionSync
    requires Sentence(EndToEnd.JobFor(r, Target("c", A)), h) && h != [TURNED_AWAY] && "c" in r.clusterBy
    ensures |h| > 1 && h[1].request == CallSync(r.opts.(resources := []))
  {
    hide WaitSentence, IsOpInProgress;
    var job := EndToEnd.JobFor(r, Target("c", A));
    assert SyncOptions(job) == r.opts.(resources := []);
    assert h[1..][0] == h[1];
  }

  // ---- harmful refreshes ----

  lemma StepOfRefresh(s: State, load: Load)
    ensures Step(s, RefreshDone(load)).state == OnRefresh(s, load)
  {
  }

  lemma SpaceCrashes(s: State, load: Load)
    requires s.step == SelectClusters && s.picks.clusterNames != [] && load.Loaded?
    requires RefreshedCursor(s, load) >= |s.picks.clusterNames|
    ensures Step(OnRefresh(s, load), Press(Char(' '), "")).cmd == Crash
    ensures !LandsSafely(s, RefreshDone(load))
  {
    hide RefreshedCursor, OnRefresh;
    RefreshedOnRow(s, load);
  }

  lemma FilteredByNothing(s: State)
    requires s.view.filter == ""
    ensures Filtered(s).data.appKeys == s.data.appKeysAll
  {
    hide Scrolled;
  }

  lemma CursorMovesToB(s: State)
    requires AtClusters(s, ALONE)
    ensures RefreshedCursor(s, Brings(WithA([FIRST]))) == 1
  {
    hide KeysOf, Scrolled, ClusterMap;
    KeysOfOnlyB(FIRST);
    KeysOfWithA([FIRST]);
    assert IndexOf([A, B], B) == 1;
    FilteredByNothing(s.(refreshing := false, data := Fresh(Brings(WithA([FIRST]))).(appKeys := s.data.appKeys)));
  }

  /** A reachable crash: with `b` chosen and its only cluster on the screen, a refresh finds an application
      sorted before it; the cursor leaves the list of clusters, and the next space is out of range. */
  lemma RefreshCrashes(cli: Cli)
    ensures var load := Brings(WithA([FIRST]));
            var ms := ToClusters(ALONE) + [RefreshDone(load)];
            Step(After(Initial(cli), ms), Press(Char(' '), "")).cmd == Crash
            && !LandsSafely(After(Initial(cli), ToClusters(ALONE)), RefreshDone(load))
  {
    hide Step, OnRow, Works;
    var load := Brings(WithA([FIRST]));
    var ms := ToClusters(ALONE) + [RefreshDone(load)];
    AloneWorks();
    ReachesClusters(cli, ALONE);
    var s := After(Initial(cli), ToClusters(ALONE));
    assert ms[..3] == ToClusters(ALONE) && ms[..4] == ms;
    AfterSnoc(Initial(cli), ms, 3);
    CursorMovesToB(s);
    StepOfRefresh(s, load);
    SpaceCrashes(s, load);
  }

  /** The state after a refresh at the choice of the action, and what it launches. */
  lemma RefreshedLaunch(cli: Cli, load: Load)
    requires load.Loaded?
    ensures var s := After(Initial(cli), ToAction(ALONE));
            var t := After(Initial(cli), ToAction(ALONE) + [RefreshDone(load)]);
            AtAction(s, ALONE) && t == OnRefresh(s, load) && Step(t, Press(Enter, "")).cmd == Launch(RequestOf(t))
            && t.plan == s.plan && SelectedClustersOf(s) == ["c"]
  {
    hide Step, Works, RequestOf, OnRefresh, Fresh;
    var ms := ToAction(ALONE) + [RefreshDone(load)];
    var s := After(Initial(cli), ToAction(ALONE));
    AloneWorks();
    ReachesAction(cli, ALONE);
    assert ms[..6] == ToAction(ALONE) && ms[..7] == ms;
    AfterSnoc(Initial(cli), ms, 6);
    StepOfRefresh(s, load);
    RefreshFrame(s, load);
    EnterLaunches(OnRefresh(s, load));
    ChosenOne("c", map["c" := true]);
  }

  /** A reachable widening: the marked resource of `b` is gone after a refresh at the choice of the action,
      another one is there, and the run syncs the whole application. */
  lemma RefreshWidensRun(cli: Cli)
    ensures var t := After(Initial(cli), ToAction(ALONE) + [RefreshDone(Brings(OnlyB(SECOND)))]);
            var cmd := Step(t, Press(Enter, "")).cmd;
            cmd.Launch? && B in cmd.request.resources && cmd.request.resources[B] == [] && cmd.request.action == ActionSync
            && ResourcesFor(cmd.request.inv, B, cmd.request.clusters) == [SECOND]
  {
    hide Step, After, OnRefresh, ResourcesFor, SelectedClustersOf, SelectedAppsOf;
    var load := Brings(OnlyB(SECOND));
    RefreshedLaunch(cli, load);
    var s := After(Initial(cli), ToAction(ALONE));
    var t := OnRefresh(s, load);
    RequestAfterRefresh(s, load, t);
    OneResource(OnlyB(SECOND), B, SECOND);
    ChosenOne(SECOND, map[FIRST := true]);
    assert B in SelectedAppsOf(t);
  }

  /** A reachable run without targets: a refresh at the choice of the action finds no applications any more. */
  lemma RefreshEmptiesRun(cli: Cli)
    ensures var t := After(Initial(cli), ToAction(ALONE) + [RefreshDone(Brings(map[]))]);
            var cmd := Step(t, Press(Enter, "")).cmd;
            cmd.Launch? && TargetsFor(cmd.request) == []
  {
    hide Step, After, OnRefresh, RequestOf;
    var load := Brings(map[]);
    RefreshedLaunch(cli, load);
    var s := After(Initial(cli), ToAction(ALONE));
    HostedIff(s, load, OnRefresh(s, load));
  }
}
