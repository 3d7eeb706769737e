/** What the keys of each step do to what the user has chosen, said of the whole step of the wizard. */
module WizardSteps {
  import opened GoStrings
  import opened Models
  import opened Ordering
  import opened Resources
  import opened Discovery
  import opened Targets
  import opened Viewport
  import opened WaitMessage
  import opened Wizard
  import opened WizardGate
  import opened WizardKeys
  import opened WizardSafety
  import opened WizardSelection

  // ---- space ----

  /** The selection `after` differs from `before` in `x` and in nothing else. */
  ghost predicate Flipped<T(!new)>(before: map<T, bool>, after: map<T, bool>, x: T) {
    forall k :: Is(after, k) <==> (Is(before, k) != (k == x))
  }

  /** Space in the list of applications flips the one under the cursor and changes nothing else. */
  lemma SpaceOnApps(s: State)
    requires s.step == SelectApps && !s.view.filtering && 0 <= s.cursor < |s.data.appKeys|
    ensures var t := Step(s, Press(Char(' '), "")).state;
            t == s.(picks := s.picks.(appSelected := t.picks.appSelected))
            && Flipped(s.picks.appSelected, t.picks.appSelected, s.data.appKeys[s.cursor])
  {
    hide AppsChosen, Scrolled, Filtered, SetAll, ChooseIf, AllChosen;
  }

  /** Space in the list of clusters. */
  lemma SpaceOnClusters(s: State)
    requires s.step == SelectClusters && 0 <= s.cursor < |s.picks.clusterNames|
    ensures var t := Step(s, Press(Char(' '), "")).state;
            t == s.(picks := s.picks.(clSelected := t.picks.clSelected))
            && Flipped(s.picks.clSelected, t.picks.clSelected, s.picks.clusterNames[s.cursor])
  {
    hide ClustersChosen, Scrolled, SetAll, AllChosen;
  }

  /** Space in the list of resources, for the application on the screen. */
  lemma SpaceOnResources(s: State)
    requires s.step == SelectResources && s.picks.res.idx < |s.picks.res.apps| && 0 <= s.cursor < |s.picks.res.list|
    ensures var t := Step(s, Press(Char(' '), "")).state;
            var app := s.picks.res.apps[s.picks.res.idx];
            t == s.(picks := s.picks.(res := s.picks.res.(marks := t.picks.res.marks)))
            && Flipped(MarksOf(s.picks.res, app), MarksOf(t.picks.res, app), s.picks.res.list[s.cursor])
            && forall a :: a != app ==> MarksOf(t.picks.res, a) == MarksOf(s.picks.res, a)
  {
    hide ResourcesChosen, Scrolled, SetAll, ChooseIf, AllChosen;
  }

  lemma {:induction false} ChosenSame<T>(list: seq<T>, m: map<T, bool>, n: map<T, bool>)
    requires forall k :: k in list ==> (Is(m, k) <==> Is(n, k))
    ensures Chosen(list, m) == Chosen(list, n)
  {
    if list != [] {
      assert list[0] in list;
      ChosenSame(list[1..], m, n);
    }
  }

  /** Space pressed twice leaves every selection as it was. */
  lemma SpaceTwiceOnApps(s: State)
    requires s.step == SelectApps && !s.view.filtering && 0 <= s.cursor < |s.data.appKeys|
    ensures SelectedAppsOf(Step(Step(s, Press(Char(' '), "")).state, Press(Char(' '), "")).state) == SelectedAppsOf(s)
  {
    hide Step, Chosen;
    SpaceOnApps(s);
    var t := Step(s, Press(Char(' '), "")).state;
    SpaceOnApps(t);
    var u := Step(t, Press(Char(' '), "")).state;
    ChosenSame(s.data.appKeysAll, u.picks.appSelected, s.picks.appSelected);
  }

  lemma SpaceTwiceOnClusters(s: State)
    requires s.step == SelectClusters && 0 <= s.cursor < |s.picks.clusterNames|
    ensures SelectedClustersOf(Step(Step(s, Press(Char(' '), "")).state, Press(Char(' '), "")).state) == SelectedClustersOf(s)
  {
    hide Step, Chosen;
    SpaceOnClusters(s);
    var t := Step(s, Press(Char(' '), "")).state;
    SpaceOnClusters(t);
    var u := Step(t, Press(Char(' '), "")).state;
    ChosenSame(s.picks.clusterNames, u.picks.clSelected, s.picks.clSelected);
  }

  lemma SpaceTwiceOnResources(s: State, a: AppKey)
    requires s.step == SelectResources && s.picks.res.idx < |s.picks.res.apps| && 0 <= s.cursor < |s.picks.res.list|
    ensures SelectedResourcesOf(Step(Step(s, Press(Char(' '), "")).state, Press(Char(' '), "")).state, a) == SelectedResourcesOf(s, a)
  {
    hide Step, Chosen, MarksOf, ResourcesFor;
    SpaceOnResources(s);
    var t := Step(s, Press(Char(' '), "")).state;
    SpaceOnResources(t);
    var u := Step(t, Press(Char(' '), "")).state;
    ChosenSame(ResourcesFor(s.data.inv, a, SelectedClustersOf(s)), MarksOf(u.picks.res, a), MarksOf(s.picks.res, a));
  }

  // ---- movement ----

  /** Where the movement keys take the cursor of a list of `total` rows that shows `height` of them. */
  ghost predicate MovedBy(key: Key, from: int, to: int, height: int, total: int) {
    (key == Up ==> to == Max(0, from - 1)) && (key == Down ==> to == Min(total - 1, from + 1))
    && (key == PgUp ==> to == Max(0, from - height)) && (key == PgDown ==> to == Min(total - 1, from + height))
  }

  /** In each list, the movement keys move the cursor one row or one page, and stop at the ends. */
  lemma Movement(s: State, key: Key)
    requires Safe(s) && Moves(key)
    ensures var t := Step(s, Press(key, "")).state;
            (s.step == SelectApps && !s.view.filtering && s.data.appKeys != [] ==>
               MovedBy(key, s.cursor, t.cursor, AppsHeight(s), |s.data.appKeys|)
               && t == s.(cursor := t.cursor, view := t.view))
            && (s.step == SelectClusters && s.picks.clusterNames != [] ==>
                  MovedBy(key, s.cursor, t.cursor, ClustersHeight(s), |s.picks.clusterNames|)
                  && t == s.(cursor := t.cursor, view := t.view))
            && (s.step == SelectResources && s.picks.res.list != [] ==>
                  MovedBy(key, s.cursor, t.cursor, ResourcesHeight(s), |s.picks.res.list|)
                  && t == s.(cursor := t.cursor, view := t.view))
  {
    hide Scrolled, MoveTo, AppsHeight, ClustersHeight, ResourcesHeight, MovedBy, OnRow;
    Heights(s);
    if s.step == SelectApps && s.data.appKeys != [] {
      MovesRows(key, s.cursor, AppsHeight(s), |s.data.appKeys|);
    } else if s.step == SelectClusters && s.picks.clusterNames != [] {
      MovesRows(key, s.cursor, ClustersHeight(s), |s.picks.clusterNames|);
    } else if s.step == SelectResources && s.picks.res.list != [] {
      MovesRows(key, s.cursor, ResourcesHeight(s), |s.picks.res.list|);
    }
  }

  lemma Heights(s: State)
    ensures AppsHeight(s) > 0 && ClustersHeight(s) > 0 && ResourcesHeight(s) > 0
  {
  }

  lemma MovesRows(key: Key, cursor: int, height: int, total: nat)
    requires Moves(key) && height > 0 && total > 0 && OnRow(cursor, total)
    ensures MovedBy(key, cursor, MoveTo(key, cursor, height, total), height, total)
  {
  }

  /** In the choice of the action the arrows move among the three actions. */
  lemma ActionMovement(s: State, key: Key)
    requires s.step == SelectAction && 0 <= s.plan.actionIdx <= 2 && (key == Up || key == Down)
    ensures Step(s, Press(key, "")).state
         == s.(plan := s.plan.(actionIdx := if key == Up then Max(0, s.plan.actionIdx - 1) else Min(2, s.plan.actionIdx + 1)))
  {
  }

  // ---- the action ----

  /** The action in row `idx`. */
  predicate IsAction(a: Action, idx: int) {
    (idx == 0 && a == ActionSync) || (idx == 1 && a == ActionRefresh) || (idx == 2 && a == ActionHardRefresh)
  }

  /** Enter takes the action of the row under the cursor. A sync with prune or force has to be confirmed; anything
      else starts at once. */
  lemma EnterAction(s: State)
    requires s.step == SelectAction && 0 <= s.plan.actionIdx <= 2
    ensures var t := Step(s, Press(Enter, ""));
            IsAction(t.state.plan.action, s.plan.actionIdx) && t.state.plan.opts == s.plan.opts
            && (if s.plan.actionIdx == 0 && (s.plan.opts.prune || s.plan.opts.force) then
                  t.cmd == NoCmd && t.state.step == Confirm
                else
                  t.cmd.Launch? && t.cmd.request.action == t.state.plan.action && t.cmd.request.opts == s.plan.opts
                  && t.state.step == Running)
  {
    hide MarkedIn, StartView, SelectedAppsOf, SelectedClustersOf;
  }

  // ---- options over whole runs ----

  /** The options that no key changes are those of the command line. */
  predicate FromCli(o: RunOptions, cli: Cli) {
    o.wait == !cli.noWait && o.waitHealthy == !cli.noWait && o.waitTimeout == cli.waitTimeout
    && o.pollInterval == cli.pollInterval && o.resources == []
  }

  lemma PlanFromCli(plan: Plan, cli: Cli, key: Key)
    ensures FromCli(plan.opts, cli) ==> FromCli(Planned(plan, key).opts, cli)
    ensures FromCli(FirstPlan(cli).opts, cli)
  {
    hide Toggled;
    OptionKeys(plan.opts, key);
  }

  lemma StepFromCli(s: State, m: Msg)
    requires FromCli(s.plan.opts, s.cli)
    ensures var t := Step(s, m).state;
            t.cli == s.cli && FromCli(t.plan.opts, t.cli)
  {
    hide OnApps, OnClusters, OnResources, OnDone, OnRefresh, RequestOf, Planned, StartView, OnProgress, Scrolled, Fresh, FromCli, FirstPlan;
    if m.Press? {
      NoOtherRunning(s, m.key, m.typed);
      KeysKeepCli(s, m.key, m.typed);
      PlanFromCli(s.plan, s.cli, m.key);
    } else if m.RefreshDone? {
      RefreshFrame(s, m.load);
    }
  }

  lemma KeysKeepCli(s: State, key: Key, typed: string)
    ensures OnApps(s, key, typed).state.cli == s.cli && OnClusters(s, key).state.cli == s.cli
            && OnResources(s, key).state.cli == s.cli && OnDone(s, key).state.cli == s.cli
  {
    hide Scrolled, MoveTo, MarkApps, Typed, AppsHeight, Filtered, SelectedAppsOf, FirstUnknown, ClustersHeight, SetAll, AllChosen;
    hide WithResources, Opened, SelectedClustersOf, ResourcesHeight, MarkResources, SelectedResourcesOf;
    FilteredFrame(s.(view := Typed(s.view, key, typed)));
    FilteredFrame(s.(view := s.view.(filter := "")));
  }

  lemma {:induction false} AlwaysFromCli(cli: Cli, ms: seq<Msg>)
    ensures After(Initial(cli), ms).cli == cli && FromCli(After(Initial(cli), ms).plan.opts, cli)
    decreases |ms|
  {
    hide Step;
    if ms != [] {
      AlwaysFromCli(cli, ms[..|ms| - 1]);
      StepFromCli(After(Initial(cli), ms[..|ms| - 1]), ms[|ms| - 1]);
    }
  }

  /** Every run ever started waits, and for how long and how often it polls, as the command line says; and its
      options name no resources themselves. */
  lemma LaunchedFromCli(cli: Cli, ms: seq<Msg>, m: Msg)
    requires Step(After(Initial(cli), ms), m).cmd.Launch?
    ensures FromCli(Step(After(Initial(cli), ms), m).cmd.request.opts, cli)
  {
    hide Step, FromCli;
    AlwaysFromCli(cli, ms);
    LaunchPlan(After(Initial(cli), ms), m);
  }

  // ---- the request ----

  /** What is requested: the inventory and clusters that are loaded, the selected applications that it has, by
      name, and the selected clusters on offer. */
  lemma RequestMeaning(s: State)
    requires Steady(s)
    ensures var r := RequestOf(s);
            r.inv == s.data.inv && r.clusterBy == s.data.clusterBy
            && (forall a :: a in r.apps <==> a in s.data.inv && a in s.picks.appSelected && s.picks.appSelected[a])
            && (forall i, j :: 0 <= i < j < |r.apps| ==> Less(r.apps[i].name, r.apps[j].name))
            && (forall c :: c in r.clusters <==> c in s.picks.clusterNames && c in s.picks.clSelected && s.picks.clSelected[c])
  {
    hide Chosen, MarkedIn, NameLess;
    var r := RequestOf(s);
    ChosenExactly(s.data.appKeysAll, s.picks.appSelected);
    ChosenExactly(s.picks.clusterNames, s.picks.clSelected);
    ChosenAscends(s.data.appKeysAll, s.picks.appSelected, NameLess);
    AscendingNames(r.apps);
  }

  lemma AscendingNames(keys: seq<AppKey>)
    requires Ascending(keys, NameLess)
    ensures forall i, j :: 0 <= i < j < |keys| ==> Less(keys[i].name, keys[j].name)
  {
    forall i, j | 0 <= i < j < |keys| ensures Less(keys[i].name, keys[j].name) {
      assert NameLess(keys[i], keys[j]);
    }
  }

  /** The screen at the start of a run: every target pending and in the state it was loaded with, and nothing
      of an earlier run. */
  lemma StartViewMeaning(inv: Inventory, targets: seq<Target>, t: Target)
    ensures var v := StartView(inv, targets);
            v.targets == targets && v.messages == map[] && v.errors == map[] && v.after == map[] && v.results == []
            && (t in v.statuses <==> t in targets) && (t in targets ==> v.statuses[t] == TaskPending)
            && (t in v.before <==> t in targets && t.app in inv && t.clusterContext in inv[t.app])
            && (t in v.before ==> v.before[t] == inv[t.app][t.clusterContext])
  {
  }

  // ---- back, and again ----

  /** Backspace leads one step back, to the first row. */
  lemma BackspaceMeaning(s: State)
    ensures var t := Step(s, Press(Backspace, ""));
            (s.step == SelectClusters ==> t.state.step == SelectApps)
            && (s.step == SelectResources ==> t.state.step == SelectClusters)
            && (s.step == SelectAction ==> t.state.step == SelectResources)
            && (s.step in {SelectClusters, SelectResources, SelectAction} ==>
                  t.cmd == NoCmd && t.state == s.(step := t.state.step, cursor := 0, view := t.state.view))
  {
    hide OnApps, OnDone, OnConfirm;
  }

  /** "r" on the last screen starts again with nothing selected and the options of the command line; what is
      loaded stays, and a refresh is started unless one is under way. */
  lemma RestartForgets(s: State, a: AppKey)
    requires s.step == Done
    ensures var t := Step(s, Press(Char('r'), ""));
            t.state.step == SelectApps && t.state.cursor == 0 && t.state.data == s.data && t.state.refreshing
            && SelectedAppsOf(t.state) == [] && SelectedClustersOf(t.state) == [] && MarksOf(t.state.picks.res, a) == map[]
            && t.state.picks.clusterNames == [] && t.state.picks.res.apps == [] && t.state.picks.res.list == []
            && t.state.plan.actionIdx == 0 && t.state.plan.action == ActionSync && FromCli(t.state.plan.opts, s.cli)
            && NoFlags(t.state.plan.opts)
            && t.state.run.statuses == map[] && t.state.run.errors == map[] && t.state.run.results == []
            && t.cmd == if s.refreshing then NoCmd else StartRefresh
  {
    hide Chosen;
    NothingChosen(s.data.appKeysAll);
    NothingChosen<string>([]);
  }

  predicate NoFlags(o: RunOptions) {
    !o.preRefresh && !o.preHardRefresh && !o.prune && !o.dryRun && !o.applyOnly && !o.force
  }

  lemma {:induction false} NothingChosen<T>(list: seq<T>)
    ensures Chosen(list, map[]) == []
  {
    if list != [] { NothingChosen(list[1..]); }
  }

  /** The first state: nothing loaded or selected, and the options of the command line without flags. */
  lemma InitialMeaning(cli: Cli)
    ensures var s := Initial(cli);
            s.step == Loading && s.data.inv == map[] && s.data.appKeys == [] && s.picks.appSelected == map[]
            && s.plan.actionIdx == 0 && s.plan.action == ActionSync && FromCli(s.plan.opts, cli) && NoFlags(s.plan.opts)
            && !s.refreshing && s.cli == cli
  {
  }

  // ---- loading, refreshing and progress ----

  /** A load shows all its applications by name, in the first step; a failed one leads to the error. */
  lemma LoadMeaning(s: State, load: Load, c: string)
    ensures var t := Step(s, LoadDone(load)).state;
            (load.LoadFailed? ==> t == s.(step := Broken, err := Some(External(load.text))))
            && (load.Loaded? ==>
                  t.step == SelectApps && t.cursor == 0 && t.picks == s.picks && t.plan == s.plan && t.run == s.run
                  && t.data.inv == load.inv && t.data.loadErrs == load.errs && t.data.appKeys == t.data.appKeysAll
                  && (forall a :: a in t.data.appKeys <==> a in load.inv)
                  && (c in t.data.clusterBy <==> exists i :: 0 <= i < |load.clusters| && load.clusters[i].contextName == c)
                  && (c in t.data.clusterBy ==> t.data.clusterBy[c] in load.clusters && t.data.clusterBy[c].contextName == c))
  {
    hide KeysOf;
    if load.Loaded? {
      ClusterMapValues(load.clusters, c);
    }
  }

  lemma {:induction false} ClusterMapValues(clusters: seq<Cluster>, c: string)
    ensures c in ClusterMap(clusters) ==> ClusterMap(clusters)[c] in clusters && ClusterMap(clusters)[c].contextName == c
    decreases |clusters|
  {
    if clusters != [] {
      ClusterMapValues(clusters[..|clusters| - 1], c);
    }
  }

  /** A refresh that fails changes nothing but the errors. */
  lemma RefreshFailure(s: State, load: Load)
    requires load.LoadFailed?
    ensures Step(s, RefreshDone(load))
         == Turn(s.(refreshing := false, err := Some(External(load.text)), data := s.data.(loadErrs := load.errs)), NoCmd)
  {
  }

  /** An event sets the status of its target; its message and its error, if it has them; and for a report, the
      state that it tells. Nothing else changes. */
  lemma ProgressMeaning(s: State, ev: ProgressEvent, t: Target)
    ensures var before := s.run;
            var after := Step(s, Progressed(ev)).state.run;
            Step(s, Progressed(ev)) == Turn(s.(run := after), AwaitEvent)
            && after.targets == before.targets && after.before == before.before && after.results == before.results
            && after.statuses == before.statuses[ev.target := ev.phase]
            && (t != ev.target || ev.message == NoMessage ==>
                  (t in after.messages <==> t in before.messages) && (t in before.messages ==> after.messages[t] == before.messages[t]))
            && (t == ev.target && ev.message != NoMessage ==> t in after.messages && after.messages[t] == ev.message)
            && (t == ev.target && ev.err.Some? ==> t in after.errors && after.errors[t] == ev.err.value)
            && (t != ev.target || ev.err.None? ==>
                  (t in after.errors <==> t in before.errors) && (t in before.errors ==> after.errors[t] == before.errors[t]))
  {
    hide Parse, Render;
  }

  /** What a report without blanks leaves as the state of its target. */
  lemma ReportShown(s: State, ev: ProgressEvent)
    requires ev.message.WaitReport? && NoSpace(ev.message.phase) && NoSpace(ev.message.sync) && NoSpace(ev.message.health)
    ensures var after := Step(s, Progressed(ev)).state.run.after;
            ev.target in after
            && after[ev.target].operationPhase == (if ev.message.phase == "" then "Unknown" else ev.message.phase)
            && after[ev.target].syncStatus == (if ev.message.sync == "" then "Unknown" else ev.message.sync)
            && after[ev.target].healthStatus == (if ev.message.health == "" then "Unknown" else ev.message.health)
  {
    hide Parse, Render;
    RoundTrip(ev.message.phase, ev.message.sync, ev.message.health, ev.message.resources);
  }

  // ---- the filter ----

  /** A key while the filter is edited: esc clears it, enter keeps it, anything else is typed; and the list is then
      exactly the applications whose name contains the text, in any case and without the space around it. */
  lemma FilterMeaning(s: State, key: Key, typed: string)
    requires s.step == SelectApps && s.view.filtering && key != CtrlC && Steady(s)
    ensures var t := Step(s, Press(key, typed)).state;
            t.view.filter == (if key == Esc then "" else if key == Enter then s.view.filter else typed)
            && t.view.filtering == (key != Esc && key != Enter) && t.picks == s.picks && t.step == s.step
            && Step(s, Press(key, typed)).cmd == NoCmd
            && forall a :: a in t.data.appKeys <==>
                 a in s.data.inv && Contains(ToLower(a.name), ToLower(TrimSpace(t.view.filter)))
  {
    hide Scrolled, Matching, Contains, ToLower, TrimSpace, KeysOf;
    var u := s.(view := Typed(s.view, key, typed));
    FilteredExactly(u);
    FilteredFrame(u);
    FilteredView(u);
  }

  lemma FilteredView(s: State)
    ensures Filtered(s).view.filter == s.view.filter && Filtered(s).view.filtering == s.view.filtering
  {
    hide EnsureOffset, Matching, AppsHeight, ResourcesHeight, ClustersHeight;
  }

  lemma FilteredExactly(s: State)
    ensures forall a :: a in Filtered(s).data.appKeys <==>
              a in s.data.appKeysAll && Contains(ToLower(a.name), ToLower(TrimSpace(s.view.filter)))
  {
    hide Scrolled, Matching, Contains, TrimSpace;
    var q := TrimSpace(s.view.filter);
    if q == "" {
      forall a: AppKey ensures Contains(ToLower(a.name), ToLower("")) {
        ContainsNothing(ToLower(a.name));
      }
    } else {
      MatchingExactly(s.data.appKeysAll, ToLower(q));
    }
  }

  lemma ContainsNothing(s: string)
    ensures Contains(s, ToLower(""))
  {
    assert "" <= s[0..];
  }

  // ---- on to the next step ----

  /** Enter in the list of applications leads on with any selection: to the clusters that host a selected
      application, in order, all selected, at the first of them; without one it does nothing. */
  lemma EnterApps(s: State)
    requires Steady(s) && s.step == SelectApps && !s.view.filtering
    ensures var t := Step(s, Press(Enter, "")).state;
            if SelectedAppsOf(s) == [] then t == s
            else
              t.step == SelectClusters && t.cursor == 0 && t.data == s.data && t.plan == s.plan
              && t.picks.appSelected == s.picks.appSelected && SelectedClustersOf(t) == t.picks.clusterNames
              && (forall i, j :: 0 <= i < j < |t.picks.clusterNames| ==> Less(t.picks.clusterNames[i], t.picks.clusterNames[j]))
              && forall c :: c in t.picks.clusterNames <==>
                   exists a :: a in s.data.inv && a in s.picks.appSelected && s.picks.appSelected[a] && c in s.data.inv[a]
  {
    hide Scrolled, Filtered, Chosen, Less, ClustersOf, MarkApps, FirstUnknown, KeysOf;
    SelectedDistinct(s);
    ChosenExactly(s.data.appKeysAll, s.picks.appSelected);
    AllKnown(s.data.inv, SelectedAppsOf(s));
    var cl := ClustersOf(s.data.inv, SelectedAppsOf(s));
    EveryChosenAll(cl);
  }

  lemma {:induction false} AllKnown(inv: Inventory, apps: seq<AppKey>)
    requires forall a :: a in apps ==> a in inv
    ensures FirstUnknown(inv, apps) == None
  {
    if apps != [] {
      assert apps[0] in apps;
      AllKnown(inv, apps[1..]);
    }
  }

  lemma EveryChosenAll(list: seq<string>)
    ensures Chosen(list, map c | c in list :: true) == list
  {
    EveryChosen(list, map c | c in list :: true);
  }

  lemma {:induction false} EveryChosen(list: seq<string>, m: map<string, bool>)
    requires forall c :: c in list ==> Is(m, c)
    ensures Chosen(list, m) == list
  {
    if list != [] {
      assert list[0] in list;
      EveryChosen(list[1..], m);
    }
  }

  /** Enter in the list of clusters: without a selected cluster or application it does nothing; with no selectable
      resource anywhere it leads to the error; otherwise to the resources of the first application that has
      any, with nothing marked. */
  lemma EnterClusters(s: State)
    requires s.step == SelectClusters
    ensures var t := Step(s, Press(Enter, "")).state;
            var clusters := SelectedClustersOf(s);
            if clusters == [] || SelectedAppsOf(s) == [] then t == s
            else if forall a :: a in SelectedAppsOf(s) ==> ResourcesFor(s.data.inv, a, clusters) == [] then
              t == s.(step := Broken, err := Some(NothingSelectable))
            else
              t.step == SelectResources && t.cursor == 0 && t.data == s.data && t.plan == s.plan
              && t.picks == s.picks.(res := t.picks.res) && t.picks.res.idx == 0 && t.picks.res.marks == map[]
              && (forall a :: a in t.picks.res.apps <==> a in SelectedAppsOf(s) && ResourcesFor(s.data.inv, a, clusters) != [])
              && |t.picks.res.apps| > 0 && t.picks.res.list == ResourcesFor(s.data.inv, t.picks.res.apps[0], clusters)
              && t.picks.res.skipped == |SelectedAppsOf(s)| - |t.picks.res.apps|
  {
    hide Scrolled, SelectedAppsOf, SelectedClustersOf, ResourcesFor, WithResources, Aggregated, SetAll, AllChosen;
    WithResourcesExactly(s.data.inv, SelectedAppsOf(s), SelectedClustersOf(s));
    SomeIn(WithResources(s.data.inv, SelectedAppsOf(s), SelectedClustersOf(s)));
  }

  /** Enter in the list of resources: without a marked selectable resource of the application on the screen it does
      nothing; otherwise it leads to the next application, or after the last one to the choice of the action. */
  lemma EnterResources(s: State)
    requires s.step == SelectResources && s.picks.res.idx < |s.picks.res.apps|
    ensures var t := Step(s, Press(Enter, "")).state;
            var res := s.picks.res;
            if res.list == [] || SelectedResourcesOf(s, res.apps[res.idx]) == [] then t == s
            else if res.idx + 1 == |res.apps| then t == s.(cursor := 0, step := SelectAction)
            else
              t.step == SelectResources && t.cursor == 0 && t.picks == s.picks.(res := t.picks.res) && t.data == s.data
              && t.picks.res.apps == res.apps && t.picks.res.idx == res.idx + 1 && t.picks.res.marks == res.marks
              && t.picks.res.list == ResourcesFor(s.data.inv, res.apps[res.idx + 1], SelectedClustersOf(s))
  {
    hide Scrolled, SelectedResourcesOf, SelectedClustersOf, ResourcesFor, Aggregated, MarkResources;
  }

  // ---- leaving, and refreshing ----

  predicate Quits(cmd: Cmd) {
    cmd == Quit || cmd == CancelAndQuit
  }

  /** "ctrl+c" always cancels and quits. "q" and esc quit in every step but the confirmation and a run, unless they
      end or clear a filter; while loading and on the error they cancel as well. In a run they cancel it. Enter
      quits on the error and on the last screen. Nothing else quits or cancels. */
  lemma QuitMeaning(s: State, key: Key, typed: string)
    ensures var cmd := Step(s, Press(key, typed)).cmd;
            var leave := key == Esc || key == Char('q');
            (key == CtrlC ==> cmd == CancelAndQuit)
            && (key != CtrlC ==>
                  (cmd == CancelAndQuit <==> (s.step == Loading && leave) || (s.step == Broken && (leave || key == Enter)))
                  && (cmd == CancelRun <==> s.step == Running && leave)
                  && (cmd == Quit <==>
                        (s.step == SelectApps && leave && !s.view.filtering && s.view.filter == "")
                        || (s.step in {SelectClusters, SelectResources, SelectAction} && leave)
                        || (s.step == Done && (leave || key == Enter))))
  {
    hide Scrolled, Filtered, MoveTo, MarkApps, AppsHeight, ClustersHeight, ResourcesHeight, AppsChosen, ClustersChosen, ResourcesChosen;
    hide SetAll, AllChosen, MarkResources, Planned, RequestOf, StartView, Reset;
    ChoosingDoesNotQuit(s);
  }

  lemma ChoosingDoesNotQuit(s: State)
    ensures !Quits(AppsChosen(s).cmd) && AppsChosen(s).cmd != CancelRun && !Quits(ClustersChosen(s).cmd) && ClustersChosen(s).cmd != CancelRun
    ensures s.picks.res.idx < |s.picks.res.apps| ==> !Quits(ResourcesChosen(s).cmd) && ResourcesChosen(s).cmd != CancelRun
  {
    hide SelectedAppsOf, SelectedClustersOf, FirstUnknown, ClustersOf, WithResources, Opened, SelectedResourcesOf, Scrolled;
  }

  /** What asks for a refresh: "R" or ctrl+r in the list of applications, "r" on the last screen, and the end of a
      run. */
  predicate AsksForRefresh(s: State, m: Msg) {
    (m.Press? && s.step == SelectApps && !s.view.filtering && (m.key == Char('R') || m.key == CtrlR))
    || (m.Press? && s.step == Done && m.key == Char('r'))
    || (m.RunDone? && m.err != Some(OtherRunErr))
  }

  /** A refresh starts exactly if one is asked for and none is under way; and it is under way until it is done. */
  lemma OneRefresh(s: State, m: Msg)
    ensures Step(s, m).cmd == StartRefresh <==> AsksForRefresh(s, m) && !s.refreshing
    ensures !m.RefreshDone? ==> (Step(s, m).state.refreshing <==> s.refreshing || AsksForRefresh(s, m))
    ensures m.RefreshDone? ==> !Step(s, m).state.refreshing
  {
    hide OnKey, OnRefresh, OnLoad, Scrolled, OnProgress, Fresh;
    if m.Press? {
      KeysRefresh(s, m.key, m.typed);
    } else if m.LoadDone? {
      LoadKeepsRefreshing(s, m.load);
    } else if m.RefreshDone? {
      RefreshEnds(s, m.load);
    }
  }

  lemma RefreshEnds(s: State, load: Load)
    ensures !OnRefresh(s, load).refreshing
  {
    hide Filtered, Scrolled, Remaining, RefreshedCursor, Fresh;
    if load.Loaded? {
      FilteredFrame(s.(refreshing := false, data := Fresh(load).(appKeys := s.data.appKeys)));
    }
  }

  lemma LoadKeepsRefreshing(s: State, load: Load)
    ensures OnLoad(s, load).refreshing == s.refreshing
  {
    hide Fresh;
  }

  lemma KeysRefresh(s: State, key: Key, typed: string)
    ensures OnKey(s, key, typed).cmd == StartRefresh <==> AsksForRefresh(s, Press(key, typed)) && !s.refreshing
    ensures OnKey(s, key, typed).state.refreshing <==> s.refreshing || AsksForRefresh(s, Press(key, typed))
  {
    hide Scrolled, Filtered, MoveTo, MarkApps, Typed, AppsHeight, OnClusters, OnResources, OnAction, OnConfirm, AppsChosen, Reset;
    FilteredFrame(s.(view := Typed(s.view, key, typed)));
    FilteredFrame(s.(view := s.view.(filter := "")));
    ListsRefresh(s, key);
    ResetKeepsRefreshing(s);
    AppsChosenRefresh(s);
  }

  lemma ResetKeepsRefreshing(s: State)
    ensures Reset(s).refreshing == s.refreshing
  {
  }

  lemma AppsChosenRefresh(s: State)
    ensures AppsChosen(s).cmd != StartRefresh && AppsChosen(s).state.refreshing == s.refreshing
  {
    hide SelectedAppsOf, FirstUnknown, ClustersOf;
  }

  lemma ListsRefresh(s: State, key: Key)
    ensures OnClusters(s, key).cmd != StartRefresh && OnClusters(s, key).state.refreshing == s.refreshing
    ensures OnResources(s, key).cmd != StartRefresh && OnResources(s, key).state.refreshing == s.refreshing
    ensures OnAction(s, key).cmd != StartRefresh && OnAction(s, key).state.refreshing == s.refreshing
    ensures OnConfirm(s, key).cmd != StartRefresh && OnConfirm(s, key).state.refreshing == s.refreshing
  {
    hide Scrolled, MoveTo, ClustersHeight, SetAll, AllChosen, WithResources, Opened, SelectedAppsOf, SelectedClustersOf;
    hide ResourcesHeight, MarkResources, SelectedResourcesOf, Planned, RequestOf, StartView;
  }

  // ---- the other keys ----

  /** "/" and ctrl+f open the filter, and nothing else does; esc and "q" clear it when it is closed. */
  lemma OpensFilter(s: State, key: Key, typed: string)
    requires s.step == SelectApps && !s.view.filtering && Steady(s)
    ensures var t := Step(s, Press(key, typed)).state;
            (t.view.filtering <==> key == Char('/') || key == CtrlF)
            && ((key == Esc || key == Char('q')) && s.view.filter != "" ==>
                  t.view.filter == "" && t.picks == s.picks && forall a :: a in t.data.appKeys <==> a in s.data.inv)
            && (key != Esc && key != Char('q') ==> t.view.filter == s.view.filter && t.data == s.data)
  {
    hide Scrolled, EnsureOffset, Matching, MoveTo, MarkApps, AppsHeight, AppsChosen, Filtered, KeysOf;
    var u := s.(view := s.view.(filter := ""));
    FilteredFrame(u);
    FilteredView(u);
    FilteredByBlank(u);
    AppsChosenView(s);
    ScrolledFilter(s.(cursor := MoveTo(key, s.cursor, AppsHeight(s), |s.data.appKeys|)));
  }

  lemma FilteredByBlank(s: State)
    requires s.view.filter == ""
    ensures Filtered(s).data.appKeys == s.data.appKeysAll
  {
    hide Scrolled;
  }

  lemma AppsChosenView(s: State)
    ensures var t := AppsChosen(s).state; t.view.filtering == s.view.filtering && t.view.filter == s.view.filter && t.data == s.data
  {
    hide SelectedAppsOf, FirstUnknown, ClustersOf;
  }

  lemma ScrolledFilter(s: State)
    ensures Scrolled(s).filtering == s.view.filtering && Scrolled(s).filter == s.view.filter
  {
    hide EnsureOffset, AppsHeight, ResourcesHeight, ClustersHeight;
  }

  /** After key "a", all of the list is selected if some of it was not, and nothing of it otherwise; nothing else
      changes. */
  ghost predicate AllOrNone<T(!new)>(list: seq<T>, before: map<T, bool>, after: map<T, bool>) {
    forall k :: Is(after, k) <==> if k in list then exists x :: x in list && !Is(before, x) else Is(before, k)
  }

  lemma SetAllMeaning<T(!new)>(list: seq<T>, m: map<T, bool>)
    ensures AllOrNone(list, m, SetAll(list, m, !AllChosen(list, m)))
  {
    hide AllChosen;
    SomeNotChosen(list, m);
  }

  lemma SomeNotChosen<T(!new)>(list: seq<T>, m: map<T, bool>)
    ensures !AllChosen(list, m) <==> exists x :: x in list && !Is(m, x)
  {
    if !AllChosen(list, m) {
      var i :| 0 <= i < |list| && !Is(m, list[i]);
      assert list[i] in list;
    }
  }

  /** Key "a" in the list of applications concerns those that pass the filter. */
  lemma KeyAOnApps(s: State)
    requires s.step == SelectApps && !s.view.filtering
    ensures var t := Step(s, Press(Char('a'), "")).state;
            t == s.(picks := s.picks.(appSelected := t.picks.appSelected))
            && AllOrNone(s.data.appKeys, s.picks.appSelected, t.picks.appSelected)
  {
    hide AppsChosen, Scrolled, Filtered, SetAll, ChooseIf, AllChosen, AllOrNone;
    SetAllMeaning(s.data.appKeys, s.picks.appSelected);
  }

  lemma KeyAOnClusters(s: State)
    requires s.step == SelectClusters
    ensures var t := Step(s, Press(Char('a'), "")).state;
            t == s.(picks := s.picks.(clSelected := t.picks.clSelected))
            && AllOrNone(s.picks.clusterNames, s.picks.clSelected, t.picks.clSelected)
  {
    hide ClustersChosen, Scrolled, SetAll, AllChosen, AllOrNone;
    SetAllMeaning(s.picks.clusterNames, s.picks.clSelected);
  }

  lemma KeyAOnResources(s: State)
    requires s.step == SelectResources && s.picks.res.idx < |s.picks.res.apps|
    ensures var t := Step(s, Press(Char('a'), "")).state;
            var app := s.picks.res.apps[s.picks.res.idx];
            t == s.(picks := s.picks.(res := s.picks.res.(marks := t.picks.res.marks)))
            && AllOrNone(s.picks.res.list, MarksOf(s.picks.res, app), MarksOf(t.picks.res, app))
            && forall a :: a != app ==> MarksOf(t.picks.res, a) == MarksOf(s.picks.res, a)
  {
    hide ResourcesChosen, Scrolled, SetAll, ChooseIf, AllChosen, AllOrNone;
    SetAllMeaning(s.picks.res.list, MarksOf(s.picks.res, s.picks.res.apps[s.picks.res.idx]));
  }

  /** In the choice of the action, the option keys work on a sync only. */
  lemma OptionMeaning(s: State, key: Key)
    requires s.step == SelectAction && key.Char? && key != Char('q')
    ensures Step(s, Press(key, "")).cmd == NoCmd
    ensures var t := Step(s, Press(key, "")).state;
            t == s.(plan := s.plan.(opts := t.plan.opts))
            && (s.plan.actionIdx != 0 ==> t == s)
            && (s.plan.actionIdx == 0 ==>
                  var o, p := s.plan.opts, t.plan.opts;
                  (p.prune != o.prune <==> key == Char('p')) && (p.dryRun != o.dryRun <==> key == Char('d'))
                  && (p.applyOnly != o.applyOnly <==> key == Char('o')) && (p.force != o.force <==> key == Char('f')))
  {
    hide Toggled, RequestOf, StartView;
    OptionKeys(s.plan.opts, key);
  }

  /** The confirmation: "y" starts the run, "n", "q" and esc lead back, in capitals or not; other keys do nothing. */
  lemma ConfirmMeaning(s: State, key: Key)
    requires s.step == Confirm && key != CtrlC
    ensures var t := Step(s, Press(key, ""));
            var yes := key in {Char('y'), Char('Y')};
            var no := key in {Char('n'), Char('N'), Char('q'), Char('Q'), Esc};
            (t.cmd.Launch? <==> yes) && (yes ==> t.state.step == Running)
            && (no ==> t == Turn(s.(step := SelectAction), NoCmd)) && (!yes && !no ==> t == Turn(s, NoCmd))
  {
    hide RequestOf, StartView;
  }

  /** A resize changes the height and the offsets, and leaves the list on the screen scrolled to its cursor. */
  lemma ResizeMeaning(s: State, height: int)
    ensures var t := Step(s, Resize(height)).state;
            t == s.(view := t.view) && t.view.height == height && t.view.filter == s.view.filter
            && t.view.filtering == s.view.filtering
  {
    hide EnsureOffset, AppsHeight, ResourcesHeight, ClustersHeight;
  }

  // ---- scrolling ----

  /** The row of the cursor is on the screen. */
  ghost predicate OnScreen(s: State) {
    && (s.step == SelectApps && s.data.appKeys != [] ==>
          Shows(s.view.appOffset, s.cursor, AppsHeight(s), |s.data.appKeys|))
    && (s.step == SelectClusters && s.picks.clusterNames != [] ==>
          Shows(s.view.clOffset, s.cursor, ClustersHeight(s), |s.picks.clusterNames|))
    && (s.step == SelectResources && s.picks.res.list != [] ==>
          Shows(s.view.resOffset, s.cursor, ResourcesHeight(s), |s.picks.res.list|))
  }

  lemma VisibleOnScreen(s: State)
    requires Safe(s)
    ensures OnScreen(Visible(s))
  {
    hide EnsureOffset, Shows, AppsHeight, ClustersHeight, ResourcesHeight, Scrolled;
    VisibleShowsCursor(s);
  }

  lemma NoRows(s: State)
    ensures s.step == SelectResources && s.picks.res.list == [] ==> OnScreen(s)
  {
  }

  /** A movement key brings the row of the cursor on the screen. */
  lemma MovementScrolls(s: State, key: Key)
    requires Safe(s) && Moves(key) && !s.view.filtering
    requires s.step == SelectApps || s.step == SelectClusters || s.step == SelectResources
    ensures OnScreen(Step(s, Press(key, "")).state)
  {
    hide Scrolled, MoveTo, AppsHeight, ClustersHeight, ResourcesHeight, OnScreen, OnRow;
    if s.step == SelectApps {
      MoveOnRow(key, s.cursor, AppsHeight(s), |s.data.appKeys|);
      VisibleOnScreen(s.(cursor := MoveTo(key, s.cursor, AppsHeight(s), |s.data.appKeys|)));
    } else if s.step == SelectClusters {
      MoveOnRow(key, s.cursor, ClustersHeight(s), |s.picks.clusterNames|);
      VisibleOnScreen(s.(cursor := MoveTo(key, s.cursor, ClustersHeight(s), |s.picks.clusterNames|)));
    } else if s.picks.res.list == [] {
      NoRows(Step(s, Press(key, "")).state);
    } else {
      MoveOnRow(key, s.cursor, ResourcesHeight(s), |s.picks.res.list|);
      VisibleOnScreen(s.(cursor := MoveTo(key, s.cursor, ResourcesHeight(s), |s.picks.res.list|)));
    }
  }

  /** So does a resize; */
  lemma ResizeScrolls(s: State, height: int)
    requires Safe(s)
    ensures OnScreen(Step(s, Resize(height)).state)
  {
    hide Scrolled, OnScreen, OnRow;
    VisibleOnScreen(s.(view := s.view.(height := height, appOffset := Clamp(s.view.appOffset, 0, Max(0, |s.data.appKeys| - 1)),
                                       clOffset := Clamp(s.view.clOffset, 0, Max(0, |s.picks.clusterNames| - 1)))));
  }

  /** a refresh that lands safely; */
  lemma RefreshScrolls(s: State, load: Load)
    requires Safe(s) && load.Loaded? && LandsSafely(s, RefreshDone(load))
    ensures OnScreen(Step(s, RefreshDone(load)).state)
  {
    hide Filtered, Scrolled, Remaining, Fresh, OnScreen, RefreshedCursor;
    OnRefreshSafe(s, load);
    var t := OnRefresh(s, load);
    var r := Reloaded(s, load);
    var u := r.(picks := r.picks.(appSelected := Remaining(r.picks.appSelected, load.inv)), cursor := RefreshedCursor(s, load));
    assert t == Visible(u);
    VisibleOnScreen(u);
  }

  /** and a key while the filter is edited. */
  lemma FilterScrolls(s: State, key: Key, typed: string)
    requires Safe(s) && s.step == SelectApps && s.view.filtering && key != CtrlC
    ensures OnScreen(Step(s, Press(key, typed)).state)
  {
    hide Scrolled, OnScreen, Matching, TrimSpace, ToLower;
    var u := s.(view := Typed(s.view, key, typed));
    var q := TrimSpace(u.view.filter);
    if q == "" {
      VisibleOnScreen(u.(data := u.data.(appKeys := u.data.appKeysAll), cursor := Clamp(u.cursor, 0, Max(0, |u.data.appKeysAll| - 1))));
    } else {
      VisibleOnScreen(u.(data := u.data.(appKeys := Matching(u.data.appKeysAll, ToLower(q))), cursor := 0,
                         view := u.view.(appOffset := 0)));
    }
  }
}
