/** What the keys and refreshes of the wizard mean for the person at the keyboard. */
module WizardKeys {
  import opened GoStrings
  import opened Models
  import opened Ordering
  import opened Resources
  import opened Discovery
  import opened Viewport
  import opened Wizard
  import opened WizardSafety
  import opened WizardSelection

  /** The filtered list holds exactly the applications whose name contains the query, in their order. */
  lemma {:induction false} MatchingExactly(keys: seq<AppKey>, query: string)
    ensures forall k :: k in Matching(keys, query) <==> k in keys && Contains(ToLower(k.name), query)
    ensures Ascending(keys, NameLess) ==> Ascending(Matching(keys, query), NameLess)
  {
    hide Contains, ToLower, NameLess;
    if keys != [] {
      MatchingExactly(keys[1..], query);
      if Ascending(keys, NameLess) {
        assert Ascending(keys[1..], NameLess);
        HeadBelow(keys, NameLess);
        ConsAscends(keys[0], Matching(keys[1..], query), NameLess);
      }
    }
  }

  lemma HeadBelow<T>(s: seq<T>, less: (T, T) -> bool)
    requires s != [] && Ascending(s, less)
    ensures Ascending(s[1..], less) && forall y :: y in s[1..] ==> less(s[0], y)
  {
  }

  lemma ConsAscends<T>(x: T, tail: seq<T>, less: (T, T) -> bool)
    requires Ascending(tail, less) && forall y :: y in tail ==> less(x, y)
    ensures Ascending([x] + tail, less)
  {
  }

  /** Selections come in the order of the list they were made in. */
  lemma {:induction false} ChosenAscends<T>(list: seq<T>, m: map<T, bool>, less: (T, T) -> bool)
    requires Ascending(list, less)
    ensures Ascending(Chosen(list, m), less) && forall x :: x in Chosen(list, m) ==> x in list
  {
    if list != [] {
      HeadBelow(list, less);
      ChosenAscends(list[1..], m, less);
      ConsAscends(list[0], Chosen(list[1..], m), less);
    }
  }

  /** Key `a`: if everything on the list was selected nothing is, otherwise everything is; the rest stays;
      and the key pressed twice more changes nothing. */
  lemma ToggleAllMeaning<T>(list: seq<T>, m: map<T, bool>)
    ensures var out := SetAll(list, m, !AllChosen(list, m));
            (forall x :: Is(out, x) <==> if x in list then !AllChosen(list, m) else Is(m, x))
            && (list != [] ==>
                  (AllChosen(list, out) <==> !AllChosen(list, m))
                  && SetAll(list, SetAll(list, out, !AllChosen(list, out)), AllChosen(list, out)) == out)
  {
    hide AllChosen;
    var out := SetAll(list, m, !AllChosen(list, m));
    if list != [] {
      AllChosenMeans(list, out);
    }
  }

  lemma AllChosenMeans<T>(list: seq<T>, m: map<T, bool>)
    requires list != []
    ensures (forall x :: x in list ==> Is(m, x)) ==> AllChosen(list, m)
    ensures (forall x :: x in list ==> !Is(m, x)) ==> !AllChosen(list, m)
  {
    assert list[0] in list;
  }

  /** Key `n` in the list of resources adds to the marks of the application on the screen exactly the
      resources that are not known to be synced in some chosen cluster that hosts it. */
  lemma NewlyMarked(s: State, r: SyncResource)
    requires Picked(s) && s.step == SelectResources
    ensures s.picks.res.idx < |s.picks.res.apps|
    ensures var t := Step(s, Press(Char('n'), "")).state;
            var app := s.picks.res.apps[s.picks.res.idx];
            Is(MarksOf(t.picks.res, app), r) <==>
              Is(MarksOf(s.picks.res, app), r)
              || (r in s.picks.res.list
                  && app in s.data.inv
                  && exists c :: c in s.data.inv[app] && (SelectedClustersOf(s) == [] || c in SelectedClustersOf(s))
                                 && c !in Reporting(s.data.inv, app, SelectedClustersOf(s), r, "Synced"))
  {
    hide SelectedClustersOf, SelectedAppsOf, ResourcesFor, NotAllSynced, Reporting, AggOf, MarkedIn, WithResources, ResourcesChosen, Scrolled;
    var app := s.picks.res.apps[s.picks.res.idx];
    MarksByN(s, r);
    if r in s.picks.res.list {
      ListedResource(s.data.inv, app, SelectedClustersOf(s), r);
      SelectsUnsynced(s.data.inv, app, SelectedClustersOf(s), r);
    }
  }

  lemma MarksByN(s: State, r: SyncResource)
    requires s.step == SelectResources && s.picks.res.idx < |s.picks.res.apps|
    ensures var t := Step(s, Press(Char('n'), "")).state;
            var app := s.picks.res.apps[s.picks.res.idx];
            Is(MarksOf(t.picks.res, app), r) <==>
              Is(MarksOf(s.picks.res, app), r) || (r in s.picks.res.list && NotAllSynced(AggFor(s.picks.res.agg, r)))
  {
    hide NotAllSynced, AggFor, ResourcesChosen, Scrolled, SetAll, AllChosen;
  }

  lemma ListedResource(inv: Inventory, app: AppKey, clusters: seq<string>, r: SyncResource)
    requires r in ResourcesFor(inv, app, clusters)
    ensures app in inv && Scope(inv, app, clusters) != {}
    ensures AggFor(Aggregated(inv, app, clusters, ResourcesFor(inv, app, clusters)), r) == AggOf(inv, app, clusters, r)
  {
    hide AggOf, NamedIn;
    assert r in Elements(ResourcesFor(inv, app, clusters));
    assert r in Selectable(inv, app, clusters);
  }

  /** Key `n` in the list of applications adds exactly those on the list that some hosting cluster does
      not report as synced. */
  lemma NewlySelected(s: State, k: AppKey)
    requires s.step == SelectApps && !s.view.filtering
    ensures var t := Step(s, Press(Char('n'), "")).state;
            Is(t.picks.appSelected, k) <==>
              Is(s.picks.appSelected, k)
              || (k in s.data.appKeys
                  && (k !in s.data.inv || s.data.inv[k] == map[]
                      || exists c :: c in s.data.inv[k] && TrimSpace(s.data.inv[k][c].syncStatus) != "Synced"))
  {
    hide AppsChosen, Scrolled, SetAll, AllChosen, Filtered, TrimSpace;
    var t := Step(s, Press(Char('n'), "")).state;
    assert t.picks.appSelected == ChooseIf(s.data.appKeys, s.picks.appSelected, k => !FullySynced(s.data.inv, k));
  }

  /** Each option key flips its own option and no other, except that one pre-refresh clears the other. */
  lemma OptionKeys(o: RunOptions, key: Key)
    ensures var r := Toggled(o, key);
            r == o.(preRefresh := r.preRefresh, preHardRefresh := r.preHardRefresh, prune := r.prune, dryRun := r.dryRun,
                    applyOnly := r.applyOnly, force := r.force)
            && (r.prune != o.prune <==> key == Char('p')) && (r.dryRun != o.dryRun <==> key == Char('d'))
            && (r.applyOnly != o.applyOnly <==> key == Char('o')) && (r.force != o.force <==> key == Char('f'))
            && (r.preRefresh != o.preRefresh <==> key == Char('r') || (key == Char('h') && !o.preHardRefresh && o.preRefresh))
            && (r.preHardRefresh != o.preHardRefresh <==> key == Char('h') || (key == Char('r') && !o.preRefresh && o.preHardRefresh))
  {
    hide ToggledFlag, ToggledRefresh;
    FlagKeys(o, key);
    OnlyFlags(o, key);
    RefreshKeys(o, key == Char('h'));
  }

  lemma FlagKeys(o: RunOptions, key: Key)
    ensures var r := ToggledFlag(o, key);
            (r.prune != o.prune <==> key == Char('p')) && (r.dryRun != o.dryRun <==> key == Char('d'))
            && (r.applyOnly != o.applyOnly <==> key == Char('o')) && (r.force != o.force <==> key == Char('f'))
  {
  }

  lemma OnlyFlags(o: RunOptions, key: Key)
    ensures var r := ToggledFlag(o, key);
            r == o.(prune := r.prune, dryRun := r.dryRun, applyOnly := r.applyOnly, force := r.force)
  {
  }

  lemma RefreshKeys(o: RunOptions, hard: bool)
    ensures var r := ToggledRefresh(o, hard);
            r == o.(preRefresh := r.preRefresh, preHardRefresh := r.preHardRefresh)
            && (r.preRefresh != o.preRefresh <==> !hard || (!o.preHardRefresh && o.preRefresh))
            && (r.preHardRefresh != o.preHardRefresh <==> hard || (!o.preRefresh && o.preHardRefresh))
  {
  }

  // ---- refreshes ----

  /** A refresh keeps the cursor on its application if that is still listed. */
  lemma RefreshKeepsPlace(s: State, load: Load)
    requires load.Loaded? && 0 <= s.cursor < |s.data.appKeys|
    ensures var t := OnRefresh(s, load);
            var k := s.data.appKeys[s.cursor];
            k in t.data.appKeys ==> 0 <= t.cursor < |t.data.appKeys| && t.data.appKeys[t.cursor] == k
  {
    hide Filtered, Scrolled, Remaining, Fresh;
  }

  /** A refresh keeps exactly the selected applications that the new inventory has. */
  lemma RefreshKeepsSelection(s: State, load: Load, a: AppKey)
    requires Steady(s) && load.Loaded?
    ensures a in SelectedAppsOf(OnRefresh(s, load)) <==> a in load.inv && Is(s.picks.appSelected, a)
    ensures a in SelectedAppsOf(s) <==> a in s.data.inv && Is(s.picks.appSelected, a)
  {
    hide KeysOf, OnRefresh, Chosen;
    RefreshFrame(s, load);
    var t := OnRefresh(s, load);
    ChosenExactly(t.data.appKeysAll, t.picks.appSelected);
    ChosenExactly(s.data.appKeysAll, s.picks.appSelected);
  }

  // ---- scrolling ----

  /** After scrolling, the row of the cursor is on the screen of each list. */
  lemma VisibleShowsCursor(s: State)
    requires Safe(s)
    ensures var t := Visible(s);
            (s.step == SelectApps && s.data.appKeys != [] ==>
               Shows(t.view.appOffset, t.cursor, AppsHeight(t), |t.data.appKeys|))
            && (s.step == SelectClusters && s.picks.clusterNames != [] ==>
                  Shows(t.view.clOffset, t.cursor, ClustersHeight(t), |t.picks.clusterNames|))
            && (s.step == SelectResources && s.picks.res.list != [] ==>
                  Shows(t.view.resOffset, t.cursor, ResourcesHeight(t), |t.picks.res.list|))
  {
    hide EnsureOffset, Shows, WarningHeight, DetailsHeight;
  }

  /** The warnings take no line without an error, and otherwise two lines around at most four; the details take
      none unless a cluster hosts the application under the cursor. */
  lemma BlockHeights(loadErrs: map<string, Err>, data: Catalog, cursor: int)
    ensures WarningHeight(loadErrs) == if loadErrs == map[] then 0 else 2 + Min(|loadErrs|, 4)
    ensures DetailsHeight(data, cursor) == 0
       <==> !(0 <= cursor < |data.appKeys|) || forall c :: !(data.appKeys[cursor] in data.inv && c in data.inv[data.appKeys[cursor]])
    ensures 0 <= DetailsHeight(data, cursor) <= 10
  {
    if 0 <= cursor < |data.appKeys| && data.appKeys[cursor] in data.inv {
      var m := data.inv[data.appKeys[cursor]];
      if m != map[] {
        var c :| c in m;
        assert |m| > 0;
      }
    }
  }

  /** The lines of the application step besides its list: header, warnings, details, footer and a spare one. */
  function AppsFrame(s: State): int {
    (if s.view.filtering || s.view.filter != "" then 5 else 4) + WarningHeight(s.data.loadErrs) + DetailsHeight(s.data, s.cursor) + 2
  }

  /** A list of `total` rows, scrolled to its cursor, in a terminal with `frame` lines used otherwise: the
      cursor is drawn, and as many rows as there is room for, but at least five. */
  predicate Fits(offset: int, height: int, total: nat, cursor: int, frame: int, terminal: int) {
    var (start, end) := VisibleRange(offset, height, total);
    0 <= start <= cursor < end <= total
    && (terminal > 0 ==> end - start == Min(total, Max(5, terminal - frame)))
  }

  lemma ListFits(offset: int, height: int, total: nat, cursor: int, frame: int, terminal: int)
    requires Shows(offset, cursor, height, total) && cursor < total && height > 0
    requires terminal > 0 ==> height == Max(5, terminal - frame)
    ensures Fits(offset, height, total, cursor, frame, terminal)
  {
  }

  /** Each list, when it has just been scrolled, draws its cursor and fits the terminal exactly: with the lines
      of the rest of its step it fills the terminal if it has enough rows, and never runs over it unless
      there is no room for five rows. */
  lemma ScreenFits(s: State)
    requires Safe(s)
    ensures var t := Visible(s);
            (s.step == SelectApps && s.data.appKeys != [] ==>
               Fits(t.view.appOffset, AppsHeight(t), |t.data.appKeys|, t.cursor, AppsFrame(t), t.view.height))
            && (s.step == SelectClusters && s.picks.clusterNames != [] ==>
                  Fits(t.view.clOffset, ClustersHeight(t), |t.picks.clusterNames|, t.cursor, 5, t.view.height))
            && (s.step == SelectResources && s.picks.res.list != [] ==>
                  Fits(t.view.resOffset, ResourcesHeight(t), |t.picks.res.list|, t.cursor, 7, t.view.height))
  {
    hide EnsureOffset, Shows, WarningHeight, DetailsHeight, Fits;
    VisibleShowsCursor(s);
    var t := Visible(s);
    if s.step == SelectApps && s.data.appKeys != [] {
      ListFits(t.view.appOffset, AppsHeight(t), |t.data.appKeys|, t.cursor, AppsFrame(t), t.view.height);
    } else if s.step == SelectClusters && s.picks.clusterNames != [] {
      ListFits(t.view.clOffset, ClustersHeight(t), |t.picks.clusterNames|, t.cursor, 5, t.view.height);
    } else if s.step == SelectResources && s.picks.res.list != [] {
      ListFits(t.view.resOffset, ResourcesHeight(t), |t.picks.res.list|, t.cursor, 7, t.view.height);
    }
  }
}
