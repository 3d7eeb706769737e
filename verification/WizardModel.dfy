/** The model object of the terminal interface and the methods that change it
    (internal/tui/tui.go:60-110, 229-906, 964-1005, 1517-1627). Each one does what `Wizard` says. */
module WizardModel {
  import opened GoStrings
  import opened Models
  import opened Ordering
  import opened Resources
  import opened Discovery
  import opened Targets
  import opened Viewport
  import opened WaitMessage
  import opened Wizard
  import opened WizardSafety

  // ---- loops over selections ----

  lemma {:induction false} ChosenSnoc<T>(list: seq<T>, x: T, m: map<T, bool>)
    ensures Chosen(list + [x], m) == Chosen(list, m) + (if Is(m, x) then [x] else [])
  {
    if list != [] {
      ChosenSnoc(list[1..], x, m);
      assert (list + [x])[1..] == list[1..] + [x];
    }
  }

  /** The chosen elements, in the order of the list. */
  method Choose<T(==)>(list: seq<T>, m: map<T, bool>) returns (out: seq<T>)
    ensures out == Chosen(list, m)
  {
    out := [];
    for i := 0 to |list|
      invariant out == Chosen(list[..i], m)
    {
      ChosenSnoc(list[..i], list[i], m);
      assert list[..i + 1] == list[..i] + [list[i]];
      if Is(m, list[i]) {
        out := out + [list[i]];
      }
    }
    assert list[..|list|] == list;
  }

  method EveryChosen<T(==)>(list: seq<T>, m: map<T, bool>) returns (all: bool)
    ensures all == AllChosen(list, m)
  {
    all := true;
    for i := 0 to |list|
      invariant AllChosen(list[..i], m)
    {
      if !Is(m, list[i]) {
        return false;
      }
    }
    assert list[..|list|] == list;
  }

  /** Key `a`: selects everything on the list, or nothing if everything was selected. */
  method ToggleAll<T(==)>(list: seq<T>, m: map<T, bool>) returns (out: map<T, bool>)
    ensures out == SetAll(list, m, !AllChosen(list, m))
  {
    hide AllChosen, SetAll;
    var all := EveryChosen(list, m);
    out := m;
    NoneToSet(m, !all);
    for j := 0 to |list|
      invariant out == SetAll(list[..j], m, !all)
    {
      SetAllSnoc(list[..j], list[j], m, !all);
      assert list[..j + 1] == list[..j] + [list[j]];
      out := out[list[j] := !all];
    }
    assert list[..|list|] == list;
  }

  lemma SetAllSnoc<T>(list: seq<T>, x: T, m: map<T, bool>, v: bool)
    ensures SetAll(list + [x], m, v) == SetAll(list, m, v)[x := v]
  {
  }

  lemma NoneToSet<T>(m: map<T, bool>, v: bool)
    ensures SetAll([], m, v) == m
  {
  }

  lemma ChooseIfSnoc<T(!new)>(list: seq<T>, x: T, m: map<T, bool>, p: T -> bool)
    ensures ChooseIf(list + [x], m, p) == if p(x) then ChooseIf(list, m, p)[x := true] else ChooseIf(list, m, p)
  {
  }

  /** Key `n` in the list of resources. */
  method MarkUnsynced(list: seq<SyncResource>, agg: map<SyncResource, Agg>, m: map<SyncResource, bool>)
    returns (out: map<SyncResource, bool>)
    ensures out == ChooseIf(list, m, r => NotAllSynced(AggFor(agg, r)))
  {
    hide NotAllSynced, AggFor, ChooseIf;
    ghost var p := r => NotAllSynced(AggFor(agg, r));
    out := m;
    NoneToChoose(m, p);
    for i := 0 to |list|
      invariant out == ChooseIf(list[..i], m, p)
    {
      ChooseIfSnoc(list[..i], list[i], m, p);
      assert list[..i + 1] == list[..i] + [list[i]];
      if NotAllSynced(AggFor(agg, list[i])) {
        out := out[list[i] := true];
      }
    }
    assert list[..|list|] == list;
  }

  lemma NoneToChoose<T(!new)>(m: map<T, bool>, p: T -> bool)
    ensures ChooseIf([], m, p) == m
  {
  }

  /** Key `n` in the list of applications. */
  method SelectUnsynced(keys: seq<AppKey>, inv: Inventory, m: map<AppKey, bool>) returns (out: map<AppKey, bool>)
    ensures out == ChooseIf(keys, m, k => !FullySynced(inv, k))
  {
    hide FullySynced, ChooseIf;
    ghost var p := k => !FullySynced(inv, k);
    out := m;
    NoneToChoose(m, p);
    for i := 0 to |keys|
      invariant out == ChooseIf(keys[..i], m, p)
    {
      ChooseIfSnoc(keys[..i], keys[i], m, p);
      assert keys[..i + 1] == keys[..i] + [keys[i]];
      if !FullySynced(inv, keys[i]) {
        out := out[keys[i] := true];
      }
    }
    assert keys[..|keys|] == keys;
  }

  method IndexOfAppKey(keys: seq<AppKey>, k: AppKey) returns (i: int)
    ensures i == IndexOf(keys, k)
  {
    for j := 0 to |keys|
      invariant k !in keys[..j]
    {
      if keys[j] == k {
        return j;
      }
    }
    assert keys[..|keys|] == keys;
    return -1;
  }

  lemma {:induction false} MatchingSnoc(keys: seq<AppKey>, k: AppKey, query: string)
    ensures Matching(keys + [k], query) == Matching(keys, query) + (if Contains(ToLower(k.name), query) then [k] else [])
  {
    hide Contains, ToLower;
    if keys != [] {
      MatchingSnoc(keys[1..], k, query);
      assert (keys + [k])[1..] == keys[1..] + [k];
    }
  }

  method FilterKeys(keys: seq<AppKey>, query: string) returns (out: seq<AppKey>)
    ensures out == Matching(keys, query)
  {
    hide Contains, ToLower;
    out := [];
    for i := 0 to |keys|
      invariant out == Matching(keys[..i], query)
    {
      MatchingSnoc(keys[..i], keys[i], query);
      assert keys[..i + 1] == keys[..i] + [keys[i]];
      if Contains(ToLower(keys[i].name), query) {
        out := out + [keys[i]];
      }
    }
    assert keys[..|keys|] == keys;
  }

  method ClustersByContext(clusters: seq<Cluster>) returns (m: map<string, Cluster>)
    ensures m == ClusterMap(clusters)
  {
    m := map[];
    for i := 0 to |clusters|
      invariant m == ClusterMap(clusters[..i])
    {
      assert clusters[..i + 1][..i] == clusters[..i];
      m := m[clusters[i].contextName := clusters[i]];
    }
    assert clusters[..|clusters|] == clusters;
  }

  /** Deletes the selections of applications that are not in the inventory. */
  method DropVanished(marks: map<AppKey, bool>, inv: Inventory) returns (out: map<AppKey, bool>)
    ensures out == Remaining(marks, inv)
  {
    out := marks;
    var left := marks.Keys;
    while left != {}
      invariant left <= marks.Keys
      invariant out == map k | k in marks && (k in left || k in inv) :: marks[k]
      decreases |left|
    {
      var k :| k in left;
      left := left - {k};
      if k !in inv {
        out := out - {k};
      }
    }
  }

  lemma {:induction false} WithResourcesSnoc(inv: Inventory, apps: seq<AppKey>, a: AppKey, clusters: seq<string>)
    ensures WithResources(inv, apps + [a], clusters)
         == WithResources(inv, apps, clusters) + (if ResourcesFor(inv, a, clusters) != [] then [a] else [])
  {
    hide ResourcesFor;
    if apps != [] {
      WithResourcesSnoc(inv, apps[1..], a, clusters);
      assert (apps + [a])[1..] == apps[1..] + [a];
    }
  }

  /** The applications with something to select, and the number of the others. */
  method SplitByResources(inv: Inventory, apps: seq<AppKey>, clusters: seq<string>) returns (kept: seq<AppKey>, skipped: nat)
    ensures kept == WithResources(inv, apps, clusters) && skipped == |apps| - |kept|
  {
    hide ResourcesFor;
    kept, skipped := [], 0;
    for i := 0 to |apps|
      invariant kept == WithResources(inv, apps[..i], clusters) && skipped == i - |kept|
    {
      WithResourcesSnoc(inv, apps[..i], apps[i], clusters);
      assert apps[..i + 1] == apps[..i] + [apps[i]];
      var list := ResourcesForAppInClusters(inv, apps[i], clusters);
      if list == [] {
        skipped := skipped + 1;
      } else {
        kept := kept + [apps[i]];
      }
    }
    assert apps[..|apps|] == apps;
  }

  lemma PendingSnoc(targets: seq<Target>, t: Target)
    ensures PendingOf(targets + [t]) == PendingOf(targets)[t := TaskPending]
  {
    assert forall x :: x in targets + [t] <==> x in targets || x == t;
  }

  lemma BeforeSnoc(inv: Inventory, targets: seq<Target>, t: Target)
    ensures BeforeOf(inv, targets + [t])
         == if t.app in inv && t.clusterContext in inv[t.app] then BeforeOf(inv, targets)[t := inv[t.app][t.clusterContext]]
            else BeforeOf(inv, targets)
  {
    assert forall x :: x in targets + [t] <==> x in targets || x == t;
  }

  lemma NoTargets(inv: Inventory)
    ensures PendingOf([]) == map[] && BeforeOf(inv, []) == map[]
  {
  }

  method FirstStatuses(inv: Inventory, targets: seq<Target>)
    returns (statuses: map<Target, TaskStatus>, before: map<Target, Application>)
    ensures statuses == PendingOf(targets) && before == BeforeOf(inv, targets)
  {
    hide PendingOf, BeforeOf;
    statuses, before := map[], map[];
    NoTargets(inv);
    for i := 0 to |targets|
      invariant statuses == PendingOf(targets[..i]) && before == BeforeOf(inv, targets[..i])
    {
      var t := targets[i];
      PendingSnoc(targets[..i], t);
      BeforeSnoc(inv, targets[..i], t);
      assert targets[..i + 1] == targets[..i] + [t];
      statuses := statuses[t := TaskPending];
      if t.app in inv && t.clusterContext in inv[t.app] {
        before := before[t := inv[t.app][t.clusterContext]];
      }
    }
    assert targets[..|targets|] == targets;
  }

  // ---- the object ----

  /** The fields of the original are grouped into the records of `Wizard.State`. */
  class Model {
    const cli: Cli
    var step: Stage
    var err: Option<Trouble>
    var refreshing: bool
    var cursor: int
    var view: View
    var data: Catalog
    var picks: Picks
    var plan: Plan
    var run: RunView

    /** The state of `Wizard` that the fields stand for. */
    ghost function Snapshot(): State
      reads this
    {
      State(cli, step, err, refreshing, cursor, view, data, picks, plan, run)
    }

    /** Every index into the lists on the screen is in bounds. */
    ghost predicate Valid()
      reads this
    {
      Safe(Snapshot())
    }

    constructor (cli: Cli)
      ensures Snapshot() == Initial(cli) && Valid()
    {
      this.cli := cli;
      step, err, refreshing, cursor := Loading, None, false, 0;
      view := View(0, 0, 0, 0, false, "");
      data := Catalog(map[], map[], map[], [], []);
      picks := Picks(map[], [], map[], ResourcePicks([], 0, [], map[], map[], 0));
      plan := Plan(0, ActionSync, Defaults(cli));
      run := RunView([], map[], map[], map[], map[], map[], []);
    }

    // ---- heights and scrolling ----

    function WarningBlockHeight(): (h: int)
      reads this`data
      ensures h == WarningHeight(data.loadErrs)
    {
      if |data.loadErrs| == 0 then 0
      else
        var show := Min(3, |data.loadErrs|);
        1 + show + (if |data.loadErrs| > show then 1 else 0) + 1
    }

    function DetailsBlockHeight(): (h: int)
      reads this`data, this`cursor
      ensures h == DetailsHeight(data, cursor)
    {
      if cursor < 0 || cursor >= |data.appKeys| then 0
      else
        var k := data.appKeys[cursor];
        var n := if k in data.inv then |data.inv[k]| else 0;
        if n == 0 then 0 else 1 + 1 + Min(n, 8)
    }

    function AppsListHeight(): (h: int)
      reads this
      ensures h == AppsHeight(Snapshot()) && h >= 5
    {
      if view.height <= 0 then 20
      else
        var header := 4 + (if view.filtering || view.filter != "" then 1 else 0);
        var footer := 1;
        Max(5, view.height - header - WarningBlockHeight() - DetailsBlockHeight() - footer - 1)
    }

    function ResourcesListHeight(): (h: int)
      reads this
      ensures h == ResourcesHeight(Snapshot()) && h >= 5
    {
      if view.height <= 0 then 20 else Max(5, view.height - 5 - 1 - 1)
    }

    function ClustersListHeight(): (h: int)
      reads this
      ensures h == ClustersHeight(Snapshot()) && h >= 5
    {
      if view.height <= 0 then 20 else Max(5, view.height - 3 - 1 - 1)
    }

    method EnsureVisible()
      modifies this`view
      ensures Snapshot() == Visible(old(Snapshot()))
    {
      hide EnsureOffset, AppsHeight, ResourcesHeight, ClustersHeight;
      match step
      case SelectApps =>
        view := view.(appOffset := EnsureOffset(view.appOffset, cursor, AppsListHeight(), |data.appKeys|));
      case SelectResources =>
        view := view.(resOffset := EnsureOffset(view.resOffset, cursor, ResourcesListHeight(), |picks.res.list|));
      case SelectClusters =>
        view := view.(clOffset := EnsureOffset(view.clOffset, cursor, ClustersListHeight(), |picks.clusterNames|));
      case _ =>
    }

    method ApplyAppFilter()
      modifies this`data, this`cursor, this`view
      ensures Snapshot() == Filtered(old(Snapshot()))
    {
      hide Scrolled, Matching;
      var q := TrimSpace(view.filter);
      if q == "" {
        data := data.(appKeys := data.appKeysAll);
        cursor := Clamp(cursor, 0, Max(0, |data.appKeys| - 1));
        EnsureVisible();
        return;
      }
      var out := FilterKeys(data.appKeysAll, ToLower(q));
      data := data.(appKeys := out);
      cursor := 0;
      view := view.(appOffset := 0);
      EnsureVisible();
    }

    /** The movement keys of a list. */
    method MoveCursor(key: Key, h: int, total: nat)
      modifies this`cursor, this`view
      ensures Snapshot() == Moved(old(Snapshot()), key, h, total)
    {
      hide Scrolled;
      var page := if h <= 0 then 10 else h;
      match key {
        case Up =>
          if cursor > 0 { cursor := cursor - 1; }
        case Down =>
          if cursor < total - 1 { cursor := cursor + 1; }
        case PgUp =>
          cursor := cursor - page;
          if cursor < 0 { cursor := 0; }
        case PgDown =>
          cursor := cursor + page;
          if cursor > total - 1 { cursor := total - 1; }
        case _ =>
      }
      EnsureVisible();
    }

    // ---- selections ----

    method SelectedApps() returns (out: seq<AppKey>)
      ensures out == SelectedAppsOf(Snapshot())
    {
      out := Choose(data.appKeysAll, picks.appSelected);
    }

    method SelectedClusters() returns (out: seq<string>)
      ensures out == SelectedClustersOf(Snapshot())
    {
      out := Choose(picks.clusterNames, picks.clSelected);
    }

    method SelectedResourcesFor(app: AppKey) returns (out: seq<SyncResource>)
      ensures out == SelectedResourcesOf(Snapshot(), app)
    {
      hide ResourcesFor, SelectedClustersOf;
      var mm := if app in picks.res.marks then picks.res.marks[app] else map[];
      var clusters := SelectedClusters();
      if mm == map[] {
        NoneChosen(ResourcesFor(data.inv, app, clusters));
        return [];
      }
      var list := ResourcesForAppInClusters(data.inv, app, clusters);
      out := Choose(list, mm);
    }

    method SelectedResourcesByApp() returns (out: map<AppKey, seq<SyncResource>>)
      ensures out == map a | a in SelectedAppsOf(Snapshot()) :: SelectedResourcesOf(Snapshot(), a)
    {
      hide SelectedResourcesOf, SelectedAppsOf;
      out := map[];
      var apps := SelectedApps();
      for i := 0 to |apps|
        invariant out == map a | a in apps[..i] :: SelectedResourcesOf(Snapshot(), a)
      {
        assert apps[..i + 1] == apps[..i] + [apps[i]];
        var list := SelectedResourcesFor(apps[i]);
        out := out[apps[i] := list];
      }
      assert apps[..|apps|] == apps;
    }

    // ---- the application list ----

    method OnFilter(key: Key, typed: string)
      modifies this`data, this`cursor, this`view
      ensures Snapshot() == Filtered(old(Snapshot()).(view := Typed(old(view), key, typed)))
    {
      hide Filtered;
      if key == Esc {
        view := view.(filtering := false);
        view := view.(filter := "");
      } else if key == Enter {
        view := view.(filtering := false);
      } else {
        view := view.(filter := typed);
      }
      ApplyAppFilter();
    }

    method MarkInApps(key: Key)
      requires key == Char(' ') ==> 0 <= cursor < |data.appKeys|
      modifies this`picks
      ensures picks == old(picks).(appSelected := MarkApps(data, old(picks).appSelected, key, cursor))
    {
      hide SetAll, ChooseIf, AllChosen;
      var marks := picks.appSelected;
      if key == Char(' ') {
        var k := data.appKeys[cursor];
        marks := marks[k := !Is(marks, k)];
      } else if key == Char('a') {
        marks := ToggleAll(data.appKeys, marks);
      } else {
        marks := SelectUnsynced(data.appKeys, data.inv, marks);
      }
      picks := picks.(appSelected := marks);
    }

    method EnterApps()
      modifies this`step, this`err, this`cursor, this`view, this`picks
      ensures Turn(Snapshot(), NoCmd) == AppsChosen(old(Snapshot()))
    {
      hide SelectedAppsOf, ClustersOf, FirstUnknown;
      var apps := SelectedApps();
      if apps == [] {
        return;
      }
      var cl, unknown := ClustersForApps(data.inv, apps);
      FirstUnknownIs(data.inv, apps, unknown);
      picks := picks.(res := picks.res.(apps := apps, idx := 0));
      if unknown.Some? {
        step := Broken;
        err := Some(AppUnknown(unknown.value));
        return;
      }
      picks := picks.(clusterNames := cl, clSelected := map c | c in cl :: true);
      cursor := 0;
      view := view.(clOffset := 0);
      step := SelectClusters;
    }

    method StartRefreshing() returns (cmd: Cmd)
      modifies this`refreshing
      ensures Turn(Snapshot(), cmd) == Refreshing(old(Snapshot()))
    {
      cmd := NoCmd;
      if !refreshing {
        refreshing := true;
        cmd := StartRefresh;
      }
    }

    method OnKeySelectApps(key: Key, typed: string) returns (cmd: Cmd)
      modifies this
      ensures Turn(Snapshot(), cmd) == OnApps(old(Snapshot()), key, typed)
    {
      hide Filtered, Moved, MarkApps, AppsChosen, Typed, AppsHeight;
      cmd := NoCmd;
      if view.filtering {
        OnFilter(key, typed);
      } else if Leaves(key) {
        if view.filter != "" {
          view := view.(filter := "");
          ApplyAppFilter();
        } else {
          cmd := Quit;
        }
      } else if key == CtrlF || key == Char('/') {
        view := view.(filtering := true);
      } else if key == CtrlR || key == Char('R') {
        cmd := StartRefreshing();
      } else if Moves(key) {
        MoveCursor(key, AppsListHeight(), |data.appKeys|);
      } else if Marking(key) {
        if key == Char(' ') && data.appKeys == [] {
          return;
        }
        if key == Char(' ') && !(0 <= cursor < |data.appKeys|) {
          return Crash;
        }
        MarkInApps(key);
      } else if key == Enter {
        EnterApps();
      }
    }

    // ---- the cluster list ----

    method EnterClusters()
      modifies this`step, this`err, this`cursor, this`view, this`picks
      ensures Turn(Snapshot(), NoCmd) == ClustersChosen(old(Snapshot()))
    {
      hide SelectedAppsOf, SelectedClustersOf, ResourcesFor, WithResources, Aggregated;
      var clusters := SelectedClusters();
      if clusters == [] {
        return;
      }
      var apps := SelectedApps();
      if apps == [] {
        return;
      }
      var kept, skipped := SplitByResources(data.inv, apps, clusters);
      if kept == [] {
        step := Broken;
        err := Some(NothingSelectable);
        return;
      }
      var res := OpenResources(picks.res.(apps := kept, skipped := skipped), 0, clusters);
      picks := picks.(res := res.(marks := map[]));
      cursor := 0;
      view := view.(resOffset := 0);
      step := SelectResources;
    }

    /** The resource list of application number `idx`. */
    method OpenResources(res: ResourcePicks, idx: nat, clusters: seq<string>) returns (out: ResourcePicks)
      requires idx < |res.apps|
      ensures out == Opened(data.inv, clusters, res, idx)
    {
      hide ResourcesFor, Aggregated;
      var list := ResourcesForAppInClusters(data.inv, res.apps[idx], clusters);
      ListDistinct(data.inv, res.apps[idx], clusters);
      var agg := AggregateResourceAgg(data.inv, res.apps[idx], clusters, list);
      out := res.(idx := idx, list := list, agg := agg);
    }

    method OnKeySelectClusters(key: Key) returns (cmd: Cmd)
      modifies this
      ensures Turn(Snapshot(), cmd) == OnClusters(old(Snapshot()), key)
    {
      hide Moved, SetAll, AllChosen, ClustersChosen, ClustersHeight;
      cmd := NoCmd;
      if Leaves(key) {
        cmd := Quit;
      } else if key == Backspace {
        cursor := 0;
        view := view.(appOffset := 0);
        step := SelectApps;
      } else if Moves(key) {
        MoveCursor(key, ClustersListHeight(), |picks.clusterNames|);
      } else if key == Char(' ') {
        if picks.clusterNames == [] {
          return;
        }
        if !(0 <= cursor < |picks.clusterNames|) {
          return Crash;
        }
        var c := picks.clusterNames[cursor];
        picks := picks.(clSelected := picks.clSelected[c := !Is(picks.clSelected, c)]);
      } else if key == Char('a') {
        var marks := ToggleAll(picks.clusterNames, picks.clSelected);
        picks := picks.(clSelected := marks);
      } else if key == Enter {
        EnterClusters();
      }
    }

    // ---- the resource list ----

    method MarkInResources(key: Key)
      requires picks.res.idx < |picks.res.apps| && (key == Char(' ') ==> 0 <= cursor < |picks.res.list|)
      modifies this`picks
      ensures picks == old(picks).(res := MarkResources(old(picks).res, key, cursor))
    {
      hide SetAll, ChooseIf, AllChosen;
      var res := picks.res;
      var app := res.apps[res.idx];
      var marks := if app in res.marks then res.marks[app] else map[];
      if key == Char(' ') {
        var r := res.list[cursor];
        marks := marks[r := !Is(marks, r)];
      } else if key == Char('a') {
        marks := ToggleAll(res.list, marks);
      } else {
        marks := MarkUnsynced(res.list, res.agg, marks);
      }
      picks := picks.(res := res.(marks := res.marks[app := marks]));
    }

    method EnterResources()
      requires picks.res.idx < |picks.res.apps|
      modifies this`step, this`cursor, this`view, this`picks
      ensures Turn(Snapshot(), NoCmd) == ResourcesChosen(old(Snapshot()))
    {
      hide Scrolled, SelectedClustersOf, SelectedResourcesOf, Opened;
      if picks.res.list == [] {
        return;
      }
      var selected := SelectedResourcesFor(picks.res.apps[picks.res.idx]);
      if selected == [] {
        return;
      }
      if picks.res.idx < |picks.res.apps| - 1 {
        var clusters := SelectedClusters();
        var res := OpenResources(picks.res, picks.res.idx + 1, clusters);
        picks := picks.(res := res);
        cursor := 0;
        view := view.(resOffset := 0);
        EnsureVisible();
        return;
      }
      cursor := 0;
      step := SelectAction;
    }

    method OnKeySelectResources(key: Key) returns (cmd: Cmd)
      modifies this
      ensures Turn(Snapshot(), cmd) == OnResources(old(Snapshot()), key)
    {
      hide Moved, MarkResources, ResourcesChosen, ResourcesHeight;
      cmd := NoCmd;
      if Leaves(key) {
        cmd := Quit;
      } else if key == Backspace {
        cursor := 0;
        view := view.(clOffset := 0);
        step := SelectClusters;
      } else if Moves(key) {
        if picks.res.list == [] && (key.PgUp? || key.PgDown?) {
          return;
        }
        MoveCursor(key, ResourcesListHeight(), |picks.res.list|);
      } else if Marking(key) {
        if key == Char(' ') && picks.res.list == [] {
          return;
        }
        if picks.res.idx >= |picks.res.apps| || (key == Char(' ') && !(0 <= cursor < |picks.res.list|)) {
          return Crash;
        }
        MarkInResources(key);
      } else if key == Enter {
        if picks.res.idx >= |picks.res.apps| {
          return Crash;
        }
        EnterResources();
      }
    }

    // ---- the action and the confirmation ----

    method ToggleRefresh(hard: bool)
      modifies this`plan
      ensures plan == old(plan).(opts := ToggledRefresh(old(plan).opts, hard))
    {
      var opts := plan.opts;
      if hard {
        opts := opts.(preHardRefresh := !opts.preHardRefresh);
        if opts.preHardRefresh {
          opts := opts.(preRefresh := false);
        }
      } else {
        opts := opts.(preRefresh := !opts.preRefresh);
        if opts.preRefresh {
          opts := opts.(preHardRefresh := false);
        }
      }
      plan := plan.(opts := opts);
    }

    method ToggleFlag(key: Key)
      modifies this`plan
      ensures plan == old(plan).(opts := ToggledFlag(old(plan).opts, key))
    {
      if key == Char('p') {
        plan := plan.(opts := plan.opts.(prune := !plan.opts.prune));
      } else if key == Char('d') {
        plan := plan.(opts := plan.opts.(dryRun := !plan.opts.dryRun));
      } else if key == Char('o') {
        plan := plan.(opts := plan.opts.(applyOnly := !plan.opts.applyOnly));
      } else if key == Char('f') {
        plan := plan.(opts := plan.opts.(force := !plan.opts.force));
      }
    }

    method ChangePlan(key: Key)
      modifies this`plan
      ensures plan == Planned(old(plan), key)
    {
      hide ToggledRefresh, ToggledFlag;
      if key == Up {
        if plan.actionIdx > 0 { plan := plan.(actionIdx := plan.actionIdx - 1); }
      } else if key == Down {
        if plan.actionIdx < |ACTIONS| - 1 { plan := plan.(actionIdx := plan.actionIdx + 1); }
      } else if plan.actionIdx == 0 {
        if key == Char('r') || key == Char('h') {
          ToggleRefresh(key == Char('h'));
        } else {
          ToggleFlag(key);
        }
      }
    }

    method OnKeySelectAction(key: Key) returns (cmd: Cmd)
      modifies this
      ensures Turn(Snapshot(), cmd) == OnAction(old(Snapshot()), key)
    {
      hide Started, Planned;
      cmd := NoCmd;
      if Leaves(key) {
        cmd := Quit;
      } else if key == Backspace {
        cursor := 0;
        step := SelectResources;
      } else if key == Enter {
        if !(0 <= plan.actionIdx < |ACTIONS|) {
          return Crash;
        }
        plan := plan.(action := ACTIONS[plan.actionIdx]);
        if plan.action == ActionSync && (plan.opts.prune || plan.opts.force) {
          step := Confirm;
          return;
        }
        cmd := StartRun();
      } else {
        ChangePlan(key);
      }
    }

    method OnKeyConfirm(key: Key) returns (cmd: Cmd)
      modifies this`step, this`run
      ensures Turn(Snapshot(), cmd) == OnConfirm(old(Snapshot()), key)
    {
      hide Started;
      cmd := NoCmd;
      if Lower(key) == Char('y') {
        cmd := StartRun();
      } else if Lower(key) == Char('n') || key == Esc || Lower(key) == Char('q') {
        step := SelectAction;
      }
    }

    method StartRun() returns (cmd: Cmd)
      modifies this`step, this`run
      ensures Turn(Snapshot(), cmd) == Started(old(Snapshot()))
    {
      hide SelectedAppsOf, SelectedClustersOf, SelectedResourcesOf, TargetsOf;
      step := Running;
      var apps := SelectedApps();
      var clusters := SelectedClusters();
      var resourcesByApp := SelectedResourcesByApp();
      SameRequest(old(Snapshot()), Snapshot());
      assert resourcesByApp == RequestOf(old(Snapshot())).resources;
      var targets := TargetsForSelection(data.inv, apps, clusters);
      var statuses, before := FirstStatuses(data.inv, targets);
      run := RunView(targets, statuses, map[], map[], before, map[], []);
      cmd := Launch(RunRequest(data.inv, data.clusterBy, apps, clusters, resourcesByApp, plan.action, plan.opts));
    }

    // ---- the other messages ----

    method TakeLoad(load: Load)
      requires load.Loaded?
      modifies this`data
      ensures data == Fresh(load).(appKeys := old(data).appKeys)
    {
      hide KeysOf, ClusterMap;
      var clusterBy := ClustersByContext(load.clusters);
      var keys := InventoryKeys(load.inv);
      data := Catalog(clusterBy, load.inv, load.errs, keys, data.appKeys);
    }

    method OnLoadDone(load: Load)
      modifies this`step, this`err, this`cursor, this`view, this`data
      ensures Snapshot() == OnLoad(old(Snapshot()), load)
    {
      hide KeysOf, ClusterMap;
      if load.LoadFailed? {
        step := Broken;
        err := Some(External(load.text));
        return;
      }
      TakeLoad(load);
      data := data.(appKeys := data.appKeysAll);
      step := SelectApps;
      cursor := 0;
      view := view.(appOffset := 0);
    }

    method OnRefreshDone(load: Load)
      modifies this
      ensures Snapshot() == OnRefresh(old(Snapshot()), load)
    {
      hide Filtered, Scrolled, Remaining, IndexOf, KeysOf, ClusterMap;
      refreshing := false;
      if load.LoadFailed? {
        data := data.(loadErrs := load.errs);
        err := Some(External(load.text));
        return;
      }
      var prev: Option<AppKey> := None;
      if cursor >= 0 && cursor < |data.appKeys| {
        prev := Some(data.appKeys[cursor]);
      }
      TakeLoad(load);
      ghost var before := Snapshot();
      ApplyAppFilter();
      FilteredFrame(before);
      var marks := DropVanished(picks.appSelected, data.inv);
      picks := picks.(appSelected := marks);
      var idx := -1;
      if prev.Some? {
        idx := IndexOfAppKey(data.appKeys, prev.value);
      }
      cursor := if idx >= 0 then idx else Clamp(cursor, 0, Max(0, |data.appKeys| - 1));
      EnsureVisible();
    }

    method OnProgressMsg(ev: ProgressEvent)
      modifies this`run
      ensures run == OnProgress(old(run), ev)
    {
      hide Parse, Render;
      run := run.(statuses := run.statuses[ev.target := ev.phase]);
      if ev.message != NoMessage {
        run := run.(messages := run.messages[ev.target := ev.message]);
        var op, sync, health, ok := ParseSyncWaitMessage(Render(ev.message));
        if ok {
          var app := ZERO_APPLICATION.(operationPhase := op, syncStatus := sync, healthStatus := health);
          run := run.(after := run.after[ev.target := app]);
        }
      }
      if ev.err.Some? {
        run := run.(errors := run.errors[ev.target := ev.err.value]);
      }
    }

    method OnRunDoneMsg(rs: seq<Result>, e: Option<RunErr>) returns (cmd: Cmd)
      modifies this`step, this`err, this`run, this`refreshing
      ensures Turn(Snapshot(), cmd) == OnRunDone(old(Snapshot()), rs, e)
    {
      run := run.(results := rs);
      if e == Some(OtherRunErr) {
        step := Broken;
        err := Some(RunRefused);
        return NoCmd;
      }
      step := Done;
      cmd := StartRefreshing();
    }

    method ResetToStart()
      modifies this
      ensures Snapshot() == Reset(old(Snapshot()))
    {
      step := SelectApps;
      cursor := 0;
      view := view.(appOffset := 0, resOffset := 0, clOffset := 0);
      picks := Picks(map[], [], map[], ResourcePicks([], 0, [], map[], map[], picks.res.skipped));
      plan := Plan(0, ActionSync, Defaults(cli));
      run := run.(statuses := map[], errors := map[], results := []);
    }

    method OnKeyDone(key: Key) returns (cmd: Cmd)
      modifies this
      ensures Turn(Snapshot(), cmd) == OnDone(old(Snapshot()), key)
    {
      hide Reset;
      cmd := NoCmd;
      if Leaves(key) || key == Enter {
        cmd := Quit;
      } else if key == Char('r') {
        ResetToStart();
        cmd := StartRefreshing();
      }
    }

    method OnKeyPressed(key: Key, typed: string) returns (cmd: Cmd)
      modifies this
      ensures Turn(Snapshot(), cmd) == OnKey(old(Snapshot()), key, typed)
    {
      hide OnApps, OnClusters, OnResources, OnAction, OnConfirm, OnDone;
      if key == CtrlC {
        return CancelAndQuit;
      }
      match step
      case Loading => cmd := if Leaves(key) then CancelAndQuit else NoCmd;
      case Broken => cmd := if Leaves(key) || key == Enter then CancelAndQuit else NoCmd;
      case SelectApps => cmd := OnKeySelectApps(key, typed);
      case SelectClusters => cmd := OnKeySelectClusters(key);
      case SelectResources => cmd := OnKeySelectResources(key);
      case SelectAction => cmd := OnKeySelectAction(key);
      case Confirm => cmd := OnKeyConfirm(key);
      case Running => cmd := if Leaves(key) then CancelRun else NoCmd;
      case Done => cmd := OnKeyDone(key);
    }

    method OnResize(h: int)
      modifies this`view
      ensures Snapshot() == Resized(old(Snapshot()), h)
    {
      hide Scrolled;
      view := view.(height := h);
      view := view.(appOffset := Clamp(view.appOffset, 0, Max(0, |data.appKeys| - 1)));
      view := view.(clOffset := Clamp(view.clOffset, 0, Max(0, |picks.clusterNames| - 1)));
      EnsureVisible();
    }

    /** One message. A valid object does not crash, and stays valid exactly unless the message is a refresh
        that takes the cursor off the list on the screen. */
    method Update(m: Msg) returns (cmd: Cmd)
      modifies this
      ensures Turn(Snapshot(), cmd) == Step(old(Snapshot()), m)
      ensures old(Valid()) ==> cmd != Crash && (Valid() <==> LandsSafely(old(Snapshot()), m))
    {
      hide OnKey, OnLoad, OnRefresh, OnProgress, OnRunDone, Resized, Safe, LandsSafely;
      if Valid() {
        StepSafe(Snapshot(), m);
      }
      cmd := NoCmd;
      match m
      case Resize(h) => OnResize(h);
      case Press(key, typed) => cmd := OnKeyPressed(key, typed);
      case LoadDone(load) => OnLoadDone(load);
      case RefreshDone(load) => OnRefreshDone(load);
      case Progressed(ev) =>
        OnProgressMsg(ev);
        cmd := AwaitEvent;
      case EventsClosed =>
      case RunDone(rs, e) => cmd := OnRunDoneMsg(rs, e);
    }

    /** A whole sequence of messages. The object is where `Wizard.After` says; and if no refresh takes the cursor
        off the list on the screen, it is still valid and nothing has crashed. */
    method UpdateAll(ms: seq<Msg>) returns (crashed: bool)
      modifies this
      ensures Snapshot() == After(old(Snapshot()), ms)
      ensures crashed <==> !NoCrash(old(Snapshot()), ms)
      ensures old(Valid()) && AllLandSafely(old(Snapshot()), ms) ==> Valid() && !crashed
    {
      hide Step, Safe, LandsSafely, After;
      crashed := false;
      NoMessages(Snapshot());
      assert ms[..0] == [];
      for i := 0 to |ms|
        invariant Snapshot() == After(old(Snapshot()), ms[..i])
        invariant crashed <==> exists k :: 0 <= k < i && Step(After(old(Snapshot()), ms[..k]), ms[k]).cmd == Crash
        invariant old(Valid()) && AllLandSafely(old(Snapshot()), ms) ==> Valid() && !crashed
      {
        AfterSnoc(old(Snapshot()), ms, i);
        var cmd := Update(ms[i]);
        if cmd == Crash {
          crashed := true;
        }
      }
      assert ms[..|ms|] == ms;
    }
  }

  lemma NoMessages(s: State)
    ensures After(s, []) == s
  {
  }

  lemma {:induction false} NoneChosen<T>(list: seq<T>)
    ensures Chosen(list, map[]) == []
  {
    if list != [] { NoneChosen(list[1..]); }
  }

  lemma {:induction false} FirstUnknownIs(inv: Inventory, apps: seq<AppKey>, unknown: Option<AppKey>)
    requires unknown.None? <==> forall a :: a in apps ==> a in inv
    requires unknown.Some? ==> exists i :: 0 <= i < |apps| && apps[i] == unknown.value
                                           && unknown.value !in inv && forall j :: 0 <= j < i ==> apps[j] in inv
    ensures FirstUnknown(inv, apps) == unknown
  {
    if apps != [] && apps[0] in inv {
      assert forall a :: a in apps <==> a == apps[0] || a in apps[1..];
      if unknown.Some? {
        var i :| 0 <= i < |apps| && apps[i] == unknown.value && forall j :: 0 <= j < i ==> apps[j] in inv;
        assert apps[1..][i - 1] == unknown.value;
      }
      FirstUnknownIs(inv, apps[1..], unknown);
    }
  }

  lemma ListDistinct(inv: Inventory, app: AppKey, clusters: seq<string>)
    ensures Distinct(ResourcesFor(inv, app, clusters))
  {
    hide ResourceLess, Selectable;
    ResourceLessOrders();
  }

  /** Entering the running step does not change what is requested. */
  lemma SameRequest(s: State, t: State)
    requires t == s.(step := Running)
    ensures SelectedAppsOf(t) == SelectedAppsOf(s) && SelectedClustersOf(t) == SelectedClustersOf(s)
    ensures forall a :: SelectedResourcesOf(t, a) == SelectedResourcesOf(s, a)
  {
    hide MarkedIn;
  }
}
