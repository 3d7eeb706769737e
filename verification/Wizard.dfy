/** The wizard (internal/tui/tui.go:229-896) as a transition function: the state that a message leads to,
    and the command that goes with it. `WizardModel` holds the model object itself. */
module Wizard {
  import opened GoStrings
  import opened Models
  import opened Ordering
  import opened Resources
  import opened Discovery
  import opened Targets
  import opened Viewport
  import opened WaitMessage

  datatype Stage =
    | Loading | Broken | SelectApps | SelectClusters | SelectResources | SelectAction | Confirm | Running | Done

  datatype Trouble = External(text: string) | AppUnknown(app: AppKey) | NothingSelectable | RunRefused

  /** The command line options that matter here. */
  datatype Cli = Cli(noWait: bool, waitTimeout: int, pollInterval: int)

  /** What is shown of a run. */
  datatype RunView = RunView(
    targets: seq<Target>,
    statuses: map<Target, TaskStatus>,
    messages: map<Target, Message>,
    errors: map<Target, Err>,
    before: map<Target, Application>,
    after: map<Target, Application>,
    results: seq<Result>)

  /** What was loaded, and the part of the applications that passes the filter. */
  datatype Catalog = Catalog(
    clusterBy: map<string, Cluster>,
    inv: Inventory,
    loadErrs: map<string, Err>,
    appKeysAll: seq<AppKey>,
    appKeys: seq<AppKey>)

  datatype View = View(
    height: int,
    appOffset: int,
    resOffset: int,
    clOffset: int,
    filtering: bool,
    filter: string)

  /** The resources of the application number `idx` of `apps`, and the marks of all of them. */
  datatype ResourcePicks = ResourcePicks(
    apps: seq<AppKey>,
    idx: nat,
    list: seq<SyncResource>,
    agg: map<SyncResource, Agg>,
    marks: map<AppKey, map<SyncResource, bool>>,
    skipped: nat)

  datatype Picks = Picks(
    appSelected: map<AppKey, bool>,
    clusterNames: seq<string>,
    clSelected: map<string, bool>,
    res: ResourcePicks)

  datatype Plan = Plan(actionIdx: int, action: Action, opts: RunOptions)

  /** One cursor serves the three lists. */
  datatype State = State(
    cli: Cli,
    step: Stage,
    err: Option<Trouble>,
    refreshing: bool,
    cursor: int,
    view: View,
    data: Catalog,
    picks: Picks,
    plan: Plan,
    run: RunView)

  datatype Key =
    | CtrlC | CtrlF | CtrlR | Enter | Esc | Up | Down | PgUp | PgDown | Backspace | Char(c: char) | OtherKey

  /** The result of loading or refreshing. */
  datatype Load = Loaded(clusters: seq<Cluster>, inv: Inventory, errs: map<string, Err>)
                | LoadFailed(errs: map<string, Err>, text: string)

  /** The error that comes with the results of a run. */
  datatype RunErr = Canceled | OtherRunErr

  /** `typed` is the value of the filter field after it has handled the key itself. */
  datatype Msg =
    | Resize(height: int)
    | Press(key: Key, typed: string)
    | LoadDone(load: Load)
    | RefreshDone(load: Load)
    | Progressed(ev: ProgressEvent)
    | EventsClosed
    | RunDone(results: seq<Result>, err: Option<RunErr>)

  /** What startRun hands to the bulk runner. */
  datatype RunRequest = RunRequest(
    inv: Inventory,
    clusterBy: map<string, Cluster>,
    apps: seq<AppKey>,
    clusters: seq<string>,
    resources: map<AppKey, seq<SyncResource>>,
    action: Action,
    opts: RunOptions)

  /** `Crash` stands for the run-time panic of an index out of range. */
  datatype Cmd = NoCmd | Quit | CancelAndQuit | CancelRun | StartRefresh | AwaitEvent | Launch(request: RunRequest) | Crash

  datatype Turn = Turn(state: State, cmd: Cmd)

  function Defaults(cli: Cli): RunOptions {
    RunOptions(false, false, false, false, false, false, !cli.noWait, !cli.noWait, cli.waitTimeout, cli.pollInterval, [])
  }

  const NO_RUN := RunView([], map[], map[], map[], map[], map[], [])

  const NO_VIEW := View(0, 0, 0, 0, false, "")
  const NO_RESOURCES := ResourcePicks([], 0, [], map[], map[], 0)
  const NO_PICKS := Picks(map[], [], map[], NO_RESOURCES)

  function FirstPlan(cli: Cli): Plan {
    Plan(0, ActionSync, Defaults(cli))
  }

  /** newModel */
  function Initial(cli: Cli): State {
    State(cli, Loading, None, false, 0, NO_VIEW, Catalog(map[], map[], map[], [], []), NO_PICKS, FirstPlan(cli), NO_RUN)
  }

  // ---- selections ----

  /** Reading a missing key of a Go map yields false. */
  predicate Is<T>(m: map<T, bool>, k: T) {
    k in m && m[k]
  }

  /** The chosen ones, in the order of the list. */
  function Chosen<T>(list: seq<T>, m: map<T, bool>): seq<T> {
    if list == [] then [] else (if Is(m, list[0]) then [list[0]] else []) + Chosen(list[1..], m)
  }

  predicate AllChosen<T>(list: seq<T>, m: map<T, bool>) {
    forall i :: 0 <= i < |list| ==> Is(m, list[i])
  }

  /** Every element of the list set to `v`. */
  function SetAll<T>(list: seq<T>, m: map<T, bool>, v: bool): map<T, bool> {
    map k | k in m.Keys + Elements(list) :: if k in list then v else m[k]
  }

  /** The elements of the list that satisfy `p` chosen as well. */
  function ChooseIf<T(!new)>(list: seq<T>, m: map<T, bool>, p: T -> bool): map<T, bool> {
    map k | k in m.Keys + Elements(list) && (k in m || p(k)) :: if k in list && p(k) then true else m[k]
  }

  function SelectedAppsOf(s: State): seq<AppKey> {
    Chosen(s.data.appKeysAll, s.picks.appSelected)
  }

  function SelectedClustersOf(s: State): seq<string> {
    Chosen(s.picks.clusterNames, s.picks.clSelected)
  }

  /** The marks of one application; Go reads a missing entry as an empty map. */
  function MarksOf(res: ResourcePicks, app: AppKey): map<SyncResource, bool> {
    if app in res.marks then res.marks[app] else map[]
  }

  /** The marked resources of an application, of those in the clusters. */
  ghost function MarkedIn(inv: Inventory, clusters: seq<string>, res: ResourcePicks, app: AppKey): seq<SyncResource> {
    Chosen(ResourcesFor(inv, app, clusters), MarksOf(res, app))
  }

  ghost function SelectedResourcesOf(s: State, app: AppKey): seq<SyncResource> {
    MarkedIn(s.data.inv, SelectedClustersOf(s), s.picks.res, app)
  }

  // ---- scrolling ----

  function WarningHeight(loadErrs: map<string, Err>): int {
    var n := |loadErrs|;
    if n == 0 then 0 else 1 + Min(3, n) + (if n > 3 then 1 else 0) + 1
  }

  function DetailsHeight(data: Catalog, cursor: int): int {
    if 0 <= cursor < |data.appKeys| && data.appKeys[cursor] in data.inv && data.inv[data.appKeys[cursor]] != map[] then
      2 + Min(|data.inv[data.appKeys[cursor]]|, 8)
    else 0
  }

  function AppsHeight(s: State): int {
    var header := if s.view.filtering || s.view.filter != "" then 5 else 4;
    if s.view.height <= 0 then 20
    else Max(5, s.view.height - header - WarningHeight(s.data.loadErrs) - DetailsHeight(s.data, s.cursor) - 2)
  }

  function ResourcesHeight(s: State): int {
    if s.view.height <= 0 then 20 else Max(5, s.view.height - 7)
  }

  function ClustersHeight(s: State): int {
    if s.view.height <= 0 then 20 else Max(5, s.view.height - 5)
  }

  /** Scrolls the list on the screen to its cursor. */
  function Scrolled(s: State): View {
    match s.step
    case SelectApps => s.view.(appOffset := EnsureOffset(s.view.appOffset, s.cursor, AppsHeight(s), |s.data.appKeys|))
    case SelectResources => s.view.(resOffset := EnsureOffset(s.view.resOffset, s.cursor, ResourcesHeight(s), |s.picks.res.list|))
    case SelectClusters => s.view.(clOffset := EnsureOffset(s.view.clOffset, s.cursor, ClustersHeight(s), |s.picks.clusterNames|))
    case _ => s.view
  }

  /** ensureVisible */
  function Visible(s: State): State {
    s.(view := Scrolled(s))
  }

  function Page(height: int): int {
    if height <= 0 then 10 else height
  }

  /** Where a movement key takes the cursor of a list. */
  function MoveTo(key: Key, cursor: int, height: int, total: nat): int {
    match key
    case Up => if cursor > 0 then cursor - 1 else cursor
    case Down => if cursor < total - 1 then cursor + 1 else cursor
    case PgUp => if cursor - Page(height) < 0 then 0 else cursor - Page(height)
    case PgDown => if cursor + Page(height) > total - 1 then total - 1 else cursor + Page(height)
    case _ => cursor
  }

  predicate Moves(key: Key) {
    key.Up? || key.Down? || key.PgUp? || key.PgDown?
  }

  function Moved(s: State, key: Key, height: int, total: nat): State {
    Visible(s.(cursor := MoveTo(key, s.cursor, height, total)))
  }

  // ---- the application list ----

  function Matching(keys: seq<AppKey>, query: string): seq<AppKey> {
    if keys == [] then []
    else (if Contains(ToLower(keys[0].name), query) then [keys[0]] else []) + Matching(keys[1..], query)
  }

  /** applyAppFilter */
  function Filtered(s: State): State {
    var q := TrimSpace(s.view.filter);
    if q == "" then
      Visible(s.(data := s.data.(appKeys := s.data.appKeysAll), cursor := Clamp(s.cursor, 0, Max(0, |s.data.appKeysAll| - 1))))
    else
      Visible(s.(data := s.data.(appKeys := Matching(s.data.appKeysAll, ToLower(q))), cursor := 0,
                 view := s.view.(appOffset := 0)))
  }

  /** Filtering changes the list, the cursor and the offset only. */
  lemma FilteredFrame(s: State)
    ensures var t := Filtered(s);
            t == s.(data := s.data.(appKeys := t.data.appKeys), cursor := t.cursor, view := t.view)
  {
    hide Scrolled, Matching;
  }

  /** A key while the filter is edited. */
  function Typed(view: View, key: Key, typed: string): View {
    if key == Esc then view.(filtering := false, filter := "")
    else if key == Enter then view.(filtering := false)
    else view.(filter := typed)
  }

  /** The applications were chosen: on to their clusters. */
  ghost function AppsChosen(s: State): Turn {
    var apps := SelectedAppsOf(s);
    if apps == [] then Turn(s, NoCmd)
    else
      var res := s.picks.res.(apps := apps, idx := 0);
      var unknown := FirstUnknown(s.data.inv, apps);
      if unknown.Some? then
        Turn(s.(picks := s.picks.(res := res), step := Broken, err := Some(AppUnknown(unknown.value))), NoCmd)
      else
        var cl := ClustersOf(s.data.inv, apps);
        Turn(s.(picks := s.picks.(res := res, clusterNames := cl, clSelected := map c | c in cl :: true),
                cursor := 0, view := s.view.(clOffset := 0), step := SelectClusters), NoCmd)
  }

  function FirstUnknown(inv: Inventory, apps: seq<AppKey>): Option<AppKey> {
    if apps == [] then None else if apps[0] !in inv then Some(apps[0]) else FirstUnknown(inv, apps[1..])
  }

  function Refreshing(s: State): Turn {
    if s.refreshing then Turn(s, NoCmd) else Turn(s.(refreshing := true), StartRefresh)
  }

  /** The keys that select in the application list. */
  function MarkApps(data: Catalog, marks: map<AppKey, bool>, key: Key, cursor: int): map<AppKey, bool>
    requires key == Char(' ') ==> 0 <= cursor < |data.appKeys|
  {
    if key == Char(' ') then marks[data.appKeys[cursor] := !Is(marks, data.appKeys[cursor])]
    else if key == Char('a') then SetAll(data.appKeys, marks, !AllChosen(data.appKeys, marks))
    else ChooseIf(data.appKeys, marks, k => !FullySynced(data.inv, k))
  }

  predicate Marking(key: Key) {
    key == Char(' ') || key == Char('a') || key == Char('n')
  }

  ghost function OnApps(s: State, key: Key, typed: string): Turn {
    if s.view.filtering then Turn(Filtered(s.(view := Typed(s.view, key, typed))), NoCmd)
    else if Leaves(key) then
      if s.view.filter != "" then Turn(Filtered(s.(view := s.view.(filter := ""))), NoCmd) else Turn(s, Quit)
    else if key == CtrlF || key == Char('/') then Turn(s.(view := s.view.(filtering := true)), NoCmd)
    else if key == CtrlR || key == Char('R') then Refreshing(s)
    else if Moves(key) then Turn(Moved(s, key, AppsHeight(s), |s.data.appKeys|), NoCmd)
    else if Marking(key) then
      if key == Char(' ') && s.data.appKeys == [] then Turn(s, NoCmd)
      else if key == Char(' ') && !(0 <= s.cursor < |s.data.appKeys|) then Turn(s, Crash)
      else Turn(s.(picks := s.picks.(appSelected := MarkApps(s.data, s.picks.appSelected, key, s.cursor))), NoCmd)
    else if key == Enter then AppsChosen(s)
    else Turn(s, NoCmd)
  }

  // ---- the cluster list ----

  /** The applications with something to select in the clusters. */
  ghost function WithResources(inv: Inventory, apps: seq<AppKey>, clusters: seq<string>): (r: seq<AppKey>)
    ensures |r| <= |apps|
  {
    if apps == [] then []
    else (if ResourcesFor(inv, apps[0], clusters) != [] then [apps[0]] else []) + WithResources(inv, apps[1..], clusters)
  }

  /** The resource list of application number `idx`. */
  ghost function Opened(inv: Inventory, clusters: seq<string>, res: ResourcePicks, idx: nat): ResourcePicks
    requires idx < |res.apps|
  {
    var list := ResourcesFor(inv, res.apps[idx], clusters);
    res.(idx := idx, list := list, agg := Aggregated(inv, res.apps[idx], clusters, list))
  }

  /** The clusters were chosen: on to the resources of each application. */
  ghost function ClustersChosen(s: State): Turn {
    var clusters := SelectedClustersOf(s);
    var apps := SelectedAppsOf(s);
    if clusters == [] || apps == [] then Turn(s, NoCmd)
    else
      var kept := WithResources(s.data.inv, apps, clusters);
      if kept == [] then Turn(s.(step := Broken, err := Some(NothingSelectable)), NoCmd)
      else
        var res := Opened(s.data.inv, clusters, ResourcePicks(kept, 0, [], map[], map[], |apps| - |kept|), 0);
        Turn(s.(picks := s.picks.(res := res), cursor := 0, view := s.view.(resOffset := 0), step := SelectResources), NoCmd)
  }

  ghost function OnClusters(s: State, key: Key): Turn {
    if Leaves(key) then Turn(s, Quit)
    else if key == Backspace then Turn(s.(cursor := 0, view := s.view.(appOffset := 0), step := SelectApps), NoCmd)
    else if Moves(key) then Turn(Moved(s, key, ClustersHeight(s), |s.picks.clusterNames|), NoCmd)
    else if key == Char(' ') then
      if s.picks.clusterNames == [] then Turn(s, NoCmd)
      else if !(0 <= s.cursor < |s.picks.clusterNames|) then Turn(s, Crash)
      else
        var c := s.picks.clusterNames[s.cursor];
        Turn(s.(picks := s.picks.(clSelected := s.picks.clSelected[c := !Is(s.picks.clSelected, c)])), NoCmd)
    else if key == Char('a') then
      var marks := SetAll(s.picks.clusterNames, s.picks.clSelected, !AllChosen(s.picks.clusterNames, s.picks.clSelected));
      Turn(s.(picks := s.picks.(clSelected := marks)), NoCmd)
    else if key == Enter then ClustersChosen(s)
    else Turn(s, NoCmd)
  }

  // ---- the resource list of one application ----

  function AggFor(agg: map<SyncResource, Agg>, r: SyncResource): Agg {
    if r in agg then agg[r] else NO_AGG
  }

  /** The keys that mark resources of the application on the screen. */
  function MarkResources(res: ResourcePicks, key: Key, cursor: int): ResourcePicks
    requires res.idx < |res.apps| && (key == Char(' ') ==> 0 <= cursor < |res.list|)
  {
    var app := res.apps[res.idx];
    var was := MarksOf(res, app);
    var now :=
      if key == Char(' ') then was[res.list[cursor] := !Is(was, res.list[cursor])]
      else if key == Char('a') then SetAll(res.list, was, !AllChosen(res.list, was))
      else ChooseIf(res.list, was, r => NotAllSynced(AggFor(res.agg, r)));
    res.(marks := res.marks[app := now])
  }

  /** The resources of this application were chosen: on to the next one, or to the action. */
  ghost function ResourcesChosen(s: State): Turn
    requires s.picks.res.idx < |s.picks.res.apps|
  {
    var res := s.picks.res;
    if res.list == [] || SelectedResourcesOf(s, res.apps[res.idx]) == [] then Turn(s, NoCmd)
    else if res.idx < |res.apps| - 1 then
      var next := Opened(s.data.inv, SelectedClustersOf(s), res, res.idx + 1);
      Turn(Visible(s.(picks := s.picks.(res := next), cursor := 0, view := s.view.(resOffset := 0))), NoCmd)
    else Turn(s.(cursor := 0, step := SelectAction), NoCmd)
  }

  ghost function OnResources(s: State, key: Key): Turn {
    var res := s.picks.res;
    if Leaves(key) then Turn(s, Quit)
    else if key == Backspace then Turn(s.(cursor := 0, view := s.view.(clOffset := 0), step := SelectClusters), NoCmd)
    else if Moves(key) then
      if res.list == [] && (key.PgUp? || key.PgDown?) then Turn(s, NoCmd)
      else Turn(Moved(s, key, ResourcesHeight(s), |res.list|), NoCmd)
    else if Marking(key) then
      if key == Char(' ') && res.list == [] then Turn(s, NoCmd)
      else if res.idx >= |res.apps| || (key == Char(' ') && !(0 <= s.cursor < |res.list|)) then Turn(s, Crash)
      else Turn(s.(picks := s.picks.(res := MarkResources(res, key, s.cursor))), NoCmd)
    else if key == Enter then
      if res.idx >= |res.apps| then Turn(s, Crash) else ResourcesChosen(s)
    else Turn(s, NoCmd)
  }

  // ---- the action, and the confirmation ----

  const ACTIONS := [ActionSync, ActionRefresh, ActionHardRefresh]

  /** Setting one of the two refreshes before a sync clears the other. */
  function ToggledRefresh(o: RunOptions, hard: bool): RunOptions {
    if hard then
      var on := !o.preHardRefresh;
      o.(preHardRefresh := on, preRefresh := !on && o.preRefresh)
    else
      var on := !o.preRefresh;
      o.(preRefresh := on, preHardRefresh := !on && o.preHardRefresh)
  }

  /** The keys that flip a single flag of a sync. */
  function ToggledFlag(o: RunOptions, key: Key): RunOptions {
    o.(prune := o.prune != (key == Char('p')), dryRun := o.dryRun != (key == Char('d')),
       applyOnly := o.applyOnly != (key == Char('o')), force := o.force != (key == Char('f')))
  }

  function Toggled(o: RunOptions, key: Key): RunOptions {
    if key == Char('r') || key == Char('h') then ToggledRefresh(o, key == Char('h')) else ToggledFlag(o, key)
  }

  /** The flags that have to be confirmed. */
  predicate Risky(action: Action, opts: RunOptions) {
    action == ActionSync && (opts.prune || opts.force)
  }

  /** The keys that change the plan. */
  function Planned(plan: Plan, key: Key): Plan {
    if key == Up then (if plan.actionIdx > 0 then plan.(actionIdx := plan.actionIdx - 1) else plan)
    else if key == Down then (if plan.actionIdx < 2 then plan.(actionIdx := plan.actionIdx + 1) else plan)
    else if plan.actionIdx == 0 then plan.(opts := Toggled(plan.opts, key))
    else plan
  }

  ghost function OnAction(s: State, key: Key): Turn {
    if Leaves(key) then Turn(s, Quit)
    else if key == Backspace then Turn(s.(cursor := 0, step := SelectResources), NoCmd)
    else if key == Enter then
      if !(0 <= s.plan.actionIdx < |ACTIONS|) then Turn(s, Crash)
      else
        var chosen := s.(plan := s.plan.(action := ACTIONS[s.plan.actionIdx]));
        if Risky(chosen.plan.action, chosen.plan.opts) then Turn(chosen.(step := Confirm), NoCmd)
        else Started(chosen)
    else Turn(s.(plan := Planned(s.plan, key)), NoCmd)
  }

  function Lower(key: Key): Key {
    if key.Char? then Char(LowerChar(key.c)) else key
  }

  ghost function OnConfirm(s: State, key: Key): Turn {
    if Lower(key) == Char('y') then Started(s)
    else if Lower(key) == Char('n') || key == Esc || Lower(key) == Char('q') then Turn(s.(step := SelectAction), NoCmd)
    else Turn(s, NoCmd)
  }

  ghost function RequestOf(s: State): RunRequest {
    var apps := SelectedAppsOf(s);
    RunRequest(s.data.inv, s.data.clusterBy, apps, SelectedClustersOf(s), map a | a in apps :: SelectedResourcesOf(s, a),
               s.plan.action, s.plan.opts)
  }

  function PendingOf(targets: seq<Target>): map<Target, TaskStatus> {
    map t | t in targets :: TaskPending
  }

  function BeforeOf(inv: Inventory, targets: seq<Target>): map<Target, Application> {
    map t | t in targets && Hosts(inv, t.app, t.clusterContext) :: inv[t.app][t.clusterContext]
  }

  /** What is shown before the run has reported anything. */
  function StartView(inv: Inventory, targets: seq<Target>): RunView {
    RunView(targets, PendingOf(targets), map[], map[], BeforeOf(inv, targets), map[], [])
  }

  /** startRun */
  ghost function Started(s: State): Turn {
    var request := RequestOf(s);
    Turn(s.(step := Running, run := StartView(request.inv, TargetsOf(request.inv, request.apps, request.clusters))),
         Launch(request))
  }

  // ---- the other messages ----

  function ClusterMap(clusters: seq<Cluster>): (m: map<string, Cluster>)
    ensures forall c :: c in m <==> exists i :: 0 <= i < |clusters| && clusters[i].contextName == c
  {
    if clusters == [] then map[]
    else
      var last := clusters[|clusters| - 1];
      ClusterMap(clusters[..|clusters| - 1])[last.contextName := last]
  }

  ghost function Fresh(load: Load): Catalog
    requires load.Loaded?
  {
    Catalog(ClusterMap(load.clusters), load.inv, load.errs, KeysOf(load.inv), KeysOf(load.inv))
  }

  ghost function OnLoad(s: State, load: Load): State {
    if load.LoadFailed? then s.(step := Broken, err := Some(External(load.text)))
    else s.(data := Fresh(load), step := SelectApps, cursor := 0, view := s.view.(appOffset := 0))
  }

  function IndexOf<T(==)>(list: seq<T>, x: T): (i: int)
    ensures x in list ==> 0 <= i < |list| && list[i] == x && x !in list[..i]
    ensures x !in list ==> i == -1
  {
    if list == [] then -1
    else if list[0] == x then 0
    else
      var j := IndexOf(list[1..], x);
      assert x in list <==> x in list[1..];
      assert j >= 0 ==> list[..j + 1] == [list[0]] + list[1..][..j];
      if j < 0 then -1 else j + 1
  }

  /** The new inventory, with the filter applied again. */
  ghost function Reloaded(s: State, load: Load): State
    requires load.Loaded?
  {
    Filtered(s.(refreshing := false, data := Fresh(load).(appKeys := s.data.appKeys)))
  }

  /** Back to the application under the cursor before, if it is still listed. */
  function Restored(before: Catalog, cursor: int, after: Catalog, moved: int): int {
    var i := if 0 <= cursor < |before.appKeys| then IndexOf(after.appKeys, before.appKeys[cursor]) else -1;
    if i >= 0 then i else Clamp(moved, 0, Max(0, |after.appKeys| - 1))
  }

  /** The cursor after a refresh: a row of the application list, whatever list is on the screen. */
  ghost function RefreshedCursor(s: State, load: Load): int
    requires load.Loaded?
  {
    var t := Reloaded(s, load);
    Restored(s.data, s.cursor, t.data, t.cursor)
  }

  /** Selections of vanished applications are dropped. */
  function Remaining(marks: map<AppKey, bool>, inv: Inventory): map<AppKey, bool> {
    map k | k in marks && k in inv :: marks[k]
  }

  ghost function OnRefresh(s: State, load: Load): State {
    if load.LoadFailed? then
      s.(refreshing := false, data := s.data.(loadErrs := load.errs), err := Some(External(load.text)))
    else
      var t := Reloaded(s, load);
      Visible(t.(picks := t.picks.(appSelected := Remaining(t.picks.appSelected, load.inv)), cursor := RefreshedCursor(s, load)))
  }

  /** What a refresh changes besides the list, the cursor and the offsets. */
  lemma RefreshFrame(s: State, load: Load)
    ensures var t := OnRefresh(s, load);
            t.step == s.step && t.plan == s.plan && t.cli == s.cli && t.run == s.run
            && t.picks == s.picks.(appSelected := t.picks.appSelected)
            && (load.Loaded? ==>
                  t.data == Fresh(load).(appKeys := t.data.appKeys) && t.cursor == RefreshedCursor(s, load)
                  && t.picks.appSelected == Remaining(s.picks.appSelected, load.inv))
  {
    hide Filtered, Scrolled, Remaining, RefreshedCursor, Fresh;
    if load.Loaded? {
      FilteredFrame(s.(refreshing := false, data := Fresh(load).(appKeys := s.data.appKeys)));
    }
  }

  function OnProgress(run: RunView, ev: ProgressEvent): RunView {
    var t := ev.target;
    var parsed := if ev.message == NoMessage then None else Parse(Render(ev.message));
    run.(statuses := run.statuses[t := ev.phase],
         messages := if ev.message == NoMessage then run.messages else run.messages[t := ev.message],
         after := if parsed.None? then run.after else
                  run.after[t := ZERO_APPLICATION.(operationPhase := parsed.value.0, syncStatus := parsed.value.1,
                                                   healthStatus := parsed.value.2)],
         errors := if ev.err.Some? then run.errors[t := ev.err.value] else run.errors)
  }

  function OnRunDone(s: State, results: seq<Result>, err: Option<RunErr>): Turn {
    var t := s.(run := s.run.(results := results));
    if err == Some(OtherRunErr) then Turn(t.(step := Broken, err := Some(RunRefused)), NoCmd)
    else Refreshing(t.(step := Done))
  }

  /** resetToStart */
  function Reset(s: State): State {
    s.(step := SelectApps, cursor := 0, view := s.view.(appOffset := 0, resOffset := 0, clOffset := 0),
       picks := Picks(map[], [], map[], ResourcePicks([], 0, [], map[], map[], s.picks.res.skipped)),
       plan := FirstPlan(s.cli),
       run := s.run.(statuses := map[], errors := map[], results := []))
  }

  function OnDone(s: State, key: Key): Turn {
    if Leaves(key) || key == Enter then Turn(s, Quit)
    else if key == Char('r') then Refreshing(Reset(s))
    else Turn(s, NoCmd)
  }

  function Resized(s: State, height: int): State {
    Visible(s.(view := s.view.(height := height, appOffset := Clamp(s.view.appOffset, 0, Max(0, |s.data.appKeys| - 1)),
                               clOffset := Clamp(s.view.clOffset, 0, Max(0, |s.picks.clusterNames| - 1)))))
  }

  predicate Leaves(key: Key) {
    key == Esc || key == Char('q')
  }

  ghost function OnKey(s: State, key: Key, typed: string): Turn {
    if key == CtrlC then Turn(s, CancelAndQuit)
    else
      match s.step
      case Loading => Turn(s, if Leaves(key) then CancelAndQuit else NoCmd)
      case Broken => Turn(s, if Leaves(key) || key == Enter then CancelAndQuit else NoCmd)
      case SelectApps => OnApps(s, key, typed)
      case SelectClusters => OnClusters(s, key)
      case SelectResources => OnResources(s, key)
      case SelectAction => OnAction(s, key)
      case Confirm => OnConfirm(s, key)
      case Running => Turn(s, if Leaves(key) then CancelRun else NoCmd)
      case Done => OnDone(s, key)
  }

  /** Update */
  ghost function Step(s: State, m: Msg): Turn {
    match m
    case Resize(height) => Turn(Resized(s, height), NoCmd)
    case Press(key, typed) => OnKey(s, key, typed)
    case LoadDone(load) => Turn(OnLoad(s, load), NoCmd)
    case RefreshDone(load) => Turn(OnRefresh(s, load), NoCmd)
    case Progressed(ev) => Turn(s.(run := OnProgress(s.run, ev)), AwaitEvent)
    case EventsClosed => Turn(s, NoCmd)
    case RunDone(results, err) => OnRunDone(s, results, err)
  }

  /** The state after a sequence of messages. */
  ghost function After(s: State, ms: seq<Msg>): State
    decreases |ms|
  {
    if ms == [] then s else Step(After(s, ms[..|ms| - 1]), ms[|ms| - 1]).state
  }
}
