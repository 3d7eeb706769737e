/** Every index into a list of the wizard is in bounds, in every run in which no refresh moves the
    cursor of another list out of it; and exactly then. */
module WizardSafety {
  import opened Models
  import opened Resources
  import opened Discovery
  import opened Wizard

  /** The cursor is on a row; in an empty list it may be at -1, where "pgdown" puts it. */
  predicate OnRow(cursor: int, total: nat) {
    if total == 0 then -1 <= cursor <= 0 else 0 <= cursor < total
  }

  predicate Safe(s: State) {
    && 0 <= s.plan.actionIdx < |ACTIONS|
    && (s.step == SelectApps ==> OnRow(s.cursor, |s.data.appKeys|))
    && (s.step == SelectClusters ==> OnRow(s.cursor, |s.picks.clusterNames|))
    && (s.step == SelectResources ==> OnRow(s.cursor, |s.picks.res.list|))
    && (s.step == SelectResources || s.step == SelectAction || s.step == Confirm ==> s.picks.res.idx < |s.picks.res.apps|)
  }

  /** A refresh that arrives in the cluster or resource list takes the cursor to a row of that list. */
  ghost predicate LandsSafely(s: State, m: Msg) {
    m.RefreshDone? && m.load.Loaded? ==>
      && (s.step == SelectClusters ==> OnRow(RefreshedCursor(s, m.load), |s.picks.clusterNames|))
      && (s.step == SelectResources ==> OnRow(RefreshedCursor(s, m.load), |s.picks.res.list|))
  }

  lemma MoveOnRow(key: Key, cursor: int, height: int, total: nat)
    requires OnRow(cursor, total)
    ensures OnRow(MoveTo(key, cursor, height, total), total)
  {
  }

  lemma FilteredOnRow(s: State)
    ensures 0 <= Filtered(s).cursor && OnRow(Filtered(s).cursor, |Filtered(s).data.appKeys|)
  {
    hide Matching, Scrolled;
  }

  lemma FilteredSafe(s: State)
    requires Safe(s) && s.step == SelectApps
    ensures Safe(Filtered(s))
  {
    hide Filtered;
    FilteredOnRow(s);
    FilteredFrame(s);
  }

  lemma OnAppsSafe(s: State, key: Key, typed: string)
    requires Safe(s) && s.step == SelectApps
    ensures Safe(OnApps(s, key, typed).state) && OnApps(s, key, typed).cmd != Crash
  {
    hide Filtered, Scrolled, MoveTo, MarkApps, Typed, AppsChosen, AppsHeight;
    MoveOnRow(key, s.cursor, AppsHeight(s), |s.data.appKeys|);
    FilteredSafe(s.(view := Typed(s.view, key, typed)));
    FilteredSafe(s.(view := s.view.(filter := "")));
    AppsChosenSafe(s);
  }

  lemma AppsChosenSafe(s: State)
    requires Safe(s)
    ensures Safe(AppsChosen(s).state) && AppsChosen(s).cmd != Crash
  {
    hide ClustersOf, SelectedAppsOf, FirstUnknown;
  }

  lemma OnClustersSafe(s: State, key: Key)
    requires Safe(s) && s.step == SelectClusters
    ensures Safe(OnClusters(s, key).state) && OnClusters(s, key).cmd != Crash
  {
    hide Scrolled, MoveTo, ClustersChosen, SetAll, AllChosen, ClustersHeight;
    MoveOnRow(key, s.cursor, ClustersHeight(s), |s.picks.clusterNames|);
    ClustersChosenSafe(s);
  }

  lemma ClustersChosenSafe(s: State)
    requires Safe(s)
    ensures Safe(ClustersChosen(s).state) && ClustersChosen(s).cmd != Crash
  {
    hide WithResources, ResourcesFor, SelectedAppsOf, SelectedClustersOf, Aggregated;
  }

  lemma OnResourcesSafe(s: State, key: Key)
    requires Safe(s) && s.step == SelectResources
    ensures Safe(OnResources(s, key).state) && OnResources(s, key).cmd != Crash
  {
    hide Scrolled, MoveTo, ResourcesChosen, ResourcesHeight, SetAll, ChooseIf, AllChosen, MarksOf;
    MoveOnRow(key, s.cursor, ResourcesHeight(s), |s.picks.res.list|);
    ResourcesChosenSafe(s);
  }

  lemma ResourcesChosenSafe(s: State)
    requires Safe(s) && s.step == SelectResources
    ensures Safe(ResourcesChosen(s).state) && ResourcesChosen(s).cmd != Crash
  {
    hide Scrolled, ResourcesFor, SelectedClustersOf, SelectedResourcesOf, Aggregated;
  }

  lemma OnActionSafe(s: State, key: Key)
    requires Safe(s) && s.step == SelectAction
    ensures Safe(OnAction(s, key).state) && OnAction(s, key).cmd != Crash
  {
    hide Toggled, RequestOf, StartView;
  }

  lemma OnConfirmSafe(s: State, key: Key)
    requires Safe(s) && s.step == Confirm
    ensures Safe(OnConfirm(s, key).state) && OnConfirm(s, key).cmd != Crash
  {
    hide RequestOf, StartView;
  }

  lemma OnDoneSafe(s: State, key: Key)
    requires Safe(s) && s.step == Done
    ensures Safe(OnDone(s, key).state) && OnDone(s, key).cmd != Crash
  {
  }

  lemma OnKeySafe(s: State, key: Key, typed: string)
    requires Safe(s)
    ensures Safe(OnKey(s, key, typed).state) && OnKey(s, key, typed).cmd != Crash
  {
    hide OnApps, OnClusters, OnResources, OnAction, OnConfirm, OnDone, Safe;
    match s.step
    case SelectApps => OnAppsSafe(s, key, typed);
    case SelectClusters => OnClustersSafe(s, key);
    case SelectResources => OnResourcesSafe(s, key);
    case SelectAction => OnActionSafe(s, key);
    case Confirm => OnConfirmSafe(s, key);
    case Done => OnDoneSafe(s, key);
    case Loading =>
    case Broken =>
    case Running =>
  }

  /** After a refresh the cursor is on a row of the application list; the other lists stay. */
  lemma RefreshedOnRow(s: State, load: Load)
    requires load.Loaded?
    ensures var t := OnRefresh(s, load);
            0 <= t.cursor && OnRow(t.cursor, |t.data.appKeys|)
            && t.step == s.step && t.cursor == RefreshedCursor(s, load)
            && t.picks == s.picks.(appSelected := t.picks.appSelected) && t.plan == s.plan
  {
    hide Filtered, Scrolled, Remaining, Fresh;
    RefreshFrame(s, load);
  }

  lemma OnRefreshSafe(s: State, load: Load)
    requires Safe(s)
    ensures Safe(OnRefresh(s, load)) <==> LandsSafely(s, RefreshDone(load))
  {
    hide RefreshedCursor;
    if load.Loaded? {
      hide OnRefresh;
      RefreshedOnRow(s, load);
    }
  }

  /** One message: from a safe state nothing crashes, and the next state is safe exactly if the message
      is not a refresh that takes the cursor off the list on the screen. */
  lemma StepSafe(s: State, m: Msg)
    requires Safe(s)
    ensures Step(s, m).cmd != Crash
    ensures Safe(Step(s, m).state) <==> LandsSafely(s, m)
  {
    hide OnKey, OnRefresh, OnProgress, Fresh, Scrolled;
    match m
    case Press(key, typed) => OnKeySafe(s, key, typed);
    case RefreshDone(load) => OnRefreshSafe(s, load);
    case _ =>
  }

  /** Every state and step of a run. */
  ghost predicate AllSafe(s: State, ms: seq<Msg>) {
    forall k :: 0 <= k <= |ms| ==> Safe(After(s, ms[..k]))
  }

  ghost predicate AllLandSafely(s: State, ms: seq<Msg>) {
    forall k :: 0 <= k < |ms| ==> LandsSafely(After(s, ms[..k]), ms[k])
  }

  ghost predicate NoCrash(s: State, ms: seq<Msg>) {
    forall k :: 0 <= k < |ms| ==> Step(After(s, ms[..k]), ms[k]).cmd != Crash
  }

  lemma AfterSnoc(s: State, ms: seq<Msg>, k: nat)
    requires k < |ms|
    ensures After(s, ms[..k + 1]) == Step(After(s, ms[..k]), ms[k]).state
  {
    assert ms[..k + 1][..k] == ms[..k];
  }

  lemma {:induction false} SafeUpTo(s: State, ms: seq<Msg>, k: nat)
    requires Safe(s) && k <= |ms| && forall j :: 0 <= j < k ==> LandsSafely(After(s, ms[..j]), ms[j])
    ensures Safe(After(s, ms[..k]))
    decreases k
  {
    hide Step, Safe, LandsSafely;
    if k > 0 {
      SafeUpTo(s, ms, k - 1);
      AfterSnoc(s, ms, k - 1);
      StepSafe(After(s, ms[..k - 1]), ms[k - 1]);
    } else {
      assert ms[..0] == [];
    }
  }

  /** Over all keys, resizes, loads, refreshes, progress and results: every state is safe exactly if no
      refresh takes the cursor off the list on the screen, and then nothing crashes. */
  lemma CursorSafety(cli: Cli, ms: seq<Msg>)
    ensures AllSafe(Initial(cli), ms) <==> AllLandSafely(Initial(cli), ms)
    ensures AllLandSafely(Initial(cli), ms) ==> NoCrash(Initial(cli), ms)
  {
    hide Step, LandsSafely, After;
    var s := Initial(cli);
    assert Safe(s);
    hide Safe;
    if AllLandSafely(s, ms) {
      forall k | 0 <= k <= |ms| ensures Safe(After(s, ms[..k])) {
        SafeUpTo(s, ms, k);
      }
      forall k | 0 <= k < |ms| ensures Step(After(s, ms[..k]), ms[k]).cmd != Crash {
        StepSafe(After(s, ms[..k]), ms[k]);
      }
    }
    if AllSafe(s, ms) {
      forall k | 0 <= k < |ms| ensures LandsSafely(After(s, ms[..k]), ms[k]) {
        AfterSnoc(s, ms, k);
        StepSafe(After(s, ms[..k]), ms[k]);
      }
    }
  }

  /** A refresh during the choice of clusters or of resources that lands off the list makes the next space
      crash, and only such a one does. */
  lemma SpaceAfterRefresh(s: State, load: Load, typed: string)
    requires Safe(s) && load.Loaded?
    ensures s.step == SelectClusters && s.picks.clusterNames != [] ==>
              (Step(Step(s, RefreshDone(load)).state, Press(Char(' '), typed)).cmd == Crash
               <==> RefreshedCursor(s, load) >= |s.picks.clusterNames|)
    ensures s.step == SelectResources && s.picks.res.list != [] ==>
              (Step(Step(s, RefreshDone(load)).state, Press(Char(' '), typed)).cmd == Crash
               <==> RefreshedCursor(s, load) >= |s.picks.res.list|)
  {
    hide RefreshedCursor, OnRefresh, MarkResources;
    RefreshedOnRow(s, load);
  }
}
