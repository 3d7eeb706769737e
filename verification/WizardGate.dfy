/** Confirmation (internal/tui/tui.go:753-851): no run with risky flags starts without a "y", and it
    starts with the very options that were on the screen. */
module WizardGate {
  import opened Models
  import opened Targets
  import opened Wizard
  import opened WizardSelection

  ghost predicate Guarded(s: State) {
    !(s.plan.opts.preRefresh && s.plan.opts.preHardRefresh)
    && (s.step == Confirm ==> s.plan.action == ActionSync && (s.plan.opts.prune || s.plan.opts.force))
  }

  predicate Confirms(m: Msg) {
    m.Press? && (m.key == Char('y') || m.key == Char('Y'))
  }

  /** A run starts in exactly two ways: "enter" on an action without risky flags, or "y" in the
      confirmation; and the step is "running" afterwards exactly if it was before or a run starts. */
  lemma LaunchCause(s: State, m: Msg)
    ensures var t := Step(s, m);
            (t.cmd.Launch? <==>
               (s.step == Confirm && Confirms(m))
               || (s.step == SelectAction && m.Press? && m.key == Enter && 0 <= s.plan.actionIdx < |ACTIONS|
                   && !(s.plan.actionIdx == 0 && (s.plan.opts.prune || s.plan.opts.force))))
            && (t.cmd.Launch? ==> t.state.step == Running)
            && (t.state.step == Running && s.step != Running ==> t.cmd.Launch?)
  {
    hide OnApps, OnClusters, OnResources, OnDone, RequestOf, Planned, StartView, OnProgress, Scrolled, Fresh, Filtered;
    if m.Press? {
      NoOtherLaunch(s, m.key, m.typed);
      NoOtherRunning(s, m.key, m.typed);
      LowerY(m.key);
    } else if m.RefreshDone? {
      RefreshFrame(s, m.load);
    }
  }

  lemma LowerY(key: Key)
    ensures Lower(key) == Char('y') <==> key == Char('y') || key == Char('Y')
  {
  }

  /** The selection steps lead neither to the confirmation nor to a run, and do not touch the options. */
  lemma NoOtherRunning(s: State, key: Key, typed: string)
    ensures var t := OnApps(s, key, typed).state; t.plan == s.plan && (t.step != s.step ==> t.step == SelectClusters || t.step == Broken)
    ensures var t := OnClusters(s, key).state;
            t.plan == s.plan && (t.step != s.step ==> t.step == SelectApps || t.step == SelectResources || t.step == Broken)
    ensures var t := OnResources(s, key).state;
            t.plan == s.plan && (t.step != s.step ==> t.step == SelectClusters || t.step == SelectAction)
    ensures var t := OnDone(s, key).state;
            (t.plan == s.plan || t.plan == FirstPlan(s.cli)) && (t.step != s.step ==> t.step == SelectApps)
  {
    AppsPlan(s, key, typed);
    ClustersPlan(s, key);
    ResourcesPlan(s, key);
  }

  lemma AppsPlan(s: State, key: Key, typed: string)
    ensures var t := OnApps(s, key, typed).state; t.plan == s.plan && (t.step != s.step ==> t.step == SelectClusters || t.step == Broken)
  {
    hide Scrolled, MoveTo, MarkApps, Typed, AppsHeight, Filtered, SelectedAppsOf, FirstUnknown;
    FilteredFrame(s.(view := Typed(s.view, key, typed)));
    FilteredFrame(s.(view := s.view.(filter := "")));
  }

  lemma ClustersPlan(s: State, key: Key)
    ensures var t := OnClusters(s, key).state;
            t.plan == s.plan && (t.step != s.step ==> t.step == SelectApps || t.step == SelectResources || t.step == Broken)
  {
    hide Scrolled, MoveTo, ClustersHeight, SetAll, AllChosen, WithResources, Opened, SelectedAppsOf, SelectedClustersOf;
  }

  lemma ResourcesPlan(s: State, key: Key)
    ensures var t := OnResources(s, key).state;
            t.plan == s.plan && (t.step != s.step ==> t.step == SelectClusters || t.step == SelectAction)
  {
    hide Scrolled, MoveTo, ResourcesHeight, MarkResources, Opened, SelectedResourcesOf, SelectedClustersOf;
  }

  lemma KeyGuarded(s: State, key: Key, typed: string)
    requires Guarded(s)
    ensures Guarded(OnKey(s, key, typed).state)
  {
    hide OnApps, OnClusters, OnResources, OnDone, OnAction;
    NoOtherRunning(s, key, typed);
    ActionGuarded(s, key);
    NotBoth(s.cli);
    ConfirmGuarded(s, key);
  }

  lemma NotBoth(cli: Cli)
    ensures !FirstPlan(cli).opts.preRefresh && FirstPlan(cli).action == ActionSync && !FirstPlan(cli).opts.prune
  {
  }

  lemma ActionGuarded(s: State, key: Key)
    requires Guarded(s)
    ensures s.step == SelectAction ==> Guarded(OnAction(s, key).state)
  {
    hide RequestOf, StartView, Planned;
    PlannedNotBoth(s.plan, key);
  }

  /** Setting one of the two pre-refresh options clears the other. */
  lemma PlannedNotBoth(plan: Plan, key: Key)
    requires !(plan.opts.preRefresh && plan.opts.preHardRefresh)
    ensures !(Planned(plan, key).opts.preRefresh && Planned(plan, key).opts.preHardRefresh)
  {
    hide Toggled;
    ToggledNotBoth(plan.opts, key);
  }

  lemma ToggledNotBoth(o: RunOptions, key: Key)
    requires !(o.preRefresh && o.preHardRefresh)
    ensures !(Toggled(o, key).preRefresh && Toggled(o, key).preHardRefresh)
  {
    hide ToggledRefresh;
    RefreshNotBoth(o, key == Char('h'));
  }

  lemma RefreshNotBoth(o: RunOptions, hard: bool)
    requires !(o.preRefresh && o.preHardRefresh)
    ensures !(ToggledRefresh(o, hard).preRefresh && ToggledRefresh(o, hard).preHardRefresh)
  {
  }

  lemma ConfirmGuarded(s: State, key: Key)
    ensures OnConfirm(s, key).state.plan == s.plan
    ensures OnConfirm(s, key).state.step in {s.step, Running, SelectAction}
  {
    hide RequestOf, StartView;
  }

  lemma StepGuarded(s: State, m: Msg)
    requires Guarded(s)
    ensures Guarded(Step(s, m).state)
  {
    hide OnKey, OnRefresh, OnProgress, Scrolled, Fresh, Guarded;
    match m
    case Press(key, typed) => KeyGuarded(s, key, typed);
    case RefreshDone(load) => RefreshFrame(s, load); SamePlan(s, OnRefresh(s, load));
    case _ => SamePlan(s, Step(s, m).state);
  }

  lemma SamePlan(s: State, t: State)
    requires t.plan == s.plan && (t.step == s.step || t.step != Confirm) && Guarded(s)
    ensures Guarded(t)
  {
  }

  /** In every state of every run, at most one of the two pre-refresh options is set, and the
      confirmation is on the screen only for a sync with risky flags. */
  lemma {:induction false} AlwaysGuarded(cli: Cli, ms: seq<Msg>)
    ensures Guarded(After(Initial(cli), ms))
    decreases |ms|
  {
    hide Step;
    if ms != [] {
      AlwaysGuarded(cli, ms[..|ms| - 1]);
      StepGuarded(After(Initial(cli), ms[..|ms| - 1]), ms[|ms| - 1]);
    }
  }

  /** While the confirmation stays on the screen nothing changes the plan; it is entered only from the
      choice of the action, with "enter". */
  lemma ConfirmEntered(s: State, m: Msg)
    requires Step(s, m).state.step == Confirm
    ensures if s.step == Confirm then Step(s, m).state.plan == s.plan
            else s.step == SelectAction && m.Press? && m.key == Enter && Step(s, m).state.plan.opts == s.plan.opts
  {
    hide OnApps, OnClusters, OnResources, OnDone, OnRefresh, RequestOf, Planned, StartView, OnProgress, Scrolled, Fresh;
    if m.Press? {
      NoOtherRunning(s, m.key, m.typed);
    } else if m.RefreshDone? {
      RefreshFrame(s, m.load);
    }
  }

  /** From message number `k` on, the confirmation has been on the screen with this plan. */
  ghost predicate ShownSince(s: State, ms: seq<Msg>, k: nat, plan: Plan) {
    k < |ms| && After(s, ms[..k]).step == SelectAction && ms[k].Press? && ms[k].key == Enter
    && forall i :: k < i <= |ms| ==> After(s, ms[..i]).step == Confirm && After(s, ms[..i]).plan == plan
  }

  lemma {:induction false} ConfirmationShown(cli: Cli, ms: seq<Msg>) returns (k: nat)
    requires After(Initial(cli), ms).step == Confirm
    ensures ShownSince(Initial(cli), ms, k, After(Initial(cli), ms).plan)
    decreases |ms|
  {
    hide Step;
    var s := Initial(cli);
    var n := |ms| - 1;
    assert ms != [];
    assert ms[..n + 1] == ms;
    ConfirmEntered(After(s, ms[..n]), ms[n]);
    if After(s, ms[..n]).step == Confirm {
      k := ConfirmationShown(cli, ms[..n]);
      assert forall i :: 0 <= i <= n ==> ms[..n][..i] == ms[..i];
    } else {
      k := n;
    }
  }

  /** Every launch of a sync with prune or force is a "y" in a confirmation that has been on the screen
      since an "enter" on the action, with the options of the request all that time. */
  lemma RiskyRunsAreConfirmed(cli: Cli, ms: seq<Msg>, m: Msg) returns (k: nat)
    requires Step(After(Initial(cli), ms), m).cmd.Launch?
    requires var r := Step(After(Initial(cli), ms), m).cmd.request; r.action == ActionSync && (r.opts.prune || r.opts.force)
    ensures Confirms(m)
    ensures var r := Step(After(Initial(cli), ms), m).cmd.request;
            k < |ms| && ShownSince(Initial(cli), ms, k, After(Initial(cli), ms).plan)
            && After(Initial(cli), ms).plan.action == r.action && After(Initial(cli), ms).plan.opts == r.opts
  {
    hide Step, ShownSince;
    var s := After(Initial(cli), ms);
    LaunchCause(s, m);
    LaunchPlan(s, m);
    k := ConfirmationShown(cli, ms);
    Shown(Initial(cli), ms, k, s.plan);
  }

  lemma Shown(s: State, ms: seq<Msg>, k: nat, plan: Plan)
    requires ShownSince(s, ms, k, plan)
    ensures k < |ms|
  {
  }

  /** The action and the options of a request are those of the state. */
  lemma LaunchPlan(s: State, m: Msg)
    requires Step(s, m).cmd.Launch?
    ensures var r := Step(s, m).cmd.request;
            r.opts == s.plan.opts
            && r.action == (if s.step == Confirm then s.plan.action
                            else if 0 <= s.plan.actionIdx < |ACTIONS| then ACTIONS[s.plan.actionIdx] else ActionSync)
  {
    hide OnApps, OnClusters, OnResources, Planned, StartView, OnDone, MarkedIn, TargetsOf;
    if m.Press? {
      NoOtherLaunch(s, m.key, m.typed);
    }
  }
}
