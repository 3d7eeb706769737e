/** The wizard and the bulk runner together: what was marked on the screens is what is synced, and what
    the last screen shows is what happened. */
module EndToEnd {
  import GoStrings
  import opened Models
  import opened Ordering
  import opened Resources
  import opened Targets
  import opened Worker
  import opened Execution
  import opened ResultOrder
  import opened Conservation
  import opened Refinement
  import opened Events
  import opened Trace
  import opened Summary
  import opened WizardSelection
  import WizardKeys
  import WizardSteps
  import Cancellation
  import Pool
  import Wizard

  /** What the runner makes of one target of a request (bulk.go:63-100). */
  function JobFor(r: Wizard.RunRequest, t: Target): Job {
    Job(t, t.clusterContext in r.clusterBy, MetaOf(r.inv, t.app, t.clusterContext), r.action, r.opts,
        Some(if t.app in r.resources then r.resources[t.app] else []))
  }

  ghost function JobsFor(r: Wizard.RunRequest): seq<Job> {
    seq(|TargetsFor(r)|, i requires 0 <= i < |TargetsFor(r)| => JobFor(r, TargetsFor(r)[i]))
  }

  /** The wizard, after the messages `ms`, starts a run on `m`. */
  ghost predicate Launches(cli: Wizard.Cli, ms: seq<Wizard.Msg>, m: Wizard.Msg) {
    AllCovered(ms) && Wizard.Step(Wizard.After(Wizard.Initial(cli), ms), m).cmd.Launch?
  }

  ghost function Launched(cli: Wizard.Cli, ms: seq<Wizard.Msg>, m: Wizard.Msg): Wizard.RunRequest
    requires Launches(cli, ms, m)
  {
    Wizard.Step(Wizard.After(Wizard.Initial(cli), ms), m).cmd.request
  }

  /** A run of the pool on the jobs of that request. */
  ghost predicate RunsOn(r: Wizard.RunRequest, cfg: Pool.Config, ls: seq<Pool.Label>) {
    cfg.jobs == JobsFor(r) && cfg.parallel > 0 && cfg.limit > 0 && Pool.Run(cfg, Pool.Initial(cfg), ls)
  }

  /** What the jobs of a request are, target by target. */
  lemma JobsMeaning(r: Wizard.RunRequest, i: nat)
    requires i < |JobsFor(r)|
    ensures |JobsFor(r)| == |TargetsFor(r)|
    ensures var job := JobsFor(r)[i];
            var t := TargetsFor(r)[i];
            job.target == t && job.action == r.action && job.opts == r.opts
            && t.app in r.apps && t.clusterContext in r.clusters
            && t.app in r.inv && t.clusterContext in r.inv[t.app] && job.meta == r.inv[t.app][t.clusterContext]
            && (job.clusterKnown <==> t.clusterContext in r.clusterBy)
            && (t.app in r.resources ==> job.selection == Some(r.resources[t.app]))
  {
    hide TargetsOf;
    TargetsExactly(r.inv, r.apps, r.clusters);
    assert TargetsFor(r)[i] in TargetsFor(r);
  }

  /** From the wizard, the runner never meets an unknown context or the same target twice; its jobs carry the
      request's action and options, and what was marked for each application; and with no new inventory since
      the clusters were chosen, it never finds itself without targets. */
  lemma LaunchedJobs(cli: Wizard.Cli, ms: seq<Wizard.Msg>, m: Wizard.Msg)
    requires Launches(cli, ms, m)
    ensures var r := Launched(cli, ms, m);
            var jobs := JobsFor(r);
            Distinct(TargetsOfJobs(jobs)) && TargetsOfJobs(jobs) == TargetsFor(r)
            && (forall i :: 0 <= i < |jobs| ==>
                  jobs[i].clusterKnown && jobs[i].action == r.action && jobs[i].opts == r.opts
                  && jobs[i].target.app in r.resources && jobs[i].selection == Some(r.resources[jobs[i].target.app]))
            && (Current(Wizard.Initial(cli), ms) ==> jobs != [])
  {
    hide Wizard.Step, Current, TargetsFor, JobFor;
    LaunchedTargets(cli, ms, m);
    var r := Launched(cli, ms, m);
    var jobs := JobsFor(r);
    forall i: nat | i < |jobs|
      ensures jobs[i].target == TargetsFor(r)[i] && jobs[i].clusterKnown && jobs[i].action == r.action && jobs[i].opts == r.opts
              && jobs[i].target.app in r.resources && jobs[i].selection == Some(r.resources[jobs[i].target.app])
    {
      JobsMeaning(r, i);
      assert TargetsFor(r)[i] in TargetsFor(r);
      LaunchedKeys(cli, ms, m, jobs[i].target.app);
    }
    assert TargetsOfJobs(jobs) == TargetsFor(r);
    if Current(Wizard.Initial(cli), ms) {
      LaunchedSelection(cli, ms, m);
    }
  }

  /** The request has a list of resources for each of its applications. */
  lemma LaunchedKeys(cli: Wizard.Cli, ms: seq<Wizard.Msg>, m: Wizard.Msg, a: AppKey)
    requires Launches(cli, ms, m) && a in Launched(cli, ms, m).apps
    ensures a in Launched(cli, ms, m).resources
  {
    hide Wizard.Step, Wizard.SelectedAppsOf, Wizard.SelectedClustersOf, Wizard.MarkedIn, AllCovered;
    LaunchIsRequest(Wizard.After(Wizard.Initial(cli), ms), m);
  }

  // ---- the action ----

  /** Every result of a launched run carries the action that was chosen. */
  lemma LaunchedResults(cli: Wizard.Cli, ms: seq<Wizard.Msg>, m: Wizard.Msg, cfg: Pool.Config, ls: seq<Pool.Label>, k: nat)
    requires Launches(cli, ms, m) && RunsOn(Launched(cli, ms, m), cfg, ls) && cfg.jobs != []
    requires var s := Pool.End(cfg, Pool.Initial(cfg), ls); s.returned.Some? && k < |s.returned.value|
    ensures Pool.End(cfg, Pool.Initial(cfg), ls).returned.value[k].action == Launched(cli, ms, m).action
  {
    hide Wizard.Step, TargetsFor, JobFor, AllCovered, Pool.Run;
    LaunchedJobs(cli, ms, m);
    ResultActions(cfg, ls, Launched(cli, ms, m).action);
  }

  /** A finished worker of a launched run makes a sync call only if the chosen action is a sync. If it is a refresh
      or a hard refresh, and the worker was not turned away, it makes exactly that one refresh call, and no
      other call. */
  lemma LaunchedCalls(cli: Wizard.Cli, ms: seq<Wizard.Msg>, m: Wizard.Msg, cfg: Pool.Config, ls: seq<Pool.Label>, i: nat)
    requires Launches(cli, ms, m) && RunsOn(Launched(cli, ms, m), cfg, ls) && i < |cfg.jobs|
    requires var s := Pool.End(cfg, Pool.Initial(cfg), ls); ResultOf(s, i).Some? && s.slots[i].Live?
    ensures var action := Launched(cli, ms, m).action;
            var h := Pool.End(cfg, Pool.Initial(cfg), ls).slots[i].history;
            (forall j :: 0 <= j < |h| && h[j].request.CallSync? ==> action == ActionSync)
            && (action in {ActionRefresh, ActionHardRefresh} && h != [TURNED_AWAY] ==>
                  |h| == 2 && h[0].request == CheckContext && h[1].request == CallRefresh(action == ActionHardRefresh))
  {
    hide Wizard.Step, TargetsFor, JobFor, AllCovered, Sentence, Ruling, Pool.Run, SyncOptions, NothingToSync;
    LaunchedJobs(cli, ms, m);
    FinishedTrace(cfg, ls, i);
    var job, h := cfg.jobs[i], Pool.End(cfg, Pool.Initial(cfg), ls).slots[i].history;
    SentenceCalls(job, h);
    if job.action in {ActionRefresh, ActionHardRefresh} && h != [TURNED_AWAY] {
      RefreshCallsExactly(job, h);
    }
  }

  /** What a sync request may carry: for an application with selectable resources a non-empty part of what
      was marked for it, all of it present in the target's cluster; otherwise the whole application. */
  ghost predicate Faithfully(r: Wizard.RunRequest, marks: map<AppKey, map<SyncResource, bool>>, t: Target, sent: RunOptions) {
    if ResourcesFor(r.inv, t.app, r.clusters) == [] then sent.resources == []
    else
      sent.resources != []
      && forall x :: x in sent.resources ==>
           t.app in marks && Wizard.Is(marks[t.app], x) && x in MetaOf(r.inv, t.app, t.clusterContext).resources
  }

  /** The options of a sync that is sent for a target of a request that is not widened. */
  lemma SentIsSelected(r: Wizard.RunRequest, marks: map<AppKey, map<SyncResource, bool>>, t: Target)
    requires NotWidened(r, marks) && t.app in r.apps && !NothingToSync(JobFor(r, t))
    ensures Faithfully(r, marks, t, SyncOptions(JobFor(r, t)))
    ensures SyncOptions(JobFor(r, t)) == r.opts.(resources := SyncOptions(JobFor(r, t)).resources)
  {
    hide ResourcesFor;
    assert forall x :: x in SyncOptions(JobFor(r, t)).resources ==> x in r.resources[t.app];
  }

  lemma TargetOfRequest(r: Wizard.RunRequest, i: nat)
    requires i < |JobsFor(r)|
    ensures var t := JobsFor(r)[i].target;
            JobsFor(r)[i] == JobFor(r, t) && t in TargetsFor(r) && t.app in r.apps
  {
    hide TargetsOf, JobFor;
    TargetsExactly(r.inv, r.apps, r.clusters);
    assert TargetsFor(r)[i] in TargetsFor(r);
    JobTarget(r, TargetsFor(r)[i]);
  }

  lemma JobTarget(r: Wizard.RunRequest, t: Target)
    ensures JobFor(r, t).target == t
  {
  }

  /** No widening, from the first key to the last API call: over every sequence of messages that starts a
      run with no new inventory since the clusters were chosen, and every interleaving, answer and
      cancellation of that run, each sync request of each finished target carries a non-empty part of
      what was marked for its application; only an application with nothing selectable in the chosen
      clusters is synced as a whole. */
  lemma NothingWidened(cli: Wizard.Cli, ms: seq<Wizard.Msg>, m: Wizard.Msg, cfg: Pool.Config, ls: seq<Pool.Label>, i: nat, j: nat)
    requires Launches(cli, ms, m) && Current(Wizard.Initial(cli), ms) && RunsOn(Launched(cli, ms, m), cfg, ls)
    requires var s := Pool.End(cfg, Pool.Initial(cfg), ls);
             i < |cfg.jobs| && ResultOf(s, i).Some? && s.slots[i].Live?
             && j < |s.slots[i].history| && s.slots[i].history[j].request.CallSync?
    ensures var s := Pool.End(cfg, Pool.Initial(cfg), ls);
            Faithfully(Launched(cli, ms, m), Wizard.After(Wizard.Initial(cli), ms).picks.res.marks, cfg.jobs[i].target,
                       s.slots[i].history[j].request.opts)
  {
    hide Wizard.Step, Sentence, Ruling, Faithfully, SyncOptions, NothingToSync, TargetsFor, JobFor, Current, AllCovered;
    var r := Launched(cli, ms, m);
    LaunchedJobs(cli, ms, m);
    FinishedTrace(cfg, ls, i);
    var s := Pool.End(cfg, Pool.Initial(cfg), ls);
    SentenceCalls(cfg.jobs[i], s.slots[i].history);
    TargetOfRequest(r, i);
    LaunchedSelection(cli, ms, m);
    SentIsSelected(r, Wizard.After(Wizard.Initial(cli), ms).picks.res.marks, cfg.jobs[i].target);
  }

  /** An application that was passed over in the resource step stays selected: unless it is turned away or
      its pre-refresh fails, each of its targets is synced as a whole. */
  lemma PassedOverIsSyncedWhole(r: Wizard.RunRequest, marks: map<AppKey, map<SyncResource, bool>>, t: Target, h: History)
    requires NotWidened(r, marks) && t.app in r.apps && ResourcesFor(r.inv, t.app, r.clusters) == []
    requires r.action == ActionSync && t.clusterContext in r.clusterBy && Sentence(JobFor(r, t), h)
    requires h != [TURNED_AWAY] && Prefix(JobFor(r, t)) <= h
    ensures var k := |Prefix(JobFor(r, t))|;
            k < |h| && h[k].request == CallSync(r.opts.(resources := []))
  {
    hide ResourcesFor, WaitSentence, IsOpInProgress;
    var job := JobFor(r, t);
    assert !NothingToSync(job);
    assert SyncOptions(job) == r.opts.(resources := []);
    var k := |Prefix(job)|;
    assert h[0] == ENTERED;
    if NeedsRefresh(job) {
      assert h[..k][1] == h[1];
      assert h[1..][1..] == h[k..];
    }
    assert SubmissionSentence(job, h[k..]);
  }

  // ---- what the screen shows ----

  /** The events among the messages, in order. */
  function Heard(ms: seq<Wizard.Msg>): seq<ProgressEvent> {
    if ms == [] then []
    else
      var m := ms[|ms| - 1];
      Heard(ms[..|ms| - 1]) + (if m.Progressed? then [m.ev] else [])
  }

  lemma {:induction false} StatusesSnoc(evs: seq<ProgressEvent>, e: ProgressEvent, from: map<Target, TaskStatus>)
    ensures Statuses(evs + [e], from) == Statuses(evs, from)[e.target := e.phase]
    decreases |evs|
  {
    if evs != [] {
      StatusesSnoc(evs[1..], e, from[evs[0].target := evs[0].phase]);
      assert (evs + [e])[1..] == evs[1..] + [e];
    }
  }

  /** "r" on the last screen: everything starts again. */
  predicate Restarts(s: Wizard.State, m: Wizard.Msg) {
    s.step == Wizard.Done && m.Press? && m.key == Wizard.Char('r')
  }

  /** Only events, a launch and a restart change the statuses on the screen. */
  lemma StatusesChange(s: Wizard.State, m: Wizard.Msg)
    ensures var t := Wizard.Step(s, m);
            m.Progressed? ==> t.state == s.(run := Wizard.OnProgress(s.run, m.ev))
                              && t.state.run.statuses == s.run.statuses[m.ev.target := m.ev.phase]
                              && t.state.run.targets == s.run.targets && t.state.run.results == s.run.results
    ensures var t := Wizard.Step(s, m);
            !m.Progressed? && !t.cmd.Launch? && !Restarts(s, m) ==>
              t.state.run == s.run.(results := if m.RunDone? then m.results else s.run.results)
  {
    hide Wizard.OnKey, Wizard.OnRefresh, Wizard.OnLoad, Wizard.Resized;
    if m.Press? {
      KeysKeepRun(s, m.key, m.typed);
    } else if m.RefreshDone? {
      Wizard.RefreshFrame(s, m.load);
    } else if m.LoadDone? || m.Resize? {
      LoadKeepsRun(s, m);
    }
  }

  lemma LoadKeepsRun(s: Wizard.State, m: Wizard.Msg)
    ensures m.LoadDone? ==> Wizard.OnLoad(s, m.load).run == s.run
    ensures m.Resize? ==> Wizard.Resized(s, m.height).run == s.run && Wizard.Resized(s, m.height).step == s.step
  {
    hide Wizard.Scrolled, Wizard.Fresh;
  }

  lemma KeysKeepRun(s: Wizard.State, key: Wizard.Key, typed: string)
    ensures var t := Wizard.OnKey(s, key, typed);
            !t.cmd.Launch? && !(s.step == Wizard.Done && key == Wizard.Char('r')) ==> t.state.run == s.run
  {
    hide Wizard.OnApps, Wizard.OnClusters, Wizard.OnResources, Wizard.RequestOf, Wizard.Planned, Wizard.StartView, Wizard.Reset;
    AppsKeepRun(s, key, typed);
    ListsKeepRun(s, key);
  }

  lemma AppsKeepRun(s: Wizard.State, key: Wizard.Key, typed: string)
    ensures Wizard.OnApps(s, key, typed).state.run == s.run
  {
    hide Wizard.Scrolled, Wizard.MoveTo, Wizard.MarkApps, Wizard.Typed, Wizard.AppsHeight, Wizard.Filtered;
    hide Wizard.SelectedAppsOf, Wizard.FirstUnknown;
    Wizard.FilteredFrame(s.(view := Wizard.Typed(s.view, key, typed)));
    Wizard.FilteredFrame(s.(view := s.view.(filter := "")));
  }

  lemma ListsKeepRun(s: Wizard.State, key: Wizard.Key)
    ensures Wizard.OnClusters(s, key).state.run == s.run && Wizard.OnResources(s, key).state.run == s.run
  {
    hide Wizard.Scrolled, Wizard.MoveTo, Wizard.ClustersHeight, Wizard.SetAll, Wizard.AllChosen, Wizard.WithResources;
    hide Wizard.Opened, Wizard.SelectedAppsOf, Wizard.SelectedClustersOf, Wizard.ResourcesHeight, Wizard.MarkResources;
    hide Wizard.SelectedResourcesOf;
  }

  predicate Showing(step: Wizard.Stage) {
    step == Wizard.Running || step == Wizard.Done
  }

  /** While a run is on the screen: keys, resizes and refreshes change neither the step nor what is shown of
      the run; its end leads to the last screen. */
  lemma ShowingStep(s: Wizard.State, m: Wizard.Msg)
    requires Showing(s.step) && !m.LoadDone? && !Restarts(s, m) && (m.RunDone? ==> m.err != Some(Wizard.OtherRunErr))
    ensures var t := Wizard.Step(s, m);
            t.state.step == (if m.RunDone? then Wizard.Done else s.step) && !t.cmd.Launch?
  {
    hide Wizard.OnRefresh, Wizard.Resized, Wizard.OnProgress, Wizard.Reset;
    if m.RefreshDone? {
      Wizard.RefreshFrame(s, m.load);
    } else if m.Resize? {
      LoadKeepsRun(s, m);
    }
  }

  /** The messages that can follow a launch until the next one: anything but a first load, a restart and a
      refused run. */
  ghost predicate Follows(start: Wizard.State, ms: seq<Wizard.Msg>) {
    forall k :: 0 <= k < |ms| ==>
      !ms[k].LoadDone? && !Restarts(Wizard.After(start, ms[..k]), ms[k])
      && (ms[k].RunDone? ==> ms[k].err != Some(Wizard.OtherRunErr))
  }

  /** The results that came last, or those there were. */
  function LastResults(ms: seq<Wizard.Msg>, was: seq<Result>): seq<Result> {
    if ms == [] then was
    else if ms[|ms| - 1].RunDone? then ms[|ms| - 1].results
    else LastResults(ms[..|ms| - 1], was)
  }

  /** However the events of a run are interleaved with its end, with keys, resizes and refreshes: each target
      shows its last event, and the last screen is up exactly once the run's end has been processed. */
  lemma {:induction false} WizardShowsStatuses(start: Wizard.State, ms: seq<Wizard.Msg>)
    requires Showing(start.step) && Follows(start, ms)
    ensures var t := Wizard.After(start, ms);
            t.run.statuses == Statuses(Heard(ms), start.run.statuses) && t.run.targets == start.run.targets
            && t.run.results == LastResults(ms, start.run.results) && Showing(t.step)
            && (t.step == Wizard.Done <==> start.step == Wizard.Done || Ends(ms))
    decreases |ms|
  {
    hide Wizard.Step, Statuses;
    if ms == [] {
      assert Statuses([], start.run.statuses) == start.run.statuses by { NoEvents(start.run.statuses); }
    } else {
      var n := |ms| - 1;
      FollowsPrefix(start, ms);
      WizardShowsStatuses(start, ms[..n]);
      var s := Wizard.After(start, ms[..n]);
      StatusesChange(s, ms[n]);
      ShowingStep(s, ms[n]);
      if ms[n].Progressed? {
        StatusesSnoc(Heard(ms[..n]), ms[n].ev, start.run.statuses);
      } else {
        assert Heard(ms) == Heard(ms[..n]) + [] == Heard(ms[..n]);
      }
      EndsSnoc(ms);
    }
  }

  lemma NoEvents(from: map<Target, TaskStatus>)
    ensures Statuses([], from) == from
  {
  }

  lemma FollowsPrefix(start: Wizard.State, ms: seq<Wizard.Msg>)
    requires ms != [] && Follows(start, ms)
    ensures Follows(start, ms[..|ms| - 1])
  {
    hide Wizard.After, Restarts;
    var n := |ms| - 1;
    forall k | 0 <= k < n
      ensures !ms[..n][k].LoadDone? && !Restarts(Wizard.After(start, ms[..n][..k]), ms[..n][k])
              && (ms[..n][k].RunDone? ==> ms[..n][k].err != Some(Wizard.OtherRunErr))
    {
      assert ms[..n][..k] == ms[..k] && ms[..n][k] == ms[k];
    }
  }

  /** The end of the run is among the messages. */
  predicate Ends(ms: seq<Wizard.Msg>) {
    exists k :: 0 <= k < |ms| && ms[k].RunDone?
  }

  lemma EndsSnoc(ms: seq<Wizard.Msg>)
    requires ms != []
    ensures Ends(ms) <==> ms[|ms| - 1].RunDone? || Ends(ms[..|ms| - 1])
  {
    var n := |ms| - 1;
    if k :| 0 <= k < n && ms[..n][k].RunDone? {
      assert ms[k].RunDone?;
    }
    if k :| 0 <= k < |ms| && ms[k].RunDone? && k != n {
      assert ms[..n][k].RunDone?;
    }
  }

  /** One message with the results `rs` and no error among the messages, and no other results. */
  predicate EndsOnce(ms: seq<Wizard.Msg>, rs: seq<Result>) {
    Ends(ms)
    && forall k :: 0 <= k < |ms| && ms[k].RunDone? ==> ms[k].results == rs && ms[k].err.None?
  }

  lemma {:induction false} ResultsOfEnd(ms: seq<Wizard.Msg>, rs: seq<Result>, was: seq<Result>)
    requires forall k :: 0 <= k < |ms| && ms[k].RunDone? ==> ms[k].results == rs
    ensures Ends(ms) ==> LastResults(ms, was) == rs
    decreases |ms|
  {
    if ms != [] {
      assert forall k :: 0 <= k < |ms| - 1 ==> ms[..|ms| - 1][k] == ms[k];
      ResultsOfEnd(ms[..|ms| - 1], rs, was);
      EndsSnoc(ms);
    }
  }

  /** The screen right after a launch: all targets pending. */
  lemma LaunchedView(s: Wizard.State, m: Wizard.Msg)
    requires Wizard.Step(s, m).cmd.Launch?
    ensures var t := Wizard.Step(s, m);
            t.state.run == Wizard.StartView(t.cmd.request.inv, TargetsFor(t.cmd.request)) && t.state.step == Wizard.Running
  {
    hide Wizard.OnApps, Wizard.OnClusters, Wizard.OnResources, Wizard.OnDone, Wizard.RequestOf, Wizard.Planned, Wizard.StartView, TargetsOf;
    if m.Press? {
      NoOtherLaunch(s, m.key, m.typed);
    }
  }

  /** The targets of a launched run are sorted as its results are. */
  lemma LaunchedOrder(cli: Wizard.Cli, ms: seq<Wizard.Msg>, m: Wizard.Msg)
    requires Launches(cli, ms, m)
    ensures Targets.InOrder(TargetsFor(Launched(cli, ms, m)))
  {
    hide Wizard.Step, Steady, Wizard.RequestOf, TargetsOf, Targets.InOrder, AllCovered;
    var s := Wizard.After(Wizard.Initial(cli), ms);
    RunSteady(cli, ms);
    LaunchIsRequest(s, m);
    WizardSteps.RequestMeaning(s);
    SelectedSorted(s);
    var r := Wizard.RequestOf(s);
    RequestClusters(s);
    TargetsSorted(r.inv, r.apps, r.clusters);
  }

  lemma RequestClusters(s: Wizard.State)
    ensures Wizard.RequestOf(s).clusters == Wizard.SelectedClustersOf(s)
  {
    hide Wizard.SelectedAppsOf, Wizard.SelectedClustersOf, Wizard.MarkedIn;
  }

  lemma SelectedSorted(s: Wizard.State)
    requires Steady(s)
    ensures Sorted(Wizard.SelectedClustersOf(s))
  {
    hide Wizard.Chosen, GoStrings.Less;
    WizardKeys.ChosenAscends(s.picks.clusterNames, s.picks.clSelected, GoStrings.Less);
  }

  /** The result list of a launched run is about its targets, one by one, in the order in which the screen shows them. */
  lemma ResultsInTargetOrder(cli: Wizard.Cli, ms: seq<Wizard.Msg>, m: Wizard.Msg, rs: seq<Result>, cfg: Pool.Config, ls: seq<Pool.Label>)
    requires Launches(cli, ms, m) && RunsOn(Launched(cli, ms, m), cfg, ls) && cfg.jobs != []
    requires Pool.End(cfg, Pool.Initial(cfg), ls).returned == Some(rs) && ByClusterThenApp(rs)
    ensures TargetsOfResults(rs) == TargetsFor(Launched(cli, ms, m))
  {
    hide Wizard.Step, TargetsFor, JobFor, AllCovered, Pool.Run, GoStrings.Less, TargetsOfResults;
    LaunchedJobs(cli, ms, m);
    LaunchedOrder(cli, ms, m);
    EveryTargetOnce(cfg, ls);
    ResultTargets(rs);
    SameOrder(TargetsOfResults(rs), TargetsFor(Launched(cli, ms, m)));
  }

  lemma {:induction false} ResultTargets(rs: seq<Result>)
    ensures |TargetsOfResults(rs)| == |rs| && forall k :: 0 <= k < |rs| ==> TargetsOfResults(rs)[k] == rs[k].target
  {
    if rs != [] { ResultTargets(rs[1..]); }
  }

  predicate TargetLess(a: Target, b: Target) {
    GoStrings.Less(a.clusterContext, b.clusterContext)
    || (a.clusterContext == b.clusterContext && GoStrings.Less(a.app.name, b.app.name))
  }

  lemma TargetLessStrict()
    ensures StrictOrder(TargetLess)
  {
    hide GoStrings.Less;
    LessOrders();
  }

  lemma SameOrder(a: seq<Target>, b: seq<Target>)
    requires Targets.InOrder(a) && Targets.InOrder(b) && multiset(a) == multiset(b)
    ensures a == b
  {
    hide GoStrings.Less;
    TargetLessStrict();
    assert Ascending(a, TargetLess) && Ascending(b, TargetLess);
    forall x ensures x in a <==> x in b {
      assert x in a <==> x in multiset(a);
      assert x in b <==> x in multiset(b);
    }
    AscendingUnique(a, b, TargetLess);
  }

  /** From launch to the last screen of an uncancelled run. After the launch come, in any interleaving, the
      events of the run in order, its end, and any keys, resizes and refreshes short of a restart. Then the
      last screen is up with the sorted sequential outcomes as results, each target shows its result except
      on the skip path, and the counts are those of the results, with exactly the targets on the skip path
      left as pending. */
  lemma LastScreen(cli: Wizard.Cli, ms: seq<Wizard.Msg>, m: Wizard.Msg, cfg: Pool.Config, os: seq<Oracle>, ls: seq<Pool.Label>,
                   after: seq<Wizard.Msg>)
    requires Launches(cli, ms, m) && JobsFor(Launched(cli, ms, m)) != []
    requires RunsOn(Launched(cli, ms, m), cfg, ls) && cfg.listening
    requires Fits(cfg, os) && Faithful(cfg, os, Pool.Initial(cfg), ls) && Pool.Final(Pool.End(cfg, Pool.Initial(cfg), ls))
    requires var end := Pool.End(cfg, Pool.Initial(cfg), ls);
             Follows(Wizard.Step(Wizard.After(Wizard.Initial(cli), ms), m).state, after)
             && Heard(after) == end.shown && EndsOnce(after, end.returned.value)
    ensures var start := Wizard.Step(Wizard.After(Wizard.Initial(cli), ms), m).state;
            var t := Wizard.After(start, after);
            var c := CountsOf(t.run.targets, t.run.statuses);
            var rs := SortResults(SequentialResults(cfg.jobs, os));
            t.step == Wizard.Done && t.run.results == rs
            && ByClusterThenApp(rs) && TargetsOfResults(rs) == t.run.targets
            && (forall k :: 0 <= k < |rs| ==> rs[k].action == Launched(cli, ms, m).action)
            && Shown(cfg.jobs, os, t.run.statuses)
            && c.failed == Ended(rs, TaskFailed) && c.cancelled == Ended(rs, TaskCancelled)
            && c.success + c.pending == Ended(rs, TaskSuccess) && c.pending == Skips(cfg.jobs, os)
  {
    hide Wizard.Step, Wizard.After, Fits, Faithful, Alone, Skipped, SequentialResults, SortResults, TargetsFor, AllCovered;
    hide CountsOf, Statuses, Pool.Run, Ended, Heard, Follows, ByClusterThenApp, TargetsOfResults, JobFor;
    var r := Launched(cli, ms, m);
    var start := Wizard.Step(Wizard.After(Wizard.Initial(cli), ms), m).state;
    LaunchedJobs(cli, ms, m);
    RunIsSortedMap(cfg, os, ls);
    var end := Pool.End(cfg, Pool.Initial(cfg), ls);
    LaunchedView(Wizard.After(Wizard.Initial(cli), ms), m);
    WizardShowsStatuses(start, after);
    ResultsOfEnd(after, end.returned.value, start.run.results);
    AllPending(r, start.run);
    StatusesShown(cfg, os, ls, start.run.statuses);
    RunIsSequential(cfg, os, ls);
    CountsMatchResults(cfg.jobs, os, Statuses(end.shown, start.run.statuses), end.returned.value);
    ResultActions(cfg, ls, r.action);
    ResultsInTargetOrder(cli, ms, m, end.returned.value, cfg, ls);
  }

  lemma AllPending(r: Wizard.RunRequest, run: Wizard.RunView)
    requires run == Wizard.StartView(r.inv, TargetsFor(r))
    ensures run.targets == TargetsFor(r) == TargetsOfJobs(JobsFor(r))
    ensures forall i :: 0 <= i < |JobsFor(r)| ==> JobsFor(r)[i].target in run.statuses
  {
    hide TargetsFor, Wizard.BeforeOf;
    assert TargetsOfJobs(JobsFor(r)) == TargetsFor(r);
  }

  lemma StatusesShown(cfg: Pool.Config, os: seq<Oracle>, ls: seq<Pool.Label>, from: map<Target, TaskStatus>)
    requires Pool.Proper(cfg) && Fits(cfg, os) && Faithful(cfg, os, Pool.Initial(cfg), ls) && Pool.Run(cfg, Pool.Initial(cfg), ls)
    requires Distinct(TargetsOfJobs(cfg.jobs)) && cfg.listening && Pool.Final(Pool.End(cfg, Pool.Initial(cfg), ls))
    requires forall i :: 0 <= i < |cfg.jobs| ==> cfg.jobs[i].target in from
    ensures Shown(cfg.jobs, os, Statuses(Pool.End(cfg, Pool.Initial(cfg), ls).shown, from))
  {
    hide Faithful, Alone, Skipped, Statuses, Pool.Run, Pool.Final, TargetsOfJobs;
    forall i: nat | i < |cfg.jobs|
      ensures var m := Statuses(Pool.End(cfg, Pool.Initial(cfg), ls).shown, from);
              cfg.jobs[i].target in m
              && m[cfg.jobs[i].target] == if Skipped(cfg.jobs[i], os[i]) then TaskRunning else Alone(cfg.jobs[i], os[i]).res.status
    {
      StatusesAgree(cfg, os, ls, from, i);
    }
  }

  // ---- how the run ends in the wizard ----

  /** The runner's error as the wizard tells it apart: the root context has no deadline, so its error is a
      cancellation. */
  function Reported(err: Option<Err>): Option<Wizard.RunErr> {
    if err.None? then None else if err.value == ContextError then Some(Wizard.Canceled) else Some(Wizard.OtherRunErr)
  }

  /** Whatever happened in the run, cancelled or not, its results lead to the last screen and never to the
      error screen, and the results there are those of the runner. */
  lemma RunEndsDone(s: Wizard.State, cfg: Pool.Config, ls: seq<Pool.Label>)
    requires Pool.Proper(cfg) && Pool.Run(cfg, Pool.Initial(cfg), ls) && Pool.End(cfg, Pool.Initial(cfg), ls).returned.Some?
    ensures var end := Pool.End(cfg, Pool.Initial(cfg), ls);
            var t := Wizard.Step(s, Wizard.RunDone(end.returned.value, Reported(end.groupErr))).state;
            t.step == Wizard.Done && t.run == s.run.(results := end.returned.value) && t.refreshing
  {
    hide Inv, Histories, Pool.Run;
    Cancellation.Reachable(cfg, ls);
  }

  /** An observation of the waiting loop, as the last screen shows it: phase, sync and health status each in its
      place, "Unknown" where the observation has none. */
  lemma ObservationShown(s: Wizard.State, job: Job, w: Waiting, st: Application)
    requires GoStrings.NoSpace(st.operationPhase) && GoStrings.NoSpace(st.syncStatus) && GoStrings.NoSpace(st.healthStatus)
    ensures RequestAt(job, AtReport(w, st)).Emit?
    ensures var after := Wizard.Step(s, Wizard.Progressed(RequestAt(job, AtReport(w, st)).ev)).state.run.after;
            job.target in after
            && after[job.target].operationPhase == (if st.operationPhase == "" then "Unknown" else st.operationPhase)
            && after[job.target].syncStatus == (if st.syncStatus == "" then "Unknown" else st.syncStatus)
            && after[job.target].healthStatus == (if st.healthStatus == "" then "Unknown" else st.healthStatus)
  {
    hide Wizard.Step, SyncOptions;
    EmissionMeaning(job, AtReport(w, st));
    WizardSteps.ReportShown(s, RequestAt(job, AtReport(w, st)).ev);
  }
}
