/** The worker closure as it is written (internal/services/bulk.go:54-149), without a cancellation
    after its entry: one error variable, options updated in place, events in order. */
module TargetRun {
  import opened Models
  import opened Worker
  import opened Execution
  import opened WaitLoop

  /** filterResourceForTarget */
  method FilterResourceForTarget(listed: seq<SyncResource>, selected: seq<SyncResource>)
    returns (out: seq<SyncResource>)
    ensures out == FilterResources(listed, selected)
    ensures forall x :: x in out <==> x in listed && x in selected
  {
    out := [];
    if listed == [] || selected == [] {
      NothingListed(selected);
      return;
    }
    var allowed := set r | r in listed;
    for i := 0 to |selected|
      invariant out == FilterResources(listed, selected[..i])
    {
      FilterDistributes(listed, selected[..i], [selected[i]]);
      FilterOne(listed, selected[i]);
      assert selected[..i + 1] == selected[..i] + [selected[i]];
      if selected[i] in allowed {
        out := out + [selected[i]];
      }
    }
    assert selected[..|selected|] == selected;
  }

  lemma {:induction false} NothingListed(selected: seq<SyncResource>)
    ensures FilterResources([], selected) == []
  {
    if selected != [] { NothingListed(selected[1..]); }
  }

  /** A target whose context is done at its entry. */
  function TurnedAway(job: Job): Ending {
    var e := Some(ContextError);
    Ending([Event(job, TaskCancelled, NoMessage, e)], Outcome(job, TaskCancelled, e), e)
  }

  /** The process of `Worker` agrees. */
  lemma TurnedAwayByProcess(o: Oracle, limit: nat, job: Job)
    requires |o.polls| < limit
    ensures Execute(o, limit, job, Next(job, AtEntry, ContextDone)) == TurnedAway(job)
  {
    ExecuteTerminal(o, limit, job, Outcome(job, TaskCancelled, Some(ContextError)), Some(ContextError));
  }

  /** Runs one target to its end; `done` tells whether its context is done at the entry. */
  method RunTarget(job: Job, env: Env, done: bool) returns (events: seq<ProgressEvent>, res: Result, ret: Option<Err>)
    requires job.action == ActionSync && job.opts.wait ==>
               job.opts.pollInterval >= 0 && HonoursDeadline(TimesOf(job.opts), env)
    ensures Ending(events, res, ret) == if done then TurnedAway(job) else Alone(job, OracleOf(TimesOf(job.opts), env))
  {
    hide Round, WaitEvents, HonoursDeadline, SyncAttempt;
    ret := None;
    if done {
      var e := Some(ContextError);
      return [Event(job, TaskCancelled, NoMessage, e)], Outcome(job, TaskCancelled, e), e;
    }
    if !job.clusterKnown {
      var e := Some(UnknownCluster(job.target.clusterContext));
      return [Event(job, TaskFailed, NoMessage, e)], Outcome(job, TaskFailed, e), None;
    }
    events := [Running(job, NoMessage)];
    var err: Option<Err>;
    match job.action {
      case ActionRefresh => err := env.refresh;
      case ActionHardRefresh => err := env.refresh;
      case ActionSync =>
        var more, e, skipped := RunSync(job, env);
        events := events + more;
        err := e;
        if skipped {
          res := Outcome(job, TaskSuccess, None);
          return;
        }
      case ActionOther(_) => err := Some(UnsupportedAction(job.action));
    }
    var status := if err.None? then TaskSuccess else if IsContextError(err.value) then TaskCancelled else TaskFailed;
    events := events + [Event(job, status, NoMessage, err)];
    res := Outcome(job, status, err);
  }

  /** The sync branch: its events, the error variable after it, and whether the closure returned on
      the skip path. */
  method RunSync(job: Job, env: Env) returns (events: seq<ProgressEvent>, err: Option<Err>, skipped: bool)
    requires job.action == ActionSync
    requires job.opts.wait ==> job.opts.pollInterval >= 0 && HonoursDeadline(TimesOf(job.opts), env)
    ensures Attempt(events, err, skipped) == SyncAttempt(job, OracleOf(TimesOf(job.opts), env))
  {
    hide SyncCall, NothingToSync, Announced, SyncOptions, HonoursDeadline;
    events, skipped := [], false;
    err := PreRefresh(job, env);
    if err.Some? {
      return;
    }
    var syncOpts;
    events, syncOpts, skipped := Announce(job);
    if skipped {
      return;
    }
    var more;
    more, err := SubmitSync(job, syncOpts, env);
    events := events + more;
  }

  /** The refresh before a sync: a hard one overrides a normal one. */
  method PreRefresh(job: Job, env: Env) returns (err: Option<Err>)
    ensures err == if (job.opts.preHardRefresh || job.opts.preRefresh) && env.refresh.Some?
                   then Some(PreRefreshFailed(job.opts.preHardRefresh, env.refresh.value)) else None
  {
    err := None;
    if job.opts.preHardRefresh {
      if env.refresh.Some? {
        err := Some(PreRefreshFailed(true, env.refresh.value));
      }
    } else if job.opts.preRefresh {
      if env.refresh.Some? {
        err := Some(PreRefreshFailed(false, env.refresh.value));
      }
    }
  }

  /** The announcements, the options of the sync request, and whether there is nothing to sync. */
  method Announce(job: Job) returns (events: seq<ProgressEvent>, syncOpts: RunOptions, skip: bool)
    ensures events == Announced(job) + (if NothingToSync(job) then [Running(job, Skipping)] else [])
    ensures syncOpts == SyncOptions(job) && skip == NothingToSync(job)
  {
    hide FilterResources;
    events := [Running(job, Submitted)];
    syncOpts, skip := job.opts, false;
    if job.selection.Some? {
      var selected := job.selection.value;
      var filtered := FilterResourceForTarget(job.meta.resources, selected);
      syncOpts := syncOpts.(resources := filtered);
      events := events + [Running(job, Selection(|selected|, |filtered|))];
      if |selected| > 0 && |filtered| == 0 {
        events := events + [Running(job, Skipping)];
        skip := true;
      }
    }
  }

  /** The sync call, and the wait after it. */
  method SubmitSync(job: Job, syncOpts: RunOptions, env: Env) returns (events: seq<ProgressEvent>, err: Option<Err>)
    requires syncOpts == SyncOptions(job)
    requires job.opts.wait ==> job.opts.pollInterval >= 0 && HonoursDeadline(TimesOf(job.opts), env)
    ensures Attempt(events, err, false) == SyncCall(job, OracleOf(TimesOf(job.opts), env))
    ensures env.sync.Some? && !(job.opts.wait && ReportsInProgress(env.sync.value)) ==> events == [] && err == env.sync
    ensures env.sync.Some? && job.opts.wait && ReportsInProgress(env.sync.value) ==>
              |events| >= 1 && events[0] == Running(job, AlreadyInProgress) && err.Some?
    ensures env.sync.None? && !job.opts.wait ==> events == [] && err == None
  {
    if env.sync.Some? {
      InProgressMeaning(env.sync.value);
    }
    hide ReportsInProgress, Round, WaitEvents, HonoursDeadline, IsOpInProgress, DecidingFrom;
    events := [];
    err := env.sync;
    if err.Some? {
      if job.opts.wait && IsOpInProgress(err.value) {
        events := [Running(job, AlreadyInProgress)];
      } else {
        return;
      }
    }
    if job.opts.wait {
      var e, more, calls := WaitForHealthy(job, env);
      FirstDecidingUnique(job, OracleOf(TimesOf(job.opts), env), calls - 1);
      events := events + more;
      if e.Some? {
        err := e;
      }
    }
  }

  lemma FirstDecidingUnique(job: Job, o: Oracle, n: nat)
    requires FirstDeciding(job, o, n)
    ensures DecidingFrom(job, o, 0) == n
  {
    hide Round;
    var m := DecidingFrom(job, o, 0);
  }
}
