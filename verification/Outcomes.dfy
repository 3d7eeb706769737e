/** How one target ends that nobody cancels, case by case (internal/services/bulk.go:64-148). */
module Outcomes {
  import opened Models
  import opened Worker
  import opened Execution

  /** A context error is a cancellation, any other a failure. */
  function Ended(err: Err): TaskStatus {
    if Cause(err) == ContextError || (Cause(err).ApiError? && Cause(err).wrapsContext) then TaskCancelled else TaskFailed
  }

  /** The messages of events, in order. */
  function Messages(evs: seq<ProgressEvent>): seq<Message> {
    seq(|evs|, i requires 0 <= i < |evs| => evs[i].message)
  }

  /** A target in an unknown cluster fails with a single event and without a call. */
  lemma UnknownClusterFails(job: Job, o: Oracle)
    requires !job.clusterKnown
    ensures Alone(job, o).res == Result(job.target, job.action, TaskFailed, Some(UnknownCluster(job.target.clusterContext)))
    ensures |Alone(job, o).events| == 1 && Alone(job, o).events[0].phase == TaskFailed
  {
  }

  /** An action that is none of the three fails. */
  lemma UnsupportedFails(job: Job, o: Oracle)
    requires job.clusterKnown && job.action.ActionOther?
    ensures Alone(job, o).res == Result(job.target, job.action, TaskFailed, Some(UnsupportedAction(job.action)))
  {
  }

  /** A refresh succeeds or ends with its error, after a "running" event. */
  lemma RefreshOutcome(job: Job, o: Oracle)
    requires job.clusterKnown && (job.action == ActionRefresh || job.action == ActionHardRefresh)
    ensures Alone(job, o).res == Result(job.target, job.action, if o.refresh.None? then TaskSuccess else Ended(o.refresh.value), o.refresh)
    ensures Messages(Alone(job, o).events) == [NoMessage, NoMessage] && Alone(job, o).events[0].phase == TaskRunning
  {
    if o.refresh.Some? {
      ContextErrors(o.refresh.value);
    }
  }

  /** A pre-refresh that fails ends the sync before anything is announced; which of the two it was is part of the
      error, and a hard one goes before a normal one. */
  lemma PreRefreshStops(job: Job, o: Oracle)
    requires job.clusterKnown && job.action == ActionSync && o.refresh.Some?
    requires job.opts.preRefresh || job.opts.preHardRefresh
    ensures Alone(job, o).res
         == Result(job.target, ActionSync, Ended(o.refresh.value), Some(PreRefreshFailed(job.opts.preHardRefresh, o.refresh.value)))
    ensures Messages(Alone(job, o).events) == [NoMessage, NoMessage]
  {
    ContextErrors(PreRefreshFailed(job.opts.preHardRefresh, o.refresh.value));
  }

  /** A sync is announced, then its selection if resources were chosen at all, then either its skipping or whatever
      its call leads to. */
  lemma SyncAnnounced(job: Job, o: Oracle)
    requires job.clusterKnown && job.action == ActionSync && !PreRefreshFails(job, o)
    ensures var said := Messages(Alone(job, o).events);
            |said| >= 3 && said[0] == NoMessage && said[1] == Submitted
            && (job.selection.Some? ==>
                  said[2] == Selection(|job.selection.value|, |FilterResources(job.meta.resources, job.selection.value)|))
            && (NothingToSync(job) ==> |said| == 4 && said[3] == Skipping)
  {
    hide NothingToSync, FilterResources, SyncCall;
    SyncCallSays(job, o);
    if NothingToSync(job) {
      NothingToSyncMeaning(job);
    }
  }

  lemma SyncCallSays(job: Job, o: Oracle)
    ensures !SyncCall(job, o).skipped
  {
    hide WaitEvents, Round, DecidingFrom, IsOpInProgress;
  }

  /** Without waiting, the answer to the sync call is the result, also if it reports a sync in progress. */
  lemma UnwaitedOutcome(job: Job, o: Oracle)
    requires job.clusterKnown && job.action == ActionSync && !PreRefreshFails(job, o) && !NothingToSync(job) && !job.opts.wait
    ensures Alone(job, o).res == Result(job.target, ActionSync, if o.sync.None? then TaskSuccess else Ended(o.sync.value), o.sync)
  {
    hide NothingToSync, IsOpInProgress;
    if o.sync.Some? {
      ContextErrors(o.sync.value);
    }
  }

  /** With waiting, a sync call that fails otherwise than by a sync in progress ends the target with its error. */
  lemma RefusedOutcome(job: Job, o: Oracle)
    requires job.clusterKnown && job.action == ActionSync && !PreRefreshFails(job, o) && !NothingToSync(job)
    requires o.sync.Some? && !ReportsInProgress(o.sync.value)
    ensures Alone(job, o).res == Result(job.target, ActionSync, Ended(o.sync.value), o.sync)
  {
    hide NothingToSync, IsOpInProgress, ReportsInProgress;
    InProgressMeaning(o.sync.value);
    ContextErrors(o.sync.value);
  }
}
