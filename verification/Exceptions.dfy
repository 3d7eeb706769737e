/** Where the code departs from what its comments and messages suggest: the exact condition in each case,
    and an input on which it happens. */
module Exceptions {
  import opened GoStrings
  import opened Models
  import opened Ordering
  import opened Worker
  import opened Completion
  import opened Events
  import opened Execution
  import opened WaitLoop
  import opened Conservation
  import opened Pool
  import opened Refinement
  import opened ResultOrder
  import opened Summary
  import opened Trace

  // ---- a sync that was already in progress ----

  /** The target reaches its wait: its sync call succeeds, or reports that a sync is in progress. */
  predicate ReachesWait(job: Job, o: Oracle) {
    job.clusterKnown && job.action == ActionSync && !PreRefreshFails(job, o) && !NothingToSync(job)
    && job.opts.wait && (o.sync.None? || IsOpInProgress(o.sync.value))
  }

  /** The error of the sync call is kept through the wait (bulk.go:114-129): a target that waits ends with
      the wait's own error if there is one, and otherwise with what the sync call left. So a target whose
      wait succeeded succeeds exactly if its sync call did not report a sync in progress. */
  lemma WaitedSucceedsExactly(job: Job, o: Oracle)
    requires ReachesWait(job, o)
    ensures var d := Round(job, o, DecidingFrom(job, o, 0));
            var err := if d.err.Some? then d.err else o.sync;
            Alone(job, o).res == Outcome(job, StatusOf(err), err)
            && (d == Stop(None) ==> (Alone(job, o).res.status == TaskSuccess <==> o.sync.None?))
            && (Alone(job, o).res.status == TaskSuccess <==> d == Stop(None) && o.sync.None?)
  {
    hide Round, WaitEvents, NothingToSync, IsOpInProgress, DecidingFrom;
  }

  lemma {:induction false} LowerStays(s: string)
    requires forall c :: c in s ==> !('A' <= c <= 'Z')
    ensures ToLower(s) == s
  {
    if s != [] {
      assert s == [s[0]] + s[1..];
      assert s[0] in s && forall c :: c in s[1..] ==> c in s;
      LowerStays(s[1..]);
    }
  }

  lemma InProgressText()
    ensures IsOpInProgress(ApiError(false, IN_PROGRESS_TEXT))
  {
    hide ToLower;
    LowerStays(IN_PROGRESS_TEXT);
    assert IN_PROGRESS_TEXT <= IN_PROGRESS_TEXT[0..];
  }

  const HEALTHY := ZERO_APPLICATION.(syncStatus := "Synced", healthStatus := "Healthy", operationPhase := "Succeeded")
  const WAITING := RunOptions(false, false, false, false, false, false, true, true, 0, 0, [])

  /** One target whose sync is already running and whose first observation is synced and healthy: the wait
      succeeds, and the target has failed. */
  lemma JoinedSyncFails(t: Target)
    ensures var job := Job(t, true, ZERO_APPLICATION, ActionSync, WAITING, None);
            var e := ApiError(false, IN_PROGRESS_TEXT);
            var o := Oracle(None, Some(e), [Poll(Found(HEALTHY), false)], e);
            ReachesWait(job, o) && Round(job, o, 0) == Stop(None) && DecidingFrom(job, o, 0) == 0
            && Alone(job, o).res == Result(t, ActionSync, TaskFailed, Some(e))
  {
    hide IsOpInProgress, SeenBy, Alone, WaitEvents, ShowsPhase;
    var job := Job(t, true, ZERO_APPLICATION, ActionSync, WAITING, None);
    var e := ApiError(false, IN_PROGRESS_TEXT);
    var o := Oracle(None, Some(e), [Poll(Found(HEALTHY), false)], e);
    InProgressText();
    HealthyStops(job, o);
    WaitedSucceedsExactly(job, o);
  }

  lemma HealthyStops(job: Job, o: Oracle)
    requires |o.polls| == 1 && o.polls[0] == Poll(Found(HEALTHY), false)
    ensures Round(job, o, 0) == Stop(None)
  {
    hide SeenBy, SyncOptions;
    SuccessMeaning(job, o, 0);
  }

  // ---- cancelled or failed ----

  /** The last exchange of a finished worker. */
  predicate Last(h: History) {
    h != []
    && var x := h[|h| - 1];
       || (x.request.CheckContext? && |h| == 1 && (x.response.Proceed? || x.response.ContextDone?))
       || ((x.request.CallRefresh? || x.request.CallSync?) && (x.response.Proceed? || x.response.Refused?))
       || (x.request.CallGet? && (x.response.Refused? || x.response.Observed?))
       || (x.request.AwaitTick? && x.response.ContextDone? && |h| > 1 && h[|h| - 2].response.Observed?)
  }

  lemma LastOfWait(job: Job, t: History)
    requires WaitSentence(job, t)
    ensures Last(t) && !t[0].request.CheckContext?
  {
    hide Judge, SeenIn, SyncOptions;
    var n := |t| - 1;
    if n > 0 {
      assert Undecided(job, t[..n], n - 1) && Undecided(job, t[..n], 0);
      assert t[..n][n - 1] == t[n - 1] && t[..n][0] == t[0];
    }
  }

  lemma LastOfSuffix(h: History, k: nat)
    requires k < |h| && Last(h[k..]) && !h[k].request.CheckContext?
    ensures Last(h)
  {
    assert h[k..][|h| - k - 1] == h[|h| - 1];
    if |h| - k > 1 {
      assert h[k..][|h| - k - 2] == h[|h| - 2];
    }
  }

  lemma LastOfSubmission(job: Job, t: History)
    requires SubmissionSentence(job, t) && t != []
    ensures Last(t) && !t[0].request.CheckContext?
  {
    hide WaitSentence, NothingToSync, SyncOptions, Waits;
    if |t| > 1 {
      LastOfWait(job, t[1..]);
      LastOfSuffix(t, 1);
    }
  }

  lemma LastOfSync(job: Job, t: History)
    requires SyncSentence(job, t) && t != []
    ensures Last(t) && !t[0].request.CheckContext?
  {
    hide SubmissionSentence, WaitSentence;
    if !NeedsRefresh(job) {
      LastOfSubmission(job, t);
    } else if |t| > 1 {
      LastOfSubmission(job, t[1..]);
      LastOfSuffix(t, 1);
    }
  }

  lemma LastOfSentence(job: Job, h: History)
    requires Sentence(job, h)
    ensures Last(h) && (h[|h| - 1] == TURNED_AWAY ==> h == [TURNED_AWAY])
  {
    hide SyncSentence;
    if |h| > 1 {
      if job.action == ActionSync {
        LastOfSync(job, h[1..]);
      }
      LastOfSuffix(h, 1);
    }
  }

  /** The last exchange is an observation that ends the wait without an error. */
  predicate Accepted(job: Job, h: History) {
    h != []
    && var x := h[|h| - 1];
       x.request.CallGet? && x.response.Observed? && x.request.polls < |h|
       && Judge(job.target, SyncOptions(job), x.response.st, SeenIn(h[|h| - 1 - x.request.polls..], x.request.polls)) == Stop(None)
  }

  /** What follows the announcement of a submission, in the history of a finished worker. */
  lemma SubmittedPart(job: Job, h: History)
    requires Sentence(job, h) && h != [] && (h[|h| - 1].request.CallGet? || h[|h| - 1].request.AwaitTick?)
    ensures |Prefix(job)| < |h| && SubmissionSentence(job, h[|Prefix(job)|..])
  {
    hide SubmissionSentence;
    if NeedsRefresh(job) {
      assert h[1..][1..] == h[2..];
    }
  }

  /** A history that ends with an observation is a sync call and a whole waiting loop after the prefix. */
  lemma ObservedPart(job: Job, h: History)
    requires Sentence(job, h) && h != [] && h[|h| - 1].request.CallGet?
    ensures var k := |Prefix(job)|;
            var j := h[|h| - 1].request.polls;
            |h| == k + 2 + j && h[k].request.CallSync? && Waits(job, h[k].response) && WaitSentence(job, h[|h| - 1 - j..])
  {
    hide WaitSentence, NothingToSync, SyncOptions, IsOpInProgress, Sentence;
    SubmittedPart(job, h);
    var u := h[|Prefix(job)|..];
    assert u[|u| - 1] == h[|h| - 1] && u[0] == h[|Prefix(job)|];
    var t := u[1..];
    assert t == h[|Prefix(job)| + 1..] && t[|t| - 1] == h[|h| - 1];
    LastPoll(job, t);
  }

  lemma LastPoll(job: Job, t: History)
    requires WaitSentence(job, t) && t[|t| - 1].request.CallGet?
    ensures t[|t| - 1].request.polls == |t| - 1
    ensures t[|t| - 1].response.Observed? ==>
              Judge(job.target, SyncOptions(job), t[|t| - 1].response.st, SeenIn(t, |t| - 1)).Stop?
  {
    hide Judge, SeenIn, SyncOptions, AllUndecided;
  }

  /** The last observation decides the error: its own, or what the sync call left. */
  lemma ObservedRuling(job: Job, h: History)
    requires Sentence(job, h) && h != [] && h[|h| - 1].request.CallGet? && h[|h| - 1].response.Observed?
    ensures Accepted(job, h) ==> RulingErr(job, h) == Left(job, h)
    ensures !Accepted(job, h) ==> RulingErr(job, h).Some? && !IsContextError(RulingErr(job, h).value)
  {
    hide Sentence, SeenIn, Left, SyncOptions, ShowsPhase, OperationDone, WaitSentence;
    ObservedPart(job, h);
    var t := h[|h| - 1 - h[|h| - 1].request.polls..];
    LastPoll(job, t);
    assert t[|t| - 1] == h[|h| - 1];
  }

  /** A worker reports its target as cancelled exactly if it was turned away at its entry, its last call
      failed with a context error, or it had joined a running sync whose own report wraps a context error
      and the wait succeeded. */
  lemma WhenCancelled(job: Job, h: History)
    requires Sentence(job, h)
    ensures h != []
    ensures var last := h[|h| - 1].response;
            Ruling(job, h).status == TaskCancelled <==>
              h == [TURNED_AWAY]
              || (last.Refused? && IsContextError(last.err))
              || (Accepted(job, h) && Left(job, h).Some? && IsContextError(Left(job, h).value))
  {
    hide Sentence, Judge, SeenIn, Left, SyncOptions, Report, Accepted;
    LastOfSentence(job, h);
    assert |h| == 1 ==> h == [h[0]];
    if h[|h| - 1].request.CallGet? && h[|h| - 1].response.Observed? {
      ObservedRuling(job, h);
    } else {
      NotAccepted(job, h);
    }
  }

  lemma NotAccepted(job: Job, h: History)
    requires h != [] && !(h[|h| - 1].request.CallGet? && h[|h| - 1].response.Observed?)
    ensures !Accepted(job, h)
  {
  }

  /** A worker that waits for its sync reports success exactly if the sync call itself succeeded and the last
      observation is accepting; so a sync that was in progress never does. */
  lemma SucceedsExactly(job: Job, h: History, k: nat)
    requires Sentence(job, h) && job.opts.wait && k < |h| && h[k].request.CallSync?
    ensures Ruling(job, h).status == TaskSuccess <==> h[k].response.Proceed? && Accepted(job, h)
  {
    hide Sentence, Judge, SeenIn, SyncOptions, Report, Accepted, WaitSentence, IsOpInProgress;
    SyncPosition(job, h, k);
    LastOfSentence(job, h);
    if h[|h| - 1].request.CallGet? && h[|h| - 1].response.Observed? {
      ObservedRuling(job, h);
    } else {
      NotAccepted(job, h);
      WaitEnds(job, h, k);
    }
  }

  /** After a sync call that leads into the wait, the last exchange is one of the wait. */
  lemma WaitEnds(job: Job, h: History, k: nat)
    requires k < |h| && h[k].request.CallSync? && (h[k].response.Proceed? || h[k].response.Refused?)
    requires if Waits(job, h[k].response) then WaitSentence(job, h[k + 1..]) else |h| == k + 1
    ensures |h| == k + 1 ==> h[k].response.Refused? || !job.opts.wait
    ensures |h| > k + 1 ==> h[|h| - 1].request.CallGet? || h[|h| - 1].request.AwaitTick?
  {
    hide Judge, SeenIn, SyncOptions, AllUndecided, IsOpInProgress;
    if |h| > k + 1 {
      assert h[k + 1..][|h| - k - 2] == h[|h| - 1];
    }
  }

  /** The same of every finished worker, in every interleaving and under any cancellation. */
  lemma RunSucceedsExactly(cfg: Config, ls: seq<Label>, i: nat, k: nat)
    requires Proper(cfg) && Run(cfg, Initial(cfg), ls) && i < |cfg.jobs|
    requires ResultOf(End(cfg, Initial(cfg), ls), i).Some? && cfg.jobs[i].opts.wait
    requires var s := End(cfg, Initial(cfg), ls); s.slots[i].Live? && k < |s.slots[i].history| && s.slots[i].history[k].request.CallSync?
    ensures var s := End(cfg, Initial(cfg), ls);
            var h := s.slots[i].history;
            ResultOf(s, i).value.status == TaskSuccess <==> h[k].response.Proceed? && Accepted(cfg.jobs[i], h)
  {
    hide Sentence, Ruling, Accepted, Run;
    FinishedTrace(cfg, ls, i);
    SucceedsExactly(cfg.jobs[i], End(cfg, Initial(cfg), ls).slots[i].history, k);
  }

  /** A cancellation or a deadline that is noticed between two polls ends in "failed" (bulk.go:244-246),
      although the error comes from a context. */
  lemma NoticedBetweenPollsFails(job: Job, h: History)
    requires Sentence(job, h) && h != [] && h[|h| - 1].request.AwaitTick?
    ensures h[|h| - 1].response == ContextDone && Ruling(job, h).status == TaskFailed
  {
    hide Sentence, Judge, SeenIn, Left, SyncOptions, Report;
    LastOfSentence(job, h);
  }

  // ---- runs of one target ----

  const ONE := SyncResource("", "K", "x", "")
  const PENDING := ZERO_APPLICATION.(operationPhase := "Running")

  function Single(job: Job): Config {
    Config([job], 1, true, 2)
  }

  /** A complete run of the pool with one target and one poll at most. */
  lemma SingleRun(job: Job, o: Oracle) returns (ls: seq<Label>)
    requires |o.polls| <= 1
    ensures var cfg := Single(job);
            Proper(cfg) && Fits(cfg, [o]) && Run(cfg, Initial(cfg), ls) && Faithful(cfg, [o], Initial(cfg), ls)
            && Distinct(TargetsOfJobs(cfg.jobs)) && Final(End(cfg, Initial(cfg), ls))
            && End(cfg, Initial(cfg), ls).returned == Some([Alone(job, o).res])
  {
    hide Run, Faithful, Alone, Final;
    var cfg := Single(job);
    assert Run(cfg, Initial(cfg), []) && Faithful(cfg, [o], Initial(cfg), []) by { NoSteps(cfg, [o], Initial(cfg)); }
    ls := Completes(cfg, [o], []);
    RunIsSortedMap(cfg, [o], ls);
    FinalReturned(End(cfg, Initial(cfg), ls));
    assert SequentialResults(cfg.jobs, [o]) == [Alone(job, o).res];
    SortSingle(Alone(job, o).res);
  }

  lemma NoSteps(cfg: Config, os: seq<Oracle>, s: State)
    ensures Run(cfg, s, []) && Faithful(cfg, os, s, [])
  {
  }

  lemma FinalReturned(s: State)
    requires Final(s)
    ensures s.returned.Some?
  {
  }

  lemma SortSingle(r: Result)
    ensures SortResults([r]) == [r]
  {
    assert [r][1..] == [] && SortResults([]) == [];
  }

  /** A run in which the sync was already in progress and the wait succeeds at once: the target has failed. */
  lemma JoinedSyncRun(t: Target) returns (ls: seq<Label>)
    ensures var job := Job(t, true, ZERO_APPLICATION, ActionSync, WAITING, None);
            var cfg := Single(job);
            Run(cfg, Initial(cfg), ls) && Final(End(cfg, Initial(cfg), ls))
            && End(cfg, Initial(cfg), ls).returned == Some([Result(t, ActionSync, TaskFailed, Some(ApiError(false, IN_PROGRESS_TEXT)))])
  {
    hide Run, Faithful, Alone, Final;
    var e := ApiError(false, IN_PROGRESS_TEXT);
    JoinedSyncFails(t);
    ls := SingleRun(Job(t, true, ZERO_APPLICATION, ActionSync, WAITING, None), Oracle(None, Some(e), [Poll(Found(HEALTHY), false)], e));
  }

  /** The calls of a worker whose context is done after its first poll. */
  function TimedOutCalls(job: Job): History {
    [ENTERED, Exchange(CallSync(SyncOptions(job)), Proceed), Exchange(CallGet(0), Observed(PENDING)),
     Exchange(AwaitTick(0), ContextDone)]
  }

  lemma PendingContinues(job: Job, seen: bool)
    ensures Judge(job.target, SyncOptions(job), PENDING, seen) == Continue
  {
    hide SyncOptions;
    assert |"Running"| == 7 && |"Failed"| == 6 && |"Error"| == 5 && |"Succeeded"| == 9;
  }

  /** They form a sentence of the grammar, and it ends in "failed". */
  lemma TimedOutSentence(t: Target)
    ensures var job := Job(t, true, ZERO_APPLICATION, ActionSync, WAITING, None);
            var h := TimedOutCalls(job);
            Sentence(job, h) && Ruling(job, h) == Result(t, ActionSync, TaskFailed, TimedOut(job, PENDING))
  {
    hide Judge, SeenIn, SyncOptions, Report;
    var job := Job(t, true, ZERO_APPLICATION, ActionSync, WAITING, None);
    var h := TimedOutCalls(job);
    var w := h[1..][1..];
    PendingContinues(job, SeenIn(w[..1], 0));
    assert w == [h[2], h[3]] && w[..1] == [h[2]];
    assert AllUndecided(job, w[..1]);
    assert h[1..][0] == h[1];
    assert WaitSentence(job, w);
  }

  /** A run in which the deadline of the wait is noticed between two polls: the target has failed. */
  lemma TimedOutRun(t: Target) returns (ls: seq<Label>)
    ensures var job := Job(t, true, ZERO_APPLICATION, ActionSync, WAITING, None);
            var cfg := Single(job);
            Run(cfg, Initial(cfg), ls) && Final(End(cfg, Initial(cfg), ls))
            && End(cfg, Initial(cfg), ls).returned == Some([Result(t, ActionSync, TaskFailed, TimedOut(job, PENDING))])
  {
    hide Run, Faithful, Final, SyncOptions, Report, WaitEvents, SeenBy, Judge;
    var job := Job(t, true, ZERO_APPLICATION, ActionSync, WAITING, None);
    var o := Oracle(None, None, [Poll(Found(PENDING), true)], ContextError);
    PendingContinues(job, SeenBy(o, 0));
    assert Round(job, o, 0) == Stop(TimedOut(job, PENDING)) && DecidingFrom(job, o, 0) == 0;
    assert ReachesWait(job, o);
    WaitedSucceedsExactly(job, o);
    ls := SingleRun(job, o);
  }

  /** A run in which the only selected resource is not in the target's cluster: the target has succeeded, and
      its status on the screen is still "running". */
  lemma SkippedRun(t: Target) returns (ls: seq<Label>)
    ensures var job := Job(t, true, ZERO_APPLICATION, ActionSync, WAITING, Some([ONE]));
            var cfg := Single(job);
            Run(cfg, Initial(cfg), ls) && Final(End(cfg, Initial(cfg), ls))
            && End(cfg, Initial(cfg), ls).returned == Some([Result(t, ActionSync, TaskSuccess, None)])
            && var m := Statuses(End(cfg, Initial(cfg), ls).shown, map[t := TaskPending]);
               t in m && m[t] == TaskRunning && CountsOf([t], m) == Counts(0, 0, 0, 1)
  {
    hide Run, Faithful, Final, Alone, Statuses;
    var job := Job(t, true, ZERO_APPLICATION, ActionSync, WAITING, Some([ONE]));
    var o := Oracle(None, None, [], ContextError);
    ls := SingleRun(job, o);
    assert [ONE][1..] == [] && FilterResources([], []) == [];
    assert Skipped(job, o);
    SkippedSucceeds(job, o);
    var s := End(Single(job), Initial(Single(job)), ls);
    StatusesAgree(Single(job), [o], ls, map[t := TaskPending], 0);
    OneRunning(t, Statuses(s.shown, map[t := TaskPending]));
  }

  lemma OneRunning(t: Target, m: map<Target, TaskStatus>)
    requires t in m && m[t] == TaskRunning
    ensures CountsOf([t], m) == Counts(0, 0, 0, 1)
  {
    forall st ensures Having([t], m, st) == if st == TaskRunning then 1 else 0 {
      assert [t][1..] == [] && Having([], m, st) == 0;
    }
  }

  lemma SkippedSucceeds(job: Job, o: Oracle)
    requires Skipped(job, o)
    ensures Alone(job, o).res == Outcome(job, TaskSuccess, None)
  {
    hide NothingToSync;
  }
}
