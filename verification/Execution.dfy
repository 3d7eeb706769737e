/** One target alone, with the answers of the API and the clock fixed: what the process of `Worker`
    does when nobody cancels it, and a structured account of the same behaviour. */
module Execution {
  import opened Models
  import opened Worker

  datatype Fetch = Found(st: Application) | Lost(err: Err)

  /** One round of the waiting loop: what GetApplication returns, and whether the select after it
      takes the ctx.Done() branch. */
  datatype Poll = Poll(fetch: Fetch, done: bool)

  /** The answers one target gets. After `polls`, GetApplication fails with `expired`. */
  datatype Oracle = Oracle(refresh: Option<Err>, sync: Option<Err>, polls: seq<Poll>, expired: Err)

  function FetchAt(o: Oracle, k: nat): Fetch {
    if k < |o.polls| then o.polls[k].fetch else Lost(o.expired)
  }

  predicate DoneAt(o: Oracle, k: nat) {
    k < |o.polls| && o.polls[k].done
  }

  function FromError(e: Option<Err>): Response {
    if e.Some? then Refused(e.value) else Proceed
  }

  /** The oracle's response to a request, in a run that is not cancelled. */
  function Reply(o: Oracle, q: Request): Response {
    match q
    case CallRefresh(_) => FromError(o.refresh)
    case CallSync(_) => FromError(o.sync)
    case CallGet(k) => (match FetchAt(o, k) case Found(st) => Observed(st) case Lost(e) => Refused(e))
    case AwaitTick(k) => if DoneAt(o, k) then ContextDone else Proceed
    case _ => Proceed
  }

  datatype Ending = Ending(events: seq<ProgressEvent>, res: Result, ret: Option<Err>)

  /** Runs the process from `pc` to its end. */
  function Execute(o: Oracle, limit: nat, job: Job, pc: Pc): Ending
    requires PcOk(limit, pc) && |o.polls| < limit
    decreases Rank(limit, pc)
  {
    if pc.Halted? then Ending([], pc.res, pc.ret)
    else
      var q := RequestAt(job, pc);
      var r := Reply(o, q);
      StepLowersRank(limit, job, pc, r);
      var rest := Execute(o, limit, job, Next(job, pc, r));
      rest.(events := (if q.Emit? then [q.ev] else []) + rest.events)
  }

  // ---- waiting: the first deciding index ----

  /** Some observation up to and including number `k` had a non-blank operation phase. */
  predicate SeenBy(o: Oracle, k: nat) {
    exists j :: 0 <= j <= k && FetchAt(o, j).Found? && ShowsPhase(FetchAt(o, j).st)
  }

  /** What round `k` alone decides, given the history up to it. */
  function Round(job: Job, o: Oracle, k: nat): Decision {
    match FetchAt(o, k)
    case Lost(e) => Stop(Some(e))
    case Found(st) =>
      var d := Judge(job.target, SyncOptions(job), st, SeenBy(o, k));
      if d.Continue? && DoneAt(o, k) then
        Stop(Some(WaitTimedOut(job.target, EffectiveTimeout(job.opts), Report(job, st))))
      else d
  }

  /** `n` is the first round that decides. */
  predicate FirstDeciding(job: Job, o: Oracle, n: nat) {
    Round(job, o, n).Stop? && forall k :: 0 <= k < n ==> Round(job, o, k).Continue?
  }

  /** The first deciding round, searched from `k`; it exists because the answers run out. */
  function DecidingFrom(job: Job, o: Oracle, k: nat): (n: nat)
    requires k <= |o.polls|
    ensures k <= n <= |o.polls| && Round(job, o, n).Stop?
    ensures forall j :: k <= j < n ==> Round(job, o, j).Continue?
    decreases |o.polls| - k
  {
    if Round(job, o, k).Stop? then k else DecidingFrom(job, o, k + 1)
  }

  function WaitEvent(job: Job, st: Application): ProgressEvent {
    ProgressEvent(job.target, TaskRunning, ActionSync, Report(job, st), None)
  }

  /** The messages of rounds `from` to `to - 1`: one for each observation. */
  function WaitEvents(job: Job, o: Oracle, from: nat, to: nat): seq<ProgressEvent>
    decreases to - from
  {
    if from >= to then []
    else (match FetchAt(o, from) case Found(st) => [WaitEvent(job, st)] case Lost(_) => [])
         + WaitEvents(job, o, from + 1, to)
  }

  // ---- the structured account ----

  /** The events before the terminal one, the error variable at bulk.go:134, and whether the closure
      returned early on the skip path. */
  datatype Attempt = Attempt(events: seq<ProgressEvent>, err: Option<Err>, skipped: bool)

  function Running(job: Job, message: Message): ProgressEvent {
    Event(job, TaskRunning, message, None)
  }

  /** A sync's wait keeps the error `left` behind by the sync call unless it has one of its own. */
  function WaitAttempt(job: Job, o: Oracle, before: seq<ProgressEvent>, left: Option<Err>): Attempt {
    var n := DecidingFrom(job, o, 0);
    var d := Round(job, o, n);
    Attempt(before + WaitEvents(job, o, 0, n + 1), if d.err.Some? then d.err else left, false)
  }

  /** From the sync call on. */
  function SyncCall(job: Job, o: Oracle): Attempt {
    if o.sync.Some? && !(job.opts.wait && IsOpInProgress(o.sync.value)) then Attempt([], o.sync, false)
    else if !job.opts.wait then Attempt([], None, false)
    else WaitAttempt(job, o, if o.sync.Some? then [Running(job, AlreadyInProgress)] else [], o.sync)
  }

  function Announced(job: Job): seq<ProgressEvent> {
    [Running(job, Submitted)] + if job.selection.Some? then [Running(job, SelectionMessage(job))] else []
  }

  predicate PreRefreshFails(job: Job, o: Oracle) {
    (job.opts.preHardRefresh || job.opts.preRefresh) && o.refresh.Some?
  }

  /** What follows the announcements: the skip path, or the sync call. */
  function AfterAnnouncing(job: Job, o: Oracle): Attempt {
    if NothingToSync(job) then Attempt([Running(job, Skipping)], None, true) else SyncCall(job, o)
  }

  function SyncAttempt(job: Job, o: Oracle): Attempt {
    if PreRefreshFails(job, o) then
      Attempt([], Some(PreRefreshFailed(job.opts.preHardRefresh, o.refresh.value)), false)
    else
      var a := AfterAnnouncing(job, o);
      a.(events := Announced(job) + a.events)
  }

  function ActionAttempt(job: Job, o: Oracle): Attempt {
    match job.action
    case ActionRefresh => Attempt([], o.refresh, false)
    case ActionHardRefresh => Attempt([], o.refresh, false)
    case ActionSync => SyncAttempt(job, o)
    case ActionOther(_) => Attempt([], Some(UnsupportedAction(job.action)), false)
  }

  /** What one target yields on its own. */
  function Alone(job: Job, o: Oracle): Ending {
    if !job.clusterKnown then
      var e := Some(UnknownCluster(job.target.clusterContext));
      Ending([Event(job, TaskFailed, NoMessage, e)], Outcome(job, TaskFailed, e), None)
    else
      After([Running(job, NoMessage)], Completed(job, ActionAttempt(job, o)))
  }

  /** Prepends events to an ending. */
  function After(events: seq<ProgressEvent>, e: Ending): Ending {
    e.(events := events + e.events)
  }

  /** The terminal event and the result for a value of the error variable. */
  function Concluded(job: Job, err: Option<Err>): Ending {
    Ending([Event(job, StatusOf(err), NoMessage, err)], Outcome(job, StatusOf(err), err), None)
  }

  /** The skip path returns without a terminal event. */
  function Completed(job: Job, a: Attempt): Ending {
    if a.skipped then Ending(a.events, Outcome(job, TaskSuccess, None), None)
    else After(a.events, Concluded(job, a.err))
  }

  // ---- the process and the account agree ----

  lemma ExecuteTerminal(o: Oracle, limit: nat, job: Job, res: Result, ret: Option<Err>)
    requires |o.polls| < limit
    ensures Execute(o, limit, job, AtSend(res, ret)) == Ending([], res, ret)
    ensures Execute(o, limit, job, AtTerminal(res, ret)) == Ending([Event(job, res.status, NoMessage, res.err)], res, ret)
  {
    assert Execute(o, limit, job, AtExit(res, ret)) == Ending([], res, ret);
    assert Execute(o, limit, job, AtSend(res, ret)) == Ending([], res, ret);
  }

  lemma ExecuteConcluded(o: Oracle, limit: nat, job: Job, err: Option<Err>)
    requires |o.polls| < limit
    ensures Execute(o, limit, job, Conclude(job, err)) == Concluded(job, err)
  {
    ExecuteTerminal(o, limit, job, Outcome(job, StatusOf(err), err), None);
  }

  /** The history bit of the loop is `SeenBy` of the rounds behind it. */
  predicate Remembers(o: Oracle, w: Waiting) {
    w.seenOp <==> w.polls > 0 && SeenBy(o, w.polls - 1)
  }

  lemma SeenGrows(o: Oracle, k: nat)
    ensures SeenBy(o, k) <==> (k > 0 && SeenBy(o, k - 1)) || (FetchAt(o, k).Found? && ShowsPhase(FetchAt(o, k).st))
  {
    if k > 0 && SeenBy(o, k - 1) {
      var j :| 0 <= j <= k - 1 && FetchAt(o, j).Found? && ShowsPhase(FetchAt(o, j).st);
      assert 0 <= j <= k;
    }
    if SeenBy(o, k) && !(FetchAt(o, k).Found? && ShowsPhase(FetchAt(o, k).st)) {
      var j :| 0 <= j <= k && FetchAt(o, j).Found? && ShowsPhase(FetchAt(o, j).st);
      assert j <= k - 1;
    }
  }

  /** One emission, unfolded. */
  lemma ExecuteReport(o: Oracle, limit: nat, job: Job, w: Waiting, st: Application)
    requires |o.polls| < limit && w.polls + 1 < limit
    ensures var seen := w.seenOp || ShowsPhase(st);
            var d := Judge(job.target, SyncOptions(job), st, seen);
            Execute(o, limit, job, AtReport(w, st))
            == After([WaitEvent(job, st)],
                     Execute(o, limit, job, if d.Stop? then Conclude(job, if d.err.Some? then d.err else w.left)
                                            else AtSelect(w.(seenOp := seen), st)))
  {
  }

  lemma ExecuteGet(o: Oracle, limit: nat, job: Job, w: Waiting)
    requires |o.polls| < limit && w.polls <= |o.polls|
    ensures FetchAt(o, w.polls).Lost? ==>
              Execute(o, limit, job, AtGet(w)) == Concluded(job, Some(FetchAt(o, w.polls).err))
    ensures FetchAt(o, w.polls).Found? ==>
              w.polls + 1 < limit
              && Execute(o, limit, job, AtGet(w)) == Execute(o, limit, job, AtReport(w, FetchAt(o, w.polls).st))
  {
    if FetchAt(o, w.polls).Lost? {
      ExecuteConcluded(o, limit, job, Some(FetchAt(o, w.polls).err));
    }
  }

  lemma ExecuteSelect(o: Oracle, limit: nat, job: Job, w: Waiting, st: Application)
    requires |o.polls| < limit && w.polls + 1 < limit
    ensures Execute(o, limit, job, AtSelect(w, st)) ==
            if DoneAt(o, w.polls) then Concluded(job, TimedOut(job, st))
            else Execute(o, limit, job, AtGet(w.(polls := w.polls + 1)))
  {
    if DoneAt(o, w.polls) {
      ExecuteConcluded(o, limit, job, TimedOut(job, st));
    }
  }

  lemma AfterAfter(a: seq<ProgressEvent>, b: seq<ProgressEvent>, e: Ending)
    ensures After(a, After(b, e)) == After(a + b, e)
    ensures After([], e) == e
  {
    assert a + (b + e.events) == (a + b) + e.events;
  }

  lemma WaitEventsStep(job: Job, o: Oracle, k: nat, to: nat)
    requires k < to && FetchAt(o, k).Found?
    ensures WaitEvents(job, o, k, to) == [WaitEvent(job, FetchAt(o, k).st)] + WaitEvents(job, o, k + 1, to)
  {
  }

  /** What the loop concludes at its first deciding round `n`. */
  function WaitEnding(job: Job, o: Oracle, n: nat, left: Option<Err>): Ending
    requires Round(job, o, n).Stop?
  {
    var err := Round(job, o, n).err;
    Concluded(job, if err.Some? then err else left)
  }

  function TimedOut(job: Job, st: Application): Option<Err> {
    Some(WaitTimedOut(job.target, EffectiveTimeout(job.opts), Report(job, st)))
  }

  /** The waiting loop as a recursion over its rounds. */
  function WaitFrom(job: Job, o: Oracle, w: Waiting): Ending
    requires w.polls <= |o.polls|
    decreases |o.polls| - w.polls
  {
    match FetchAt(o, w.polls)
    case Lost(e) => Concluded(job, Some(e))
    case Found(st) =>
      var seen := w.seenOp || ShowsPhase(st);
      var d := Judge(job.target, SyncOptions(job), st, seen);
      var rest :=
        if d.Stop? then Concluded(job, if d.err.Some? then d.err else w.left)
        else if DoneAt(o, w.polls) then Concluded(job, TimedOut(job, st))
        else WaitFrom(job, o, w.(seenOp := seen, polls := w.polls + 1));
      After([WaitEvent(job, st)], rest)
  }

  lemma {:induction false} ExecuteIsWaitFrom(o: Oracle, limit: nat, job: Job, w: Waiting)
    requires |o.polls| < limit && w.polls <= |o.polls|
    ensures Execute(o, limit, job, AtGet(w)) == WaitFrom(job, o, w)
    decreases |o.polls| - w.polls
  {
    hide Execute, Judge, ShowsPhase, SyncOptions;
    ExecuteGet(o, limit, job, w);
    if FetchAt(o, w.polls).Found? {
      var st := FetchAt(o, w.polls).st;
      ExecuteReport(o, limit, job, w, st);
      var seen := w.seenOp || ShowsPhase(st);
      var d := Judge(job.target, SyncOptions(job), st, seen);
      if d.Stop? {
        ExecuteConcluded(o, limit, job, if d.err.Some? then d.err else w.left);
      } else {
        ExecuteSelect(o, limit, job, w.(seenOp := seen), st);
        if !DoneAt(o, w.polls) {
          ExecuteIsWaitFrom(o, limit, job, w.(seenOp := seen, polls := w.polls + 1));
        }
      }
    }
  }

  /** One round of the recursion, in terms of what the round decides. */
  lemma WaitRound(job: Job, o: Oracle, w: Waiting)
    requires w.polls <= |o.polls| && Remembers(o, w)
    ensures Round(job, o, w.polls).Stop? ==>
              WaitFrom(job, o, w) == After(WaitEvents(job, o, w.polls, w.polls + 1), WaitEnding(job, o, w.polls, w.left))
    ensures Round(job, o, w.polls).Continue? ==>
              var w' := w.(seenOp := SeenBy(o, w.polls), polls := w.polls + 1);
              w'.polls <= |o.polls| && FetchAt(o, w.polls).Found?
              && WaitFrom(job, o, w) == After([WaitEvent(job, FetchAt(o, w.polls).st)], WaitFrom(job, o, w'))
  {
    hide Judge, ShowsPhase, SyncOptions, SeenBy;
    SeenGrows(o, w.polls);
  }

  /** The waiting loop ends at the first deciding round, having reported every observation. */
  lemma {:induction false} WaitDecidesFirst(job: Job, o: Oracle, w: Waiting)
    requires w.polls <= |o.polls| && Remembers(o, w)
    ensures var n := DecidingFrom(job, o, w.polls);
            WaitFrom(job, o, w) == After(WaitEvents(job, o, w.polls, n + 1), WaitEnding(job, o, n, w.left))
    decreases |o.polls| - w.polls
  {
    hide WaitFrom, Round, SeenBy, WaitEvent, Concluded;
    var k := w.polls;
    WaitRound(job, o, w);
    if Round(job, o, k).Continue? {
      var n := DecidingFrom(job, o, k);
      WaitDecidesFirst(job, o, w.(seenOp := SeenBy(o, k), polls := k + 1));
      WaitEventsStep(job, o, k, n + 1);
      AfterAfter([WaitEvent(job, FetchAt(o, k).st)], WaitEvents(job, o, k + 1, n + 1), WaitEnding(job, o, n, w.left));
    }
  }

  /** The loop from its start, after events `before`, ends as `WaitAttempt` says. */
  lemma ExecuteWait(o: Oracle, limit: nat, job: Job, before: seq<ProgressEvent>, left: Option<Err>)
    requires |o.polls| < limit
    ensures After(before, Execute(o, limit, job, AtGet(Waiting(0, false, left))))
         == Completed(job, WaitAttempt(job, o, before, left))
  {
    hide Execute, Round, WaitEvents, WaitFrom;
    var w := Waiting(0, false, left);
    var n := DecidingFrom(job, o, 0);
    ExecuteIsWaitFrom(o, limit, job, w);
    WaitDecidesFirst(job, o, w);
    AfterAfter(before, WaitEvents(job, o, 0, n + 1), WaitEnding(job, o, n, left));
  }

  lemma ExecuteSync(o: Oracle, limit: nat, job: Job)
    requires |o.polls| < limit
    ensures Execute(o, limit, job, AtSync) == Completed(job, SyncCall(job, o))
  {
    hide WaitAttempt;
    if o.sync.Some? && !(job.opts.wait && IsOpInProgress(o.sync.value)) {
      ExecuteConcluded(o, limit, job, o.sync);
    } else if !job.opts.wait {
      ExecuteConcluded(o, limit, job, None);
    } else {
      var before := if o.sync.Some? then [Running(job, AlreadyInProgress)] else [];
      ExecuteWait(o, limit, job, before, o.sync);
      var get := Execute(o, limit, job, AtGet(Waiting(0, false, o.sync)));
      assert Execute(o, limit, job, AtSync) == After(before, get) by { AfterAfter([], [], get); }
    }
  }

  lemma ExecuteAfterAnnouncing(o: Oracle, limit: nat, job: Job)
    requires |o.polls| < limit
    ensures Execute(o, limit, job, if NothingToSync(job) then AtSkip else AtSync) == Completed(job, AfterAnnouncing(job, o))
  {
    hide SyncCall;
    ExecuteSync(o, limit, job);
    ExecuteTerminal(o, limit, job, Outcome(job, TaskSuccess, None), None);
  }

  lemma ExecuteAnnouncing(o: Oracle, limit: nat, job: Job)
    requires |o.polls| < limit
    ensures Execute(o, limit, job, AtSubmitted)
         == After(Announced(job), Execute(o, limit, job, if NothingToSync(job) then AtSkip else AtSync))
  {
    hide FilterResources;
    var pc := if NothingToSync(job) then AtSkip else AtSync;
    if job.selection.Some? {
      assert Execute(o, limit, job, AtSelection)
          == After([Running(job, SelectionMessage(job))], Execute(o, limit, job, pc));
      AfterAfter([Running(job, Submitted)], [Running(job, SelectionMessage(job))], Execute(o, limit, job, pc));
    }
  }

  lemma ExecuteSubmitted(o: Oracle, limit: nat, job: Job)
    requires |o.polls| < limit && !PreRefreshFails(job, o)
    ensures Execute(o, limit, job, AtSubmitted) == Completed(job, SyncAttempt(job, o))
  {
    hide Execute, AfterAnnouncing, Announced, NothingToSync;
    ExecuteAnnouncing(o, limit, job);
    ExecuteAfterAnnouncing(o, limit, job);
    var rest := AfterAnnouncing(job, o);
    AfterAfter(Announced(job), rest.events, Concluded(job, rest.err));
  }

  lemma ExecuteAttempt(o: Oracle, limit: nat, job: Job)
    requires |o.polls| < limit
    ensures Execute(o, limit, job, Next(job, AtStart, Proceed)) == Completed(job, ActionAttempt(job, o))
  {
    AfterAfter([], [], Concluded(job, ActionAttempt(job, o).err));
    if job.action == ActionSync {
      hide SyncAttempt;
      if PreRefreshFails(job, o) {
        ExecutePreRefresh(o, limit, job);
      } else {
        ExecuteSubmitted(o, limit, job);
      }
    } else {
      ExecuteConcluded(o, limit, job, ActionAttempt(job, o).err);
    }
  }

  lemma ExecutePreRefresh(o: Oracle, limit: nat, job: Job)
    requires |o.polls| < limit && PreRefreshFails(job, o)
    ensures Execute(o, limit, job, AtPreRefresh(job.opts.preHardRefresh)) == Completed(job, SyncAttempt(job, o))
  {
    ExecuteConcluded(o, limit, job, SyncAttempt(job, o).err);
    AfterAfter([], [], Concluded(job, SyncAttempt(job, o).err));
  }

  /** The process run alone behaves exactly as the structured account says. */
  lemma ExecuteIsAlone(o: Oracle, limit: nat, job: Job)
    requires |o.polls| < limit
    ensures Execute(o, limit, job, AtEntry) == Alone(job, o)
  {
    if !job.clusterKnown {
      ExecuteTerminal(o, limit, job, Alone(job, o).res, None);
    } else {
      hide ActionAttempt;
      ExecuteAttempt(o, limit, job);
    }
  }
}
