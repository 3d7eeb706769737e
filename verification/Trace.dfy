/** The calls that one worker makes, in any interleaving and under any cancellation: their grammar, and
    the result as a function of them. */
module Trace {
  import opened Models
  import opened Worker
  import opened Pool
  import opened Conservation

  type History = seq<Exchange>

  const ENTERED := Exchange(CheckContext, Proceed)
  const TURNED_AWAY := Exchange(CheckContext, ContextDone)

  predicate NeedsRefresh(job: Job) {
    job.opts.preHardRefresh || job.opts.preRefresh
  }

  /** The exchanges before a sync request: the refresh before it has succeeded. */
  function Prefix(job: Job): History {
    [ENTERED] + (if NeedsRefresh(job) then [Exchange(CallRefresh(job.opts.preHardRefresh), Proceed)] else [])
  }

  /** The response to the sync request leads into the waiting loop. */
  predicate Waits(job: Job, r: Response) {
    job.opts.wait && (r.Proceed? || (r.Refused? && IsOpInProgress(r.err)))
  }

  /** An observation up to number `j` showed an operation phase. */
  predicate SeenIn(t: History, j: nat) {
    exists i :: 0 <= i <= j && i < |t| && t[i].response.Observed? && ShowsPhase(t[i].response.st)
  }

  /** Exchange `j` is an observation after which the loop goes on. */
  predicate Undecided(job: Job, t: History, j: nat)
    requires j < |t|
  {
    t[j].request == CallGet(j) && t[j].response.Observed?
    && Judge(job.target, SyncOptions(job), t[j].response.st, SeenIn(t, j)).Continue?
  }

  predicate AllUndecided(job: Job, t: History) {
    forall j :: 0 <= j < |t| ==> Undecided(job, t, j)
  }

  /** The exchanges of a waiting loop that has ended. */
  predicate WaitSentence(job: Job, t: History) {
    t != []
    && var n := |t| - 1;
       if t[n].request.AwaitTick? then
         n > 0 && t[n] == Exchange(AwaitTick(n - 1), ContextDone) && AllUndecided(job, t[..n])
       else
         AllUndecided(job, t[..n]) && t[n].request == CallGet(n)
         && (t[n].response.Refused? ||
             (t[n].response.Observed? && Judge(job.target, SyncOptions(job), t[n].response.st, SeenIn(t, n)).Stop?))
  }

  /** The exchanges after a submission was announced. */
  predicate SubmissionSentence(job: Job, t: History) {
    if NothingToSync(job) then t == []
    else
      t != [] && t[0].request == CallSync(SyncOptions(job)) && (t[0].response.Proceed? || t[0].response.Refused?)
      && if Waits(job, t[0].response) then WaitSentence(job, t[1..]) else |t| == 1
  }

  predicate SyncSentence(job: Job, t: History) {
    if NeedsRefresh(job) then
      t != [] && t[0].request == CallRefresh(job.opts.preHardRefresh)
      && if t[0].response.Refused? then |t| == 1 else t[0].response.Proceed? && SubmissionSentence(job, t[1..])
    else SubmissionSentence(job, t)
  }

  predicate RefreshSentence(hard: bool, t: History) {
    |t| == 1 && t[0].request == CallRefresh(hard) && (t[0].response.Proceed? || t[0].response.Refused?)
  }

  /** The exchanges of a worker that has ended. */
  predicate Sentence(job: Job, h: History) {
    || h == [TURNED_AWAY]
    || (!job.clusterKnown && h == [ENTERED])
    || (job.clusterKnown && h != [] && h[0] == ENTERED && ActionSentence(job, h[1..]))
  }

  predicate ActionSentence(job: Job, t: History) {
    match job.action
    case ActionRefresh => RefreshSentence(false, t)
    case ActionHardRefresh => RefreshSentence(true, t)
    case ActionSync => SyncSentence(job, t)
    case ActionOther(_) => t == []
  }

  /** The error that the sync request left behind when the loop was entered. */
  function Left(job: Job, h: History): Option<Err> {
    var k := |Prefix(job)|;
    if k < |h| && h[k].response.Refused? then Some(h[k].response.err) else None
  }

  /** The error that the last exchange amounts to. */
  function RulingErr(job: Job, h: History): Option<Err>
    requires h != []
  {
    var n := |h| - 1;
    var r := h[n].response;
    match h[n].request
    case CheckContext =>
      if r.ContextDone? then Some(ContextError)
      else if !job.clusterKnown then Some(UnknownCluster(job.target.clusterContext))
      else if job.action.ActionOther? then Some(UnsupportedAction(job.action))
      else None
    case CallRefresh(hard) =>
      if !r.Refused? then None
      else if job.action.ActionSync? then Some(PreRefreshFailed(hard, r.err))
      else Some(r.err)
    case CallSync(_) => if r.Refused? then Some(r.err) else None
    case CallGet(j) =>
      if r.Refused? then Some(r.err)
      else if r.Observed? && j <= n then
        var d := Judge(job.target, SyncOptions(job), r.st, SeenIn(h[n - j..], j));
        if d.Stop? && d.err.Some? then d.err else Left(job, h)
      else None
    case AwaitTick(_) =>
      if n > 0 && h[n - 1].response.Observed? then
        Some(WaitTimedOut(job.target, EffectiveTimeout(job.opts), Report(job, h[n - 1].response.st)))
      else None
    case _ => None
  }

  /** The result of a worker with the exchanges `h`. */
  function Ruling(job: Job, h: History): Result
    requires h != []
  {
    Outcome(job, StatusOf(RulingErr(job, h)), RulingErr(job, h))
  }

  // ---- the exchanges so far, at every program point ----

  predicate Submitting(job: Job) {
    job.clusterKnown && job.action == ActionSync
  }

  /** `h` is a submitted sync followed by the observations `t`. */
  predicate Observing(job: Job, h: History, t: History, w: Waiting) {
    && Submitting(job) && !NothingToSync(job)
    && |h| == |Prefix(job)| + 1 + |t|
    && h[..|Prefix(job)|] == Prefix(job)
    && h[|Prefix(job)|].request == CallSync(SyncOptions(job))
    && Waits(job, h[|Prefix(job)|].response)
    && h[|Prefix(job)| + 1..] == t
    && w.left == Left(job, h)
    && (w.seenOp <==> w.polls > 0 && SeenIn(t, w.polls - 1))
  }

  function Tail(job: Job, h: History): History {
    if |h| > |Prefix(job)| then h[|Prefix(job)| + 1..] else []
  }

  /** The loop is at the head of a round, all its observations undecided. */
  predicate InLoop(job: Job, h: History, w: Waiting) {
    Observing(job, h, Tail(job, h), w) && |Tail(job, h)| == w.polls && AllUndecided(job, Tail(job, h))
  }

  predicate Told(job: Job, pc: Pc, h: History) {
    match pc
    case AtEntry => h == []
    case AtStart => job.clusterKnown && h == [ENTERED]
    case AtRefresh(hard) =>
      job.clusterKnown && h == [ENTERED] && job.action == if hard then ActionHardRefresh else ActionRefresh
    case AtPreRefresh(hard) => Submitting(job) && NeedsRefresh(job) && hard == job.opts.preHardRefresh && h == [ENTERED]
    case AtSubmitted => Submitting(job) && h == Prefix(job)
    case AtSelection => Submitting(job) && job.selection.Some? && h == Prefix(job)
    case AtSkip => Submitting(job) && NothingToSync(job) && h == Prefix(job)
    case AtSync => Submitting(job) && !NothingToSync(job) && h == Prefix(job)
    case AtInProgress(e) =>
      Submitting(job) && !NothingToSync(job) && Waits(job, Refused(e))
      && h == Prefix(job) + [Exchange(CallSync(SyncOptions(job)), Refused(e))]
    case AtGet(w) =>
      InLoop(job, h, w)
    case AtReport(w, st) =>
      h != [] && h[|h| - 1] == Exchange(CallGet(w.polls), Observed(st)) && InLoop(job, h[..|h| - 1], w)
    case AtSelect(w, st) =>
      var w' := w.(polls := w.polls + 1);
      InLoop(job, h, w') && h[|h| - 1] == Exchange(CallGet(w.polls), Observed(st))
    case AtTerminal(res, ret) => Closed(job, h, res, ret)
    case AtSend(res, ret) => Closed(job, h, res, ret)
    case AtExit(res, ret) => Closed(job, h, res, ret)
    case Halted(res, ret) => Closed(job, h, res, ret)
  }

  predicate Closed(job: Job, h: History, res: Result, ret: Option<Err>) {
    Sentence(job, h) && res == Ruling(job, h) && ret == if h == [TURNED_AWAY] then Some(ContextError) else None
  }

  // ---- every step keeps it ----

  /** The exchanges after a step. */
  function Extend(job: Job, pc: Pc, h: History, r: Response): History {
    h + (if Recorded(RequestAt(job, pc), r) then [Exchange(RequestAt(job, pc), r)] else [])
  }

  lemma ToldBeforeSync(job: Job, pc: Pc, h: History, r: Response)
    requires pc.AtEntry? || pc.AtStart? || pc.AtRefresh? || pc.AtPreRefresh?
    requires Answers(RequestAt(job, pc), r) && Told(job, pc, h)
    ensures Told(job, Next(job, pc, r), Extend(job, pc, h, r))
  {
    hide NothingToSync, SyncOptions, WaitSentence, SubmissionSentence, Judge, SeenIn;
  }

  lemma ToldAnnouncing(job: Job, pc: Pc, h: History, r: Response)
    requires pc.AtSubmitted? || pc.AtSelection? || pc.AtSkip?
    requires Answers(RequestAt(job, pc), r) && Told(job, pc, h)
    ensures Told(job, Next(job, pc, r), Extend(job, pc, h, r))
  {
    hide FilterResources, WaitSentence, Judge, SeenIn;
  }

  lemma ToldSync(job: Job, pc: Pc, h: History, r: Response)
    requires pc.AtSync? || pc.AtInProgress?
    requires Answers(RequestAt(job, pc), r) && Told(job, pc, h)
    ensures Told(job, Next(job, pc, r), Extend(job, pc, h, r))
  {
    hide NothingToSync, SyncOptions, Judge, IsOpInProgress, WaitSentence;
  }

  lemma ToldTerminal(job: Job, pc: Pc, h: History, r: Response)
    requires pc.AtTerminal? || pc.AtSend? || pc.AtExit?
    requires Answers(RequestAt(job, pc), r) && Told(job, pc, h)
    ensures Told(job, Next(job, pc, r), Extend(job, pc, h, r))
  {
    hide Sentence, Ruling;
    assert h + [] == h;
  }

  lemma SeenExtends(t: History, x: Exchange, j: nat)
    ensures j < |t| ==> (SeenIn(t + [x], j) <==> SeenIn(t, j))
    ensures j == |t| ==>
              (SeenIn(t + [x], j) <==>
                 (j > 0 && SeenIn(t, j - 1)) || (x.response.Observed? && ShowsPhase(x.response.st)))
  {
    hide ShowsPhase;
    var u := t + [x];
    assert forall i :: 0 <= i < |t| ==> u[i] == t[i];
    if j == |t| && x.response.Observed? && ShowsPhase(x.response.st) {
      assert u[j] == x;
    }
  }

  lemma UndecidedExtends(job: Job, t: History, x: Exchange)
    requires AllUndecided(job, t)
    ensures AllUndecided(job, (t + [x])[..|t|])
    ensures forall j :: 0 <= j < |t| ==> Undecided(job, t + [x], j)
  {
    hide Judge, SeenIn;
    assert (t + [x])[..|t|] == t;
    forall j: nat | j < |t| ensures Undecided(job, t + [x], j) {
      SeenExtends(t, x, j);
      assert Undecided(job, t, j) && (t + [x])[j] == t[j];
    }
  }

  /** Adding an exchange to a history in the loop adds it to the observations. */
  lemma TailExtends(job: Job, h: History, w: Waiting, x: Exchange)
    requires InLoop(job, h, w)
    ensures var h' := h + [x];
            Tail(job, h') == Tail(job, h) + [x] && Left(job, h') == Left(job, h)
            && |h'| == |Prefix(job)| + 1 + |Tail(job, h')| && h'[..|Prefix(job)|] == Prefix(job)
            && h'[|Prefix(job)|] == h[|Prefix(job)|]
  {
    hide Prefix, AllUndecided, SeenIn, NothingToSync, SyncOptions, Waits, Submitting;
  }

  /** A history that has left the loop with `x` is a sentence. */
  lemma LoopCloses(job: Job, h: History, w: Waiting, x: Exchange)
    requires InLoop(job, h, w) && WaitSentence(job, Tail(job, h) + [x])
    ensures Sentence(job, h + [x])
  {
    hide AllUndecided, SeenIn, WaitSentence, NothingToSync, SyncOptions, IsOpInProgress;
    TailExtends(job, h, w, x);
    var h' := h + [x];
    var p := |Prefix(job)|;
    assert h'[p..][0] == h'[p] && h'[p..][1..] == Tail(job, h');
    assert SubmissionSentence(job, h'[p..]);
    assert h'[0] == h'[..p][0] == ENTERED;
    if NeedsRefresh(job) {
      assert h'[1..][0] == h'[1] == h'[..p][1];
      assert h'[1..][1..] == h'[p..];
    }
  }

  lemma ToldGet(job: Job, w: Waiting, h: History, r: Response)
    requires Answers(CallGet(w.polls), r) && InLoop(job, h, w)
    ensures Told(job, Next(job, AtGet(w), r), h + [Exchange(CallGet(w.polls), r)])
  {
    hide AllUndecided, SeenIn, NothingToSync, SyncOptions, Waits, Prefix, Judge, Sentence;
    var x := Exchange(CallGet(w.polls), r);
    assert (h + [x])[..|h|] == h;
    if r.Refused? {
      UndecidedExtends(job, Tail(job, h), x);
      assert (Tail(job, h) + [x])[w.polls] == x;
      LoopCloses(job, h, w, x);
    }
  }

  /** A history that ends with an observation about to be judged. */
  lemma ReportHistory(job: Job, w: Waiting, st: Application, h: History)
    requires Told(job, AtReport(w, st), h)
    ensures var t := Tail(job, h);
            h == h[..|h| - 1] + [Exchange(CallGet(w.polls), Observed(st))]
            && InLoop(job, h[..|h| - 1], w) && t == Tail(job, h[..|h| - 1]) + [h[|h| - 1]]
            && |t| == w.polls + 1 && SeenIn(t, w.polls) == (w.seenOp || ShowsPhase(st))
            && AllUndecided(job, t[..w.polls]) && (forall j :: 0 <= j < w.polls ==> Undecided(job, t, j))
            && Left(job, h) == w.left && |h| == |Prefix(job)| + 1 + |t|
            && h[..|Prefix(job)|] == Prefix(job) && h[|Prefix(job)|] == h[..|h| - 1][|Prefix(job)|]
  {
    hide AllUndecided, NothingToSync, SyncOptions, Waits, Prefix, Judge, ShowsPhase, SeenIn, Submitting;
    var before := h[..|h| - 1];
    var x := Exchange(CallGet(w.polls), Observed(st));
    assert h == before + [x];
    TailExtends(job, before, w, x);
    SeenExtends(Tail(job, before), x, w.polls);
    UndecidedExtends(job, Tail(job, before), x);
  }

  lemma ToldReportStops(job: Job, w: Waiting, st: Application, h: History)
    requires Told(job, AtReport(w, st), h)
    requires Judge(job.target, SyncOptions(job), st, w.seenOp || ShowsPhase(st)).Stop?
    ensures Told(job, Next(job, AtReport(w, st), Proceed), h)
  {
    hide AllUndecided, InLoop, SyncOptions, Prefix, Judge, Sentence, ShowsPhase, SeenIn, Left;
    ReportHistory(job, w, st, h);
    assert h[|h| - 1 - w.polls..] == Tail(job, h);
    LoopCloses(job, h[..|h| - 1], w, h[|h| - 1]);
    assert h != [TURNED_AWAY];
  }

  lemma ToldReportContinues(job: Job, w: Waiting, st: Application, h: History)
    requires Told(job, AtReport(w, st), h)
    requires Judge(job.target, SyncOptions(job), st, w.seenOp || ShowsPhase(st)).Continue?
    ensures Told(job, Next(job, AtReport(w, st), Proceed), h)
  {
    hide AllUndecided, SyncOptions, Prefix, Judge, ShowsPhase, SeenIn, NothingToSync, Waits;
    ReportHistory(job, w, st, h);
    assert Undecided(job, Tail(job, h), w.polls);
    StillUndecided(job, Tail(job, h));
  }

  lemma StillUndecided(job: Job, t: History)
    requires forall j :: 0 <= j < |t| ==> Undecided(job, t, j)
    ensures AllUndecided(job, t)
  {
  }

  lemma ToldSelect(job: Job, w: Waiting, st: Application, h: History, r: Response)
    requires Told(job, AtSelect(w, st), h) && Answers(AwaitTick(w.polls), r)
    ensures Told(job, Next(job, AtSelect(w, st), r), Extend(job, AtSelect(w, st), h, r))
  {
    hide AllUndecided, NothingToSync, SyncOptions, Waits, Judge, Sentence, SeenIn, Prefix;
    if r.ContextDone? {
      var x := Exchange(AwaitTick(w.polls), r);
      var t := Tail(job, h);
      assert (t + [x])[..|t|] == t;
      LoopCloses(job, h, w.(polls := w.polls + 1), x);
    } else {
      assert h + [] == h;
    }
  }

  lemma ToldKept(job: Job, pc: Pc, h: History, r: Response)
    requires Answers(RequestAt(job, pc), r) && Told(job, pc, h)
    ensures Told(job, Next(job, pc, r), Extend(job, pc, h, r))
  {
    hide Next, InLoop, NothingToSync, SyncOptions, Closed, Waits;
    match pc
    case AtGet(w) => ToldGet(job, w, h, r);
    case AtReport(w, st) =>
      assert h + [] == h;
      if Judge(job.target, SyncOptions(job), st, w.seenOp || ShowsPhase(st)).Stop? {
        ToldReportStops(job, w, st, h);
      } else {
        ToldReportContinues(job, w, st, h);
      }
    case AtSelect(w, st) => ToldSelect(job, w, st, h, r);
    case AtSync => ToldSync(job, pc, h, r);
    case AtInProgress(_) => ToldSync(job, pc, h, r);
    case AtSubmitted => ToldAnnouncing(job, pc, h, r);
    case AtSelection => ToldAnnouncing(job, pc, h, r);
    case AtSkip => ToldAnnouncing(job, pc, h, r);
    case AtTerminal(_, _) => ToldTerminal(job, pc, h, r);
    case AtSend(_, _) => ToldTerminal(job, pc, h, r);
    case AtExit(_, _) => ToldTerminal(job, pc, h, r);
    case _ => ToldBeforeSync(job, pc, h, r);
  }

  // ---- in the pool ----

  ghost predicate Histories(cfg: Config, s: State) {
    |s.slots| == |cfg.jobs|
    && forall i :: 0 <= i < |s.slots| && s.slots[i].Live? ==> Told(cfg.jobs[i], s.slots[i].pc, s.slots[i].history)
  }

  lemma HistoriesKept(cfg: Config, s: State, l: Label)
    requires Shape(cfg, s) && Histories(cfg, s) && Enabled(cfg, s, l)
    ensures Histories(cfg, Apply(cfg, s, l))
  {
    hide Next, RequestAt, ActiveCount, Told, Recorded;
    if l.Move? {
      ToldKept(cfg.jobs[l.i], s.slots[l.i].pc, s.slots[l.i].history, l.r);
    } else if l.Submit? {
      ToldAtEntry(cfg.jobs[s.next]);
    }
  }

  lemma ToldAtEntry(job: Job)
    ensures Told(job, AtEntry, [])
  {
  }

  lemma {:induction false} HistoriesAlong(cfg: Config, s: State, ls: seq<Label>)
    requires Proper(cfg) && Inv(cfg, s) && Histories(cfg, s) && Run(cfg, s, ls)
    ensures Histories(cfg, End(cfg, s, ls))
    decreases ls
  {
    hide Shape, Mail, Owned, Apply, Enabled, Histories;
    if ls != [] {
      ShapeKept(cfg, s, ls[0]);
      MailKept(cfg, s, ls[0]);
      OwnedKept(cfg, s, ls[0]);
      HistoriesKept(cfg, s, ls[0]);
      HistoriesAlong(cfg, Apply(cfg, s, ls[0]), ls[1..]);
    }
  }

  lemma HistoriesInitially(cfg: Config)
    ensures Histories(cfg, Initial(cfg))
  {
  }

  /** Whatever the interleaving, the answers and the cancellations: the calls of a finished worker form
      a sentence of the grammar, and its result is determined by them. */
  lemma FinishedTrace(cfg: Config, ls: seq<Label>, i: nat)
    requires Proper(cfg) && Run(cfg, Initial(cfg), ls)
    requires i < |cfg.jobs| && ResultOf(End(cfg, Initial(cfg), ls), i).Some?
    ensures var s := End(cfg, Initial(cfg), ls);
            i < |s.slots| && s.slots[i].Live?
            && Sentence(cfg.jobs[i], s.slots[i].history)
            && ResultOf(s, i) == Some(Ruling(cfg.jobs[i], s.slots[i].history))
  {
    hide Inv, Sentence, Ruling;
    InvInitially(cfg);
    HistoriesInitially(cfg);
    HistoriesAlong(cfg, Initial(cfg), ls);
  }

  /** The number of exchanges of a kind. */
  function SyncCalls(h: History): nat {
    if h == [] then 0 else (if h[0].request.CallSync? then 1 else 0) + SyncCalls(h[1..])
  }

  function RefreshCalls(h: History): nat {
    if h == [] then 0 else (if h[0].request.CallRefresh? then 1 else 0) + RefreshCalls(h[1..])
  }

  lemma {:induction false} OnlyGets(job: Job, t: History, n: nat)
    requires n <= |t| && forall j :: n <= j < |t| ==> t[j].request.CallGet? || t[j].request.AwaitTick?
    ensures SyncCalls(t[n..]) == 0 && RefreshCalls(t[n..]) == 0
    decreases |t| - n
  {
    if n < |t| {
      OnlyGets(job, t, n + 1);
      assert t[n..][1..] == t[n + 1..];
    }
  }

  lemma WaitSentenceGets(job: Job, t: History)
    requires WaitSentence(job, t)
    ensures SyncCalls(t) == 0 && RefreshCalls(t) == 0
    ensures forall j :: 0 <= j < |t| ==> !t[j].request.CallSync?
  {
    hide Judge, SeenIn, SyncOptions;
    forall j: nat | j < |t| ensures t[j].request.CallGet? || t[j].request.AwaitTick? {
      if j < |t| - 1 {
        assert t[..|t| - 1][j] == t[j];
        assert Undecided(job, t[..|t| - 1], j);
      }
    }
    OnlyGets(job, t, 0);
    assert t[0..] == t;
  }

  lemma SubmissionCalls(job: Job, t: History)
    requires SubmissionSentence(job, t)
    ensures SyncCalls(t) <= 1 && RefreshCalls(t) == 0
    ensures forall j :: 0 <= j < |t| && t[j].request.CallSync? ==> t[j].request.opts == SyncOptions(job) && !NothingToSync(job)
  {
    hide WaitSentence, Waits, NothingToSync, SyncOptions;
    if t != [] && |t| > 1 {
      WaitSentenceGets(job, t[1..]);
      assert forall j :: 1 <= j < |t| ==> t[j] == t[1..][j - 1];
    }
  }

  /** A finished worker has made at most one sync request and at most one refresh; a sync request comes
      only after a successful pre-refresh where one is due, carries the filtered selection, and is not
      made at all when nothing of the selection exists. */
  lemma SentenceCalls(job: Job, h: History)
    requires Sentence(job, h)
    ensures SyncCalls(h) <= 1 && RefreshCalls(h) <= 1
    ensures forall j :: 0 <= j < |h| && h[j].request.CallSync? ==>
              h[j].request.opts == SyncOptions(job) && !NothingToSync(job) && job.action == ActionSync
              && (NeedsRefresh(job) ==>
                    j > 1 && h[1] == Exchange(CallRefresh(job.opts.preHardRefresh), Proceed))
  {
    hide SubmissionSentence, NothingToSync, SyncOptions;
    if h[0] == ENTERED && |h| > 1 {
      var t := h[1..];
      assert forall j :: 1 <= j < |h| ==> h[j] == t[j - 1];
      assert SyncCalls(h) == SyncCalls(t) && RefreshCalls(h) == RefreshCalls(t);
      assert |t| == 1 ==> t[1..] == [];
      if job.action == ActionSync {
        if NeedsRefresh(job) {
          if |t| > 1 || t[0].response.Proceed? {
            SubmissionCalls(job, t[1..]);
            assert forall j :: 1 <= j < |t| ==> t[j] == t[1..][j - 1];
          }
        } else {
          SubmissionCalls(job, t);
        }
      }
    }
  }

  /** The sync request of a finished worker comes right after the prefix, and what follows it is a
      waiting loop or nothing. */
  lemma SyncPosition(job: Job, h: History, k: nat)
    requires Sentence(job, h) && k < |h| && h[k].request.CallSync?
    ensures k == |Prefix(job)|
    ensures if Waits(job, h[k].response) then WaitSentence(job, h[k + 1..]) else |h| == k + 1
    ensures Waits(job, h[k].response) <==>
            job.opts.wait && (h[k].response.Proceed? || (h[k].response.Refused? && ReportsInProgress(h[k].response.err)))
  {
    hide WaitSentence, NothingToSync, SyncOptions, IsOpInProgress, ReportsInProgress;
    if h[k].response.Refused? {
      InProgressMeaning(h[k].response.err);
    }
    var t := h[1..];
    assert t[k - 1] == h[k];
    var u := if NeedsRefresh(job) then t[1..] else t;
    var p := |Prefix(job)|;
    assert u == h[p..] && SubmissionSentence(job, u);
    if k > p {
      assert u[1..][k - p - 1] == h[k];
      WaitSentenceGets(job, u[1..]);
    }
    assert u[1..] == h[p + 1..];
  }

  /** A refresh is one call, normal or hard as the action says, and its answer is the result. */
  lemma RefreshCallsExactly(job: Job, h: History)
    requires Sentence(job, h) && job.clusterKnown && (job.action == ActionRefresh || job.action == ActionHardRefresh)
    requires h != [TURNED_AWAY]
    ensures |h| == 2 && h[0] == ENTERED && h[1].request == CallRefresh(job.action == ActionHardRefresh)
    ensures h[1].response == Proceed ==> Ruling(job, h) == Result(job.target, job.action, TaskSuccess, None)
    ensures h[1].response.Refused? ==>
              Ruling(job, h) == Result(job.target, job.action,
                                       if IsContextError(h[1].response.err) then TaskCancelled else TaskFailed,
                                       Some(h[1].response.err))
    ensures h[1].response == Proceed || h[1].response.Refused?
  {
    assert h[1..][0] == h[1];
  }

  /** A sync that was answered "already in progress" does not end in success, even if the wait does. */
  lemma InProgressNeverSucceeds(job: Job, h: History, k: nat)
    requires Sentence(job, h) && k < |h| && h[k].request.CallSync? && h[k].response.Refused?
    ensures Ruling(job, h).status != TaskSuccess
  {
    hide Judge, NothingToSync, SyncOptions, IsOpInProgress, Sentence, SeenIn;
    SyncPosition(job, h, k);
    assert Left(job, h).Some?;
    if Waits(job, h[k].response) {
      var t := h[k + 1..];
      var n := |t| - 1;
      assert t[n] == h[|h| - 1];
      if t[n].request.AwaitTick? {
        assert Undecided(job, t[..n], n - 1);
        assert t[..n][n - 1] == h[|h| - 2];
      }
    }
  }

  // ---- events ----

  /** What each emission of a worker says. Only the last one of a target has a status other than "running", and an
      error. */
  lemma EmissionMeaning(job: Job, pc: Pc)
    requires RequestAt(job, pc).Emit?
    ensures var ev := RequestAt(job, pc).ev;
            ev.target == job.target
            && (ev.action == if pc.AtReport? then ActionSync else job.action)
            && (if pc.AtTerminal? then ev.phase == pc.res.status && ev.err == pc.res.err else ev.phase == TaskRunning && ev.err.None?)
            && (pc.AtStart? || pc.AtTerminal? ==> ev.message == NoMessage)
            && (pc.AtSubmitted? ==> ev.message == Submitted)
            && (pc.AtSelection? && job.selection.Some? ==>
                  ev.message == Selection(|job.selection.value|, |FilterResources(job.meta.resources, job.selection.value)|))
            && (pc.AtSkip? ==> ev.message == Skipping)
            && (pc.AtInProgress? ==> ev.message == AlreadyInProgress)
            && (pc.AtReport? ==>
                  ev.message == WaitReport(pc.st.operationPhase, pc.st.syncStatus, pc.st.healthStatus, |SyncOptions(job).resources|))
  {
  }

  /** Only a sync waits. */
  lemma ReportsAreOfSyncs(job: Job, pc: Pc, h: History)
    requires Told(job, pc, h) && pc.AtReport?
    ensures job.action == ActionSync
  {
    hide AllUndecided, NothingToSync, SyncOptions, Waits, SeenIn;
  }

  ghost predicate Labelled(cfg: Config, s: State) {
    |s.slots| == |cfg.jobs|
    && forall i, k :: 0 <= i < |s.slots| && s.slots[i].Live? && 0 <= k < |s.slots[i].emitted| ==>
         s.slots[i].emitted[k].action == cfg.jobs[i].action
  }

  lemma LabelledKept(cfg: Config, s: State, l: Label)
    requires Shape(cfg, s) && Histories(cfg, s) && Labelled(cfg, s) && Enabled(cfg, s, l)
    ensures Labelled(cfg, Apply(cfg, s, l))
  {
    hide Next, RequestAt, ActiveCount, Told;
    if l.Move? {
      var job, slot := cfg.jobs[l.i], s.slots[l.i];
      if RequestAt(job, slot.pc).Emit? {
        EmissionMeaning(job, slot.pc);
        if slot.pc.AtReport? {
          ReportsAreOfSyncs(job, slot.pc, slot.history);
        }
      }
    }
  }

  lemma {:induction false} LabelledAlong(cfg: Config, s: State, ls: seq<Label>)
    requires Proper(cfg) && Inv(cfg, s) && Histories(cfg, s) && Labelled(cfg, s) && Run(cfg, s, ls)
    ensures Labelled(cfg, End(cfg, s, ls))
    decreases ls
  {
    hide Shape, Mail, Owned, Apply, Enabled, Histories, Labelled;
    if ls != [] {
      ShapeKept(cfg, s, ls[0]);
      MailKept(cfg, s, ls[0]);
      OwnedKept(cfg, s, ls[0]);
      HistoriesKept(cfg, s, ls[0]);
      LabelledKept(cfg, s, ls[0]);
      LabelledAlong(cfg, Apply(cfg, s, ls[0]), ls[1..]);
    }
  }

  /** Every event that a worker has delivered, in any run, carries the action of its target. */
  lemma EventActions(cfg: Config, ls: seq<Label>, i: nat, k: nat)
    requires Proper(cfg) && Run(cfg, Initial(cfg), ls) && i < |cfg.jobs|
    requires var s := End(cfg, Initial(cfg), ls);
             i < |s.slots| && s.slots[i].Live? && k < |s.slots[i].emitted|
    ensures End(cfg, Initial(cfg), ls).slots[i].emitted[k].action == cfg.jobs[i].action
  {
    hide Inv, Histories;
    InvInitially(cfg);
    HistoriesInitially(cfg);
    LabelledAlong(cfg, Initial(cfg), ls);
  }
}
