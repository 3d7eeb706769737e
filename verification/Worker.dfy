/** The program that the bulk runner executes for one target (internal/services/bulk.go:54-149), as a
    process: at each program point it issues one request and continues according to the response.
    The pool interleaves these processes; `Execute` runs one of them alone. */
module Worker {
  import opened GoStrings
  import opened Models

  /** Everything one invocation of the worker closure captures. `selection` is the entry of
      resourcesByApp for the target's application, or `None` when there is no such map at all. */
  datatype Job = Job(
    target: Target,
    clusterKnown: bool,
    meta: Application,
    action: Action,
    opts: RunOptions,
    selection: Option<seq<SyncResource>>)

  const IN_PROGRESS_TEXT := "operation is already in progress"

  /** IsOpInProgressErr; of the errors in the model only the API's can carry the text. */
  predicate IsOpInProgress(e: Err) {
    e.ApiError? && Contains(ToLower(e.text), IN_PROGRESS_TEXT)
  }

  /** filterResourceForTarget: the selected resources that the target's application lists. */
  function FilterResources(listed: seq<SyncResource>, selected: seq<SyncResource>): (r: seq<SyncResource>)
    ensures forall x :: x in r <==> x in listed && x in selected
  {
    if selected == [] then []
    else (if selected[0] in listed then [selected[0]] else []) + FilterResources(listed, selected[1..])
  }

  /** The text contains the phrase, in capitals or not. */
  predicate Mentions(text: string, before: string, phrase: string, after: string) {
    text == before + phrase + after && SameFold(phrase, "operation is already in progress")
  }

  /** An error of the API, anywhere in which the phrase occurs. */
  ghost predicate ReportsInProgress(e: Err) {
    e.ApiError? && exists before, phrase, after :: Mentions(e.text, before, phrase, after)
  }

  lemma FoldedChar(x: char, y: char)
    requires !('A' <= y <= 'Z')
    ensures LowerChar(x) == y <==> x == y || ('a' <= y <= 'z' && x as int + 32 == y as int)
  {
  }

  lemma FoldedAt(text: string, i: nat, lower: string)
    requires i + |lower| <= |text| && forall c :: c in lower ==> !('A' <= c <= 'Z')
    ensures |ToLower(text)| == |text|
    ensures lower <= ToLower(text)[i..] <==> SameFold(text[i..i + |lower|], lower)
  {
    hide ToLower, LowerChar;
    ToLowerAt(text);
    forall j | 0 <= j < |lower|
      ensures ToLower(text)[i..][j] == lower[j]
         <==> text[i + j] == lower[j] || ('a' <= lower[j] <= 'z' && text[i + j] as int + 32 == lower[j] as int)
    {
      assert lower[j] in lower;
      FoldedChar(text[i + j], lower[j]);
    }
    var p := text[i..i + |lower|];
    assert forall j :: 0 <= j < |lower| ==> p[j] == text[i + j];
  }

  lemma RecognisedMentions(text: string)
    requires Contains(ToLower(text), IN_PROGRESS_TEXT)
    ensures exists before, phrase, after :: Mentions(text, before, phrase, after)
  {
    hide ToLower, SameFold;
    var n := |IN_PROGRESS_TEXT|;
    ToLowerAt(text);
    var i :| 0 <= i <= |ToLower(text)| && IN_PROGRESS_TEXT <= ToLower(text)[i..];
    FoldedAt(text, i, IN_PROGRESS_TEXT);
    assert Mentions(text, text[..i], text[i..i + n], text[i + n..]);
  }

  lemma MentionedIsRecognised(text: string, before: string, phrase: string, after: string)
    requires Mentions(text, before, phrase, after)
    ensures Contains(ToLower(text), IN_PROGRESS_TEXT)
  {
    hide ToLower, SameFold;
    FoldLength(phrase);
    assert text[|before|..|before| + |phrase|] == phrase;
    FoldedAt(text, |before|, IN_PROGRESS_TEXT);
  }

  /** IsOpInProgressErr recognises exactly the errors of the API that mention the phrase. */
  lemma InProgressMeaning(e: Err)
    ensures IsOpInProgress(e) <==> ReportsInProgress(e)
  {
    hide ToLower, Contains, Mentions;
    if IsOpInProgress(e) {
      RecognisedMentions(e.text);
    }
    if ReportsInProgress(e) {
      var before, phrase, after :| Mentions(e.text, before, phrase, after);
      MentionedIsRecognised(e.text, before, phrase, after);
    }
  }

  lemma FoldLength(phrase: string)
    requires SameFold(phrase, "operation is already in progress")
    ensures |phrase| == |IN_PROGRESS_TEXT|
  {
  }

  /** The answer of Argo CD that bulk.go:171 quotes is one. */
  lemma RpcErrorReports(wrapsContext: bool)
    ensures IsOpInProgress(ApiError(wrapsContext,
              "rpc error: code = FailedPrecondition " + "desc = another " + "operation is already in progress"))
  {
    var before := "rpc error: code = FailedPrecondition " + "desc = another ";
    var e := ApiError(wrapsContext, before + "operation is already in progress");
    assert e.text == before + "operation is already in progress" + "";
    assert Mentions(e.text, before, "operation is already in progress", "");
    hide IsOpInProgress;
    InProgressMeaning(e);
  }

  lemma FilterStep(listed: seq<SyncResource>, s: seq<SyncResource>)
    ensures FilterResources(listed, []) == []
    ensures s != [] ==>
              FilterResources(listed, s) == (if s[0] in listed then [s[0]] else []) + FilterResources(listed, s[1..])
  {
  }

  /** Filtering goes through the selection from left to right, keeping order and repetitions. */
  lemma {:induction false} FilterDistributes(listed: seq<SyncResource>, a: seq<SyncResource>, b: seq<SyncResource>)
    ensures FilterResources(listed, a + b) == FilterResources(listed, a) + FilterResources(listed, b)
  {
    hide FilterResources;
    FilterStep(listed, a);
    if a == [] {
      assert a + b == b;
    } else {
      FilterDistributes(listed, a[1..], b);
      FilterStep(listed, a + b);
      assert (a + b)[1..] == a[1..] + b;
    }
  }

  lemma FilterOne(listed: seq<SyncResource>, r: SyncResource)
    ensures FilterResources(listed, [r]) == if r in listed then [r] else []
  {
    assert [r][1..] == [];
  }

  /** The options of the sync request. */
  function SyncOptions(job: Job): RunOptions {
    if job.selection.None? then job.opts
    else job.opts.(resources := FilterResources(job.meta.resources, job.selection.value))
  }

  /** Nothing of a non-empty selection exists in the target's cluster. */
  predicate NothingToSync(job: Job) {
    job.selection.Some? && job.selection.value != []
    && FilterResources(job.meta.resources, job.selection.value) == []
  }

  /** There is a selection, and the application lists none of it. */
  lemma NothingToSyncMeaning(job: Job)
    ensures NothingToSync(job) <==>
            job.selection.Some? && job.selection.value != [] && forall x :: x in job.selection.value ==> x !in job.meta.resources
  {
    if job.selection.Some? {
      var kept := FilterResources(job.meta.resources, job.selection.value);
      if kept != [] {
        assert kept[0] in kept;
      }
    }
  }

  function EffectiveTimeout(opts: RunOptions): int {
    if opts.waitTimeout == 0 then 600_000_000_000 else opts.waitTimeout
  }

  function EffectiveInterval(opts: RunOptions): int {
    if opts.pollInterval == 0 then 2_000_000_000 else opts.pollInterval
  }

  /** What one observation leads to. */
  datatype Decision = Stop(err: Option<Err>) | Continue

  predicate Failing(st: Application) {
    st.operationPhase == "Failed" || st.operationPhase == "Error"
  }

  predicate ShowsPhase(st: Application) {
    TrimSpace(st.operationPhase) != ""
  }

  predicate OperationDone(st: Application) {
    st.operationPhase == "" || st.operationPhase == "Succeeded"
  }

  /** The body of the waiting loop after the message was emitted: `seen` already includes `st`. */
  function Judge(target: Target, opts: RunOptions, st: Application, seen: bool): Decision {
    if Failing(st) then
      Stop(Some(OperationFailed(target, st.operationPhase,
                                if st.operationMessage == "" then "operation failed" else st.operationMessage)))
    else if opts.resources != [] && OperationDone(st) && seen then Stop(None)
    else if st.syncStatus == "Synced" && OperationDone(st)
            && (!opts.waitHealthy || st.healthStatus == "Healthy" || st.healthStatus == "" || st.healthStatus == "Unknown") then
      Stop(None)
    else Continue
  }

  /** The state of the waiting loop: GetApplication calls completed, `seenOp`, and the error that the
      sync call left behind. */
  datatype Waiting = Waiting(polls: nat, seenOp: bool, left: Option<Err>)

  datatype Pc =
    | AtEntry                                        // select on ctx.Done()
    | AtStart                                        // first "running" event
    | AtRefresh(hard: bool)                          // the refresh actions
    | AtPreRefresh(hard: bool)
    | AtSubmitted                                    // "submitted sync request"
    | AtSelection                                    // "resourc selection"
    | AtSkip                                         // "skipping"
    | AtSync
    | AtInProgress(err: Err)                         // "sync already in progress"
    | AtGet(w: Waiting)
    | AtReport(w: Waiting, st: Application)          // the wait message
    | AtSelect(w: Waiting, st: Application)          // select on ctx.Done() and the ticker
    | AtTerminal(res: Result, ret: Option<Err>)      // terminal event
    | AtSend(res: Result, ret: Option<Err>)          // resCh <-
    | AtExit(res: Result, ret: Option<Err>)          // return from the closure
    | Halted(res: Result, ret: Option<Err>)

  datatype Request =
    | CheckContext
    | Emit(ev: ProgressEvent)
    | CallRefresh(hard: bool)
    | CallSync(opts: RunOptions)
    | CallGet(polls: nat)
    | AwaitTick(polls: nat)
    | Send(res: Result)
    | Exit(ret: Option<Err>)
    | NoRequest

  datatype Response =
    | Proceed                     // done, no error, or the tick arrived
    | Refused(err: Err)           // an API call returned an error
    | Observed(st: Application)   // GetApplication returned
    | ContextDone                 // the ctx.Done() branch was taken

  function Event(job: Job, phase: TaskStatus, message: Message, err: Option<Err>): ProgressEvent {
    ProgressEvent(job.target, phase, job.action, message, err)
  }

  function Outcome(job: Job, status: TaskStatus, err: Option<Err>): Result {
    Result(job.target, job.action, status, err)
  }

  /** bulk.go:134-148: how the error variable decides the terminal event and the result. */
  function Conclude(job: Job, err: Option<Err>): Pc {
    AtTerminal(Outcome(job, StatusOf(err), err), None)
  }

  function StatusOf(err: Option<Err>): TaskStatus {
    if err.None? then TaskSuccess else if IsContextError(err.value) then TaskCancelled else TaskFailed
  }

  function SelectionMessage(job: Job): Message {
    Selection(if job.selection.Some? then |job.selection.value| else 0, |SyncOptions(job).resources|)
  }

  function Report(job: Job, st: Application): Message {
    WaitReport(st.operationPhase, st.syncStatus, st.healthStatus, |SyncOptions(job).resources|)
  }

  function RequestAt(job: Job, pc: Pc): Request {
    match pc
    case AtEntry => CheckContext
    case AtStart => Emit(Event(job, TaskRunning, NoMessage, None))
    case AtRefresh(hard) => CallRefresh(hard)
    case AtPreRefresh(hard) => CallRefresh(hard)
    case AtSubmitted => Emit(Event(job, TaskRunning, Submitted, None))
    case AtSelection => Emit(Event(job, TaskRunning, SelectionMessage(job), None))
    case AtSkip => Emit(Event(job, TaskRunning, Skipping, None))
    case AtSync => CallSync(SyncOptions(job))
    case AtInProgress(_) => Emit(Event(job, TaskRunning, AlreadyInProgress, None))
    case AtGet(w) => CallGet(w.polls)
    case AtReport(w, st) =>
      Emit(ProgressEvent(job.target, TaskRunning, ActionSync, Report(job, st), None))
    case AtSelect(w, st) => AwaitTick(w.polls)
    case AtTerminal(res, _) => Emit(Event(job, res.status, NoMessage, res.err))
    case AtSend(res, _) => Send(res)
    case AtExit(_, ret) => Exit(ret)
    case Halted(_, _) => NoRequest
  }

  /** The responses that a request can get. */
  predicate Answers(q: Request, r: Response) {
    match q
    case CheckContext => r.Proceed? || r.ContextDone?
    case CallRefresh(_) => r.Proceed? || r.Refused?
    case CallSync(_) => r.Proceed? || r.Refused?
    case CallGet(_) => r.Observed? || r.Refused?
    case AwaitTick(_) => r.Proceed? || r.ContextDone?
    case NoRequest => false
    case _ => r.Proceed?
  }

  function Next(job: Job, pc: Pc, r: Response): Pc
    requires Answers(RequestAt(job, pc), r)
  {
    match pc
    case AtEntry =>
      if r.ContextDone? then AtTerminal(Outcome(job, TaskCancelled, Some(ContextError)), Some(ContextError))
      else if !job.clusterKnown then
        AtTerminal(Outcome(job, TaskFailed, Some(UnknownCluster(job.target.clusterContext))), None)
      else AtStart
    case AtStart => (
      match job.action
      case ActionRefresh => AtRefresh(false)
      case ActionHardRefresh => AtRefresh(true)
      case ActionSync =>
        if job.opts.preHardRefresh then AtPreRefresh(true)
        else if job.opts.preRefresh then AtPreRefresh(false)
        else AtSubmitted
      case ActionOther(_) => Conclude(job, Some(UnsupportedAction(job.action)))
    )
    case AtRefresh(_) => Conclude(job, if r.Refused? then Some(r.err) else None)
    case AtPreRefresh(hard) =>
      if r.Refused? then Conclude(job, Some(PreRefreshFailed(hard, r.err))) else AtSubmitted
    case AtSubmitted => if job.selection.Some? then AtSelection else AtSync
    case AtSelection => if NothingToSync(job) then AtSkip else AtSync
    case AtSkip => AtSend(Outcome(job, TaskSuccess, None), None)
    case AtSync =>
      if r.Refused? then
        if job.opts.wait && IsOpInProgress(r.err) then AtInProgress(r.err) else Conclude(job, Some(r.err))
      else if job.opts.wait then AtGet(Waiting(0, false, None))
      else Conclude(job, None)
    case AtInProgress(e) => AtGet(Waiting(0, false, Some(e)))
    case AtGet(w) => if r.Refused? then Conclude(job, Some(r.err)) else AtReport(w, r.st)
    case AtReport(w, st) => (
      var seen := w.seenOp || ShowsPhase(st);
      match Judge(job.target, SyncOptions(job), st, seen)
      case Stop(err) => Conclude(job, if err.Some? then err else w.left)
      case Continue => AtSelect(w.(seenOp := seen), st)
    )
    case AtSelect(w, st) =>
      if r.ContextDone? then
        Conclude(job, Some(WaitTimedOut(job.target, EffectiveTimeout(job.opts), Report(job, st))))
      else AtGet(w.(polls := w.polls + 1))
    case AtTerminal(res, ret) => AtSend(res, ret)
    case AtSend(res, ret) => AtExit(res, ret)
    case AtExit(res, ret) => Halted(res, ret)
  }

  /** With at most `limit` GetApplication calls, the last of which fails. */
  predicate Within(limit: nat, q: Request, r: Response) {
    q.CallGet? && q.polls + 1 >= limit ==> r.Refused?
  }

  predicate PcOk(limit: nat, pc: Pc) {
    match pc
    case AtGet(w) => w.polls < limit
    case AtReport(w, _) => w.polls + 1 < limit
    case AtSelect(w, _) => w.polls + 1 < limit
    case _ => true
  }

  /** The error behind a failed pre-refresh. */
  function Cause(e: Err): Err {
    if e.PreRefreshFailed? then Cause(e.cause) else e
  }

  /** What counts as a cancellation: the context's own error, and the errors of the API that wrap it. */
  lemma {:induction false} ContextErrors(e: Err)
    ensures IsContextError(e) <==> Cause(e) == ContextError || (Cause(e).ApiError? && Cause(e).wrapsContext)
  {
    if e.PreRefreshFailed? { ContextErrors(e.cause); }
  }

  /** How many steps are left at most. */
  function Rank(limit: nat, pc: Pc): nat
    requires PcOk(limit, pc)
  {
    match pc
    case AtEntry => 3 * limit + 10
    case AtStart => 3 * limit + 9
    case AtPreRefresh(_) => 3 * limit + 8
    case AtSubmitted => 3 * limit + 7
    case AtSelection => 3 * limit + 6
    case AtSync => 3 * limit + 5
    case AtInProgress(_) => 3 * limit + 4
    case AtGet(w) => 3 * (limit - w.polls) + 3
    case AtReport(w, _) => 3 * (limit - w.polls) + 2
    case AtSelect(w, _) => 3 * (limit - w.polls) + 1
    case AtRefresh(_) => 4
    case AtTerminal(_, _) => 3
    case AtSkip => 3
    case AtSend(_, _) => 2
    case AtExit(_, _) => 1
    case Halted(_, _) => 0
  }

  lemma StepLowersRank(limit: nat, job: Job, pc: Pc, r: Response)
    requires limit > 0 && PcOk(limit, pc)
    requires Answers(RequestAt(job, pc), r) && Within(limit, RequestAt(job, pc), r)
    ensures PcOk(limit, Next(job, pc, r)) && Rank(limit, Next(job, pc, r)) < Rank(limit, pc)
  {
  }
}
