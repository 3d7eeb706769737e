/** The bulk runner (internal/services/bulk.go:30-167) as a labelled transition system: worker
    processes bounded by a semaphore, a result channel with one slot per target, an event channel that
    can block, the group context derived from the caller's, and the consumer of the events. */
module Pool {
  import opened Models
  import opened ResultOrder
  import opened Worker

  /** Capacity of the event channel that startRun makes. */
  const EVENT_SLOTS: nat := 256

  /** One job per target. `listening` is false for a nil event channel; `limit` bounds the
      GetApplication calls of one target (see `WaitLoop.WaitForHealthy`). */
  datatype Config = Config(jobs: seq<Job>, parallel: nat, listening: bool, limit: nat)

  predicate Proper(cfg: Config) {
    cfg.jobs != [] && cfg.parallel > 0 && cfg.limit > 0
  }

  /** What one API call, context check or select was answered. */
  datatype Exchange = Exchange(request: Request, response: Response)

  /** A worker, with its exchanges and the events it delivered so far. */
  datatype Slot = Unsubmitted | Live(pc: Pc, history: seq<Exchange>, emitted: seq<ProgressEvent>)

  datatype State = State(
    next: nat,                        // targets submitted so far
    slots: seq<Slot>,
    queue: seq<ProgressEvent>,        // the event channel
    held: Option<ProgressEvent>,      // received by the consumer, not yet processed
    shown: seq<ProgressEvent>,        // processed by the consumer
    results: seq<Result>,             // the result channel
    parentDone: bool,
    groupDone: bool,
    groupErr: Option<Err>,            // the first error returned by a worker
    returned: Option<seq<Result>>)

  datatype Label =
    | Submit
    | Move(i: nat, r: Response, delivered: bool)
    | Receive
    | Show
    | CancelParent
    | Propagate
    | Return(sorted: seq<Result>)

  function Initial(cfg: Config): State {
    State(0, seq(|cfg.jobs|, _ => Unsubmitted), [], None, [], [], false, false, None, None)
  }

  predicate Active(slot: Slot) {
    slot.Live? && !slot.pc.Halted?
  }

  function ActiveCount(slots: seq<Slot>): nat {
    if slots == [] then 0 else (if Active(slots[0]) then 1 else 0) + ActiveCount(slots[1..])
  }

  /** The exchanges that a worker's history keeps: all but the emissions, the result, the return, and
      the ticks that arrived. */
  predicate Recorded(q: Request, r: Response) {
    q.CheckContext? || q.CallRefresh? || q.CallSync? || q.CallGet? || (q.AwaitTick? && r.ContextDone?)
  }

  ghost predicate CanMove(cfg: Config, s: State, i: nat, r: Response, delivered: bool) {
    i < |s.slots| && i < |cfg.jobs| && Active(s.slots[i])
    && var q := RequestAt(cfg.jobs[i], s.slots[i].pc);
       Answers(q, r) && Within(cfg.limit, q, r)
       && (q.CheckContext? ==> (r.ContextDone? <==> s.groupDone))
       && (q.Emit? ==> if delivered then cfg.listening && |s.queue| < EVENT_SLOTS else !cfg.listening || s.groupDone)
       && (!q.Emit? ==> !delivered)
       && (q.Send? ==> |s.results| < |cfg.jobs|)
  }

  ghost predicate Enabled(cfg: Config, s: State, l: Label) {
    match l
    case Submit => s.next < |s.slots| && ActiveCount(s.slots) < cfg.parallel
    case Move(i, r, delivered) => CanMove(cfg, s, i, r, delivered)
    case Receive => s.held.None? && s.queue != []
    case Show => s.held.Some?
    case CancelParent => !s.parentDone
    case Propagate => s.parentDone && !s.groupDone
    case Return(sorted) =>
      s.returned.None? && s.next == |s.slots| && ActiveCount(s.slots) == 0
      && multiset(sorted) == multiset(s.results) && SortedResults(sorted)
  }

  function Moved(job: Job, slot: Slot, r: Response, delivered: bool): Slot
    requires slot.Live? && Answers(RequestAt(job, slot.pc), r)
  {
    var q := RequestAt(job, slot.pc);
    Live(Next(job, slot.pc, r),
         slot.history + (if Recorded(q, r) then [Exchange(q, r)] else []),
         slot.emitted + (if delivered && q.Emit? then [q.ev] else []))
  }

  ghost function Apply(cfg: Config, s: State, l: Label): State
    requires Enabled(cfg, s, l)
  {
    match l
    case Submit => s.(slots := s.slots[s.next := Live(AtEntry, [], [])], next := s.next + 1)
    case Move(i, r, delivered) =>
      var q := RequestAt(cfg.jobs[i], s.slots[i].pc);
      var failed := q.Exit? && q.ret.Some?;
      s.(slots := s.slots[i := Moved(cfg.jobs[i], s.slots[i], r, delivered)],
         queue := s.queue + (if delivered && q.Emit? then [q.ev] else []),
         results := s.results + (if q.Send? then [q.res] else []),
         groupErr := if failed && s.groupErr.None? then q.ret else s.groupErr,
         groupDone := s.groupDone || failed)
    case Receive => s.(held := Some(s.queue[0]), queue := s.queue[1..])
    case Show => s.(shown := s.shown + [s.held.value], held := None)
    case CancelParent => s.(parentDone := true)
    case Propagate => s.(groupDone := true)
    case Return(sorted) => s.(returned := Some(sorted), groupDone := true)
  }

  /** `ls` can be taken one after the other from `s`. */
  ghost predicate Run(cfg: Config, s: State, ls: seq<Label>)
    decreases ls
  {
    ls != [] ==> Enabled(cfg, s, ls[0]) && Run(cfg, Apply(cfg, s, ls[0]), ls[1..])
  }

  ghost function End(cfg: Config, s: State, ls: seq<Label>): State
    requires Run(cfg, s, ls)
    decreases ls
  {
    if ls == [] then s else End(cfg, Apply(cfg, s, ls[0]), ls[1..])
  }

  /** The runner has returned and every event has been processed. */
  predicate Final(s: State) {
    s.returned.Some? && s.queue == [] && s.held.None?
  }

  // ---- invariants ----

  ghost predicate Shape(cfg: Config, s: State) {
    && |s.slots| == |cfg.jobs| && s.next <= |s.slots|
    && (forall i :: 0 <= i < |s.slots| ==> (s.slots[i].Live? <==> i < s.next))
    && (forall i :: 0 <= i < s.next ==> PcOk(cfg.limit, s.slots[i].pc))
    && ActiveCount(s.slots) <= cfg.parallel
    && (s.returned.Some? ==> s.next == |s.slots| && ActiveCount(s.slots) == 0)
  }

  /** The worker has put its result into the channel. */
  predicate HasSent(slot: Slot) {
    slot.Live? && (slot.pc.AtExit? || slot.pc.Halted?)
  }

  /** The results that workers have sent, in the order of the targets. */
  function SentResults(slots: seq<Slot>): seq<Result> {
    if slots == [] then []
    else (if HasSent(slots[0]) then [slots[0].pc.res] else []) + SentResults(slots[1..])
  }

  /** The result channel holds exactly one result of each worker that has sent one, and the result
      list is the same in order. */
  ghost predicate Mail(cfg: Config, s: State) {
    && multiset(s.results) == multiset(SentResults(s.slots))
    && (s.returned.Some? ==> multiset(s.returned.value) == multiset(s.results) && SortedResults(s.returned.value))
  }

  lemma {:induction false} CountUpdate(slots: seq<Slot>, i: nat, slot: Slot)
    requires i < |slots|
    ensures ActiveCount(slots[i := slot])
         == ActiveCount(slots) - (if Active(slots[i]) then 1 else 0) + (if Active(slot) then 1 else 0)
  {
    if i > 0 {
      CountUpdate(slots[1..], i - 1, slot);
      assert slots[i := slot][1..] == slots[1..][i - 1 := slot];
    } else {
      assert slots[0 := slot][1..] == slots[1..];
    }
  }

  lemma {:induction false} CountNone(slots: seq<Slot>)
    requires forall i :: 0 <= i < |slots| ==> !Active(slots[i])
    ensures ActiveCount(slots) == 0
  {
    if slots != [] { CountNone(slots[1..]); }
  }

  lemma {:induction false} CountSome(slots: seq<Slot>, i: nat)
    requires i < |slots| && Active(slots[i])
    ensures ActiveCount(slots) > 0
  {
    if i > 0 { CountSome(slots[1..], i - 1); }
  }

  /** Sending adds one result; other moves of a worker leave the sent results alone. */
  lemma {:induction false} SentUpdate(slots: seq<Slot>, i: nat, slot: Slot)
    requires i < |slots|
    ensures !HasSent(slots[i]) && HasSent(slot) ==>
              multiset(SentResults(slots[i := slot])) == multiset(SentResults(slots)) + multiset{slot.pc.res}
    ensures (HasSent(slots[i]) <==> HasSent(slot)) && (HasSent(slot) ==> slots[i].pc.res == slot.pc.res) ==>
              SentResults(slots[i := slot]) == SentResults(slots)
  {
    hide HasSent;
    if i > 0 {
      SentUpdate(slots[1..], i - 1, slot);
      assert slots[i := slot][1..] == slots[1..][i - 1 := slot];
    } else {
      assert slots[0 := slot][1..] == slots[1..];
    }
  }

  lemma {:induction false} SentRoom(slots: seq<Slot>)
    ensures |SentResults(slots)| <= |slots|
    ensures (exists i :: 0 <= i < |slots| && !HasSent(slots[i])) ==> |SentResults(slots)| < |slots|
  {
    hide HasSent;
    if slots != [] {
      SentRoom(slots[1..]);
    }
  }

  lemma {:induction false} SentNone(slots: seq<Slot>)
    requires forall i :: 0 <= i < |slots| ==> !HasSent(slots[i])
    ensures SentResults(slots) == []
  {
    if slots != [] { SentNone(slots[1..]); }
  }

  lemma ShapeInitially(cfg: Config)
    requires Proper(cfg)
    ensures Shape(cfg, Initial(cfg)) && Mail(cfg, Initial(cfg))
  {
    CountNone(Initial(cfg).slots);
    SentNone(Initial(cfg).slots);
  }

  lemma ShapeKept(cfg: Config, s: State, l: Label)
    requires Proper(cfg) && Shape(cfg, s) && Enabled(cfg, s, l)
    ensures Shape(cfg, Apply(cfg, s, l))
  {
    match l
    case Submit => CountUpdate(s.slots, s.next, Live(AtEntry, [], []));
    case Move(i, r, delivered) =>
      StepLowersRank(cfg.limit, cfg.jobs[i], s.slots[i].pc, r);
      CountUpdate(s.slots, i, Moved(cfg.jobs[i], s.slots[i], r, delivered));
      CountSome(s.slots, i);
    case _ =>
  }

  /** Where results are made and sent, in the program of one worker. */
  lemma SendingSteps(job: Job, pc: Pc, r: Response)
    requires !pc.Halted? && Answers(RequestAt(job, pc), r)
    ensures var pc' := Next(job, pc, r);
            (RequestAt(job, pc).Send? <==> pc.AtSend?)
            && (pc.AtSend? ==> RequestAt(job, pc).res == pc.res && pc' == AtExit(pc.res, pc.ret))
            && (pc.AtExit? ==> pc' == Halted(pc.res, pc.ret) && RequestAt(job, pc) == Exit(pc.ret))
            && (RequestAt(job, pc).Exit? ==> pc.AtExit?)
            && (!pc.AtSend? && !pc.AtExit? ==> !pc'.AtExit? && !pc'.Halted?)
  {
  }

  /** What a step does to the mail: only a send changes it, and only an exit follows a send. */
  lemma MoveMail(cfg: Config, s: State, l: Label)
    requires l.Move? && Enabled(cfg, s, l)
    ensures var s' := Apply(cfg, s, l);
            var before, after := s.slots[l.i], s'.slots[l.i];
            s'.returned == s.returned && s'.slots == s.slots[l.i := after]
            && (if before.pc.AtSend? then
                  !HasSent(before) && HasSent(after) && after.pc.res == before.pc.res && s'.results == s.results + [before.pc.res]
                else
                  s'.results == s.results && (HasSent(after) <==> HasSent(before))
                  && (HasSent(before) ==> after.pc.res == before.pc.res))
  {
    hide Next, RequestAt, ActiveCount;
    SendingSteps(cfg.jobs[l.i], s.slots[l.i].pc, l.r);
  }

  lemma MailKept(cfg: Config, s: State, l: Label)
    requires Proper(cfg) && Shape(cfg, s) && Mail(cfg, s) && Enabled(cfg, s, l)
    ensures Mail(cfg, Apply(cfg, s, l))
  {
    hide SortedResults, ActiveCount, Moved;
    if l.Move? {
      CanMoveWhileRunning(cfg, s, l);
      MoveMail(cfg, s, l);
      SentUpdate(s.slots, l.i, Apply(cfg, s, l).slots[l.i]);
    } else if l.Submit? {
      SentUpdate(s.slots, s.next, Live(AtEntry, [], []));
    }
  }

  lemma CanMoveWhileRunning(cfg: Config, s: State, l: Label)
    requires Shape(cfg, s) && l.Move? && Enabled(cfg, s, l)
    ensures s.returned.None? && l.i < |s.slots| && s.slots[l.i].Live?
  {
    hide Next, RequestAt;
    CountSome(s.slots, l.i);
  }

  /** No more than 256 events wait in the channel, in any reachable state. */
  lemma {:induction false} QueueBounded(cfg: Config, s: State, ls: seq<Label>)
    requires |s.queue| <= 256 && Run(cfg, s, ls)
    ensures |End(cfg, s, ls).queue| <= 256
    decreases ls
  {
    hide Next, RequestAt, ActiveCount;
    if ls != [] {
      QueueBounded(cfg, Apply(cfg, s, ls[0]), ls[1..]);
    }
  }
}
