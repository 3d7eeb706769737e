/** The events of a run, as the consumer sees them (internal/tui/tui.go:307-320, 1283-1347). */
module Events {
  import opened Models
  import opened Ordering
  import opened Worker
  import opened Execution
  import opened Pool
  import opened Conservation
  import opened Refinement

  /** The events of one target, in order. */
  function Mine(evs: seq<ProgressEvent>, t: Target): seq<ProgressEvent> {
    if evs == [] then []
    else (if evs[0].target == t then [evs[0]] else []) + Mine(evs[1..], t)
  }

  /** Everything that was put into the event channel. */
  function Log(s: State): seq<ProgressEvent> {
    s.shown + (if s.held.Some? then [s.held.value] else []) + s.queue
  }

  lemma {:induction false} MineSnoc(a: seq<ProgressEvent>, e: ProgressEvent, t: Target)
    ensures Mine(a + [e], t) == Mine(a, t) + (if e.target == t then [e] else [])
  {
    if a != [] {
      MineSnoc(a[1..], e, t);
      assert (a + [e])[1..] == a[1..] + [e];
      assert (a + [e])[0] == a[0];
    } else {
      assert a + [e] == [e];
    }
  }

  /** The log holds, for each target, exactly what its worker delivered, in order. */
  ghost predicate Logged(cfg: Config, s: State) {
    |s.slots| == |cfg.jobs|
    && forall i :: 0 <= i < |s.slots| ==>
         Mine(Log(s), cfg.jobs[i].target) == if s.slots[i].Live? then s.slots[i].emitted else []
  }

  lemma EmitsOwn(job: Job, pc: Pc)
    ensures RequestAt(job, pc).Emit? ==> RequestAt(job, pc).ev.target == job.target
  {
  }

  lemma LoggedKept(cfg: Config, s: State, l: Label)
    requires Shape(cfg, s) && Logged(cfg, s) && Enabled(cfg, s, l) && Distinct(TargetsOfJobs(cfg.jobs))
    ensures Logged(cfg, Apply(cfg, s, l))
  {
    hide ActiveCount, Mine, Log;
    LogStep(cfg, s, l);
    if l.Move? {
      LoggedKeptByMove(cfg, s, l);
    }
  }

  /** Only a delivery adds to the log; the consumer's steps pass events along. */
  lemma LogStep(cfg: Config, s: State, l: Label)
    requires Enabled(cfg, s, l)
    ensures !l.Move? ==> Log(Apply(cfg, s, l)) == Log(s)
    ensures l.Move? ==>
              var q := RequestAt(cfg.jobs[l.i], s.slots[l.i].pc);
              Log(Apply(cfg, s, l)) == Log(s) + (if l.delivered && q.Emit? then [q.ev] else [])
  {
    hide RequestAt, Next, ActiveCount;
    if l.Receive? {
      assert s.queue == [s.queue[0]] + s.queue[1..];
    }
  }

  lemma LoggedKeptByMove(cfg: Config, s: State, l: Label)
    requires Shape(cfg, s) && Logged(cfg, s) && l.Move? && Enabled(cfg, s, l) && Distinct(TargetsOfJobs(cfg.jobs))
    ensures Logged(cfg, Apply(cfg, s, l))
  {
    hide ActiveCount, RequestAt, Next, Log, Mine;
    LogStep(cfg, s, l);
    var q := RequestAt(cfg.jobs[l.i], s.slots[l.i].pc);
    EmitsOwn(cfg.jobs[l.i], s.slots[l.i].pc);
    var s' := Apply(cfg, s, l);
    forall i | 0 <= i < |s'.slots|
      ensures Mine(Log(s'), cfg.jobs[i].target) == if s'.slots[i].Live? then s'.slots[i].emitted else []
    {
      if l.delivered && q.Emit? {
        MineSnoc(Log(s), q.ev, cfg.jobs[i].target);
        assert TargetsOfJobs(cfg.jobs)[i] == cfg.jobs[i].target && TargetsOfJobs(cfg.jobs)[l.i] == cfg.jobs[l.i].target;
      } else {
        assert Log(s') == Log(s) && s'.slots[l.i].emitted == s.slots[l.i].emitted;
      }
    }
  }

  /** Events of one target: only "running", except for at most one terminal event, which is the last and
      tells the worker's result. */
  predicate Told(res: Option<Result>, evs: seq<ProgressEvent>) {
    forall k :: 0 <= k < |evs| ==>
      evs[k].phase == TaskRunning
      || (k == |evs| - 1 && res.Some? && evs[k].phase == res.value.status && evs[k].err == res.value.err)
  }

  /** The result, once the worker is past its terminal event. */
  function Announced(pc: Pc): Option<Result> {
    if pc.AtSend? || pc.AtExit? || pc.Halted? then Some(pc.res) else None
  }

  ghost predicate Protocol(cfg: Config, s: State) {
    forall i :: 0 <= i < |s.slots| && s.slots[i].Live? ==> Told(Announced(s.slots[i].pc), s.slots[i].emitted)
  }

  lemma EmitsInOrder(job: Job, pc: Pc, r: Response)
    requires !pc.Halted? && Answers(RequestAt(job, pc), r)
    ensures var q := RequestAt(job, pc);
            var pc' := Next(job, pc, r);
            (Announced(pc).Some? ==> !q.Emit? && Announced(pc') == Announced(pc))
            && (q.Emit? ==> q.ev.phase == TaskRunning
                            || (Announced(pc').Some? && q.ev.phase == Announced(pc').value.status
                                && q.ev.err == Announced(pc').value.err))
  {
    hide SyncOptions, NothingToSync, Judge, IsOpInProgress;
  }

  lemma ProtocolKept(cfg: Config, s: State, l: Label)
    requires Shape(cfg, s) && Protocol(cfg, s) && Enabled(cfg, s, l)
    ensures Protocol(cfg, Apply(cfg, s, l))
  {
    hide ActiveCount, RequestAt, Next, Announced;
    if l.Move? {
      EmitsInOrder(cfg.jobs[l.i], s.slots[l.i].pc, l.r);
    }
  }

  lemma {:induction false} EventsAlong(cfg: Config, s: State, ls: seq<Label>)
    requires Proper(cfg) && Shape(cfg, s) && Logged(cfg, s) && Protocol(cfg, s) && Run(cfg, s, ls)
    requires Distinct(TargetsOfJobs(cfg.jobs))
    ensures Logged(cfg, End(cfg, s, ls)) && Protocol(cfg, End(cfg, s, ls))
    decreases ls
  {
    hide Shape, Logged, Protocol, Enabled, Apply, TargetsOfJobs;
    if ls != [] {
      ShapeKept(cfg, s, ls[0]);
      LoggedKept(cfg, s, ls[0]);
      ProtocolKept(cfg, s, ls[0]);
      EventsAlong(cfg, Apply(cfg, s, ls[0]), ls[1..]);
    }
  }

  lemma EventsInitially(cfg: Config)
    ensures Logged(cfg, Initial(cfg)) && Protocol(cfg, Initial(cfg))
  {
  }

  /** In every reachable state of every run, cancelled or not, the events of a target that have entered
      the channel are its worker's, in order: "running" events, then at most one terminal event, which
      agrees with the result, and nothing after it. */
  lemma EventProtocol(cfg: Config, ls: seq<Label>, i: nat)
    requires Proper(cfg) && Run(cfg, Initial(cfg), ls) && Distinct(TargetsOfJobs(cfg.jobs)) && i < |cfg.jobs|
    ensures var s := End(cfg, Initial(cfg), ls);
            i < |s.slots|
            && Told(if s.slots[i].Live? then Announced(s.slots[i].pc) else None, Mine(Log(s), cfg.jobs[i].target))
  {
    hide Shape, Announced, TargetsOfJobs;
    ShapeInitially(cfg);
    EventsInitially(cfg);
    EventsAlong(cfg, Initial(cfg), ls);
  }

  // ---- what the UI shows ----

  /** The statuses after the progress messages were processed (tui.go:309). */
  function Statuses(evs: seq<ProgressEvent>, from: map<Target, TaskStatus>): map<Target, TaskStatus> {
    if evs == [] then from else Statuses(evs[1..], from[evs[0].target := evs[0].phase])
  }

  lemma {:induction false} LastEventCounts(evs: seq<ProgressEvent>, from: map<Target, TaskStatus>, t: Target)
    requires t in from
    ensures t in Statuses(evs, from)
    ensures Statuses(evs, from)[t] ==
            if Mine(evs, t) == [] then from[t] else Mine(evs, t)[|Mine(evs, t)| - 1].phase
    decreases |evs|
  {
    if evs != [] {
      LastEventCounts(evs[1..], from[evs[0].target := evs[0].phase], t);
    }
  }

  /** The target takes the skip path: its sync gets as far as the selection, and nothing of the selection
      exists in its cluster. */
  predicate Skipped(job: Job, o: Oracle) {
    job.clusterKnown && job.action == ActionSync && !PreRefreshFails(job, o) && NothingToSync(job)
  }

  lemma LastAloneEvent(job: Job, o: Oracle)
    ensures var e := Alone(job, o);
            e.events != []
            && e.events[|e.events| - 1].phase == (if Skipped(job, o) then TaskRunning else e.res.status)
            && (Skipped(job, o) ==> e.res.status == TaskSuccess)
  {
    hide NothingToSync, PreRefreshFails, Round, WaitEvents, IsOpInProgress, DecidingFrom;
  }

  /** After an uncancelled run whose events were all processed, the status shown for a target is its
      result's, except on the skip path: there the target succeeded and is shown as running. */
  lemma StatusesAgree(cfg: Config, os: seq<Oracle>, ls: seq<Label>, from: map<Target, TaskStatus>, i: nat)
    requires Proper(cfg) && Fits(cfg, os) && Faithful(cfg, os, Initial(cfg), ls) && Run(cfg, Initial(cfg), ls)
    requires Distinct(TargetsOfJobs(cfg.jobs)) && cfg.listening && Final(End(cfg, Initial(cfg), ls))
    requires i < |cfg.jobs| && cfg.jobs[i].target in from
    ensures var s := End(cfg, Initial(cfg), ls);
            var t := cfg.jobs[i].target;
            ResultOf(s, i) == Some(Alone(cfg.jobs[i], os[i]).res)
            && t in Statuses(s.shown, from)
            && Statuses(s.shown, from)[t]
               == if Skipped(cfg.jobs[i], os[i]) then TaskRunning else ResultOf(s, i).value.status
  {
    hide Inv, Uncancelled, Faithful, Alone, Skipped, Mine, Statuses, Fits;
    InvInitially(cfg);
    UncancelledInitially(cfg, os);
    UncancelledAlong(cfg, os, Initial(cfg), ls);
    ShapeInitially(cfg);
    EventsInitially(cfg);
    EventsAlong(cfg, Initial(cfg), ls);
    var s := End(cfg, Initial(cfg), ls);
    FinalEvents(cfg, os, s, i);
    LastEventCounts(s.shown, from, cfg.jobs[i].target);
    LastAloneEvent(cfg.jobs[i], os[i]);
  }

  lemma FinalEvents(cfg: Config, os: seq<Oracle>, s: State, i: nat)
    requires Fits(cfg, os) && Inv(cfg, s) && Uncancelled(cfg, os, s) && Logged(cfg, s) && Final(s) && cfg.listening
    requires i < |cfg.jobs|
    ensures ResultOf(s, i) == Some(Alone(cfg.jobs[i], os[i]).res)
    ensures Mine(s.shown, cfg.jobs[i].target) == Alone(cfg.jobs[i], os[i]).events
  {
    hide Inv, Alone, Mine, Execute;
    AllSequential(cfg, os, s);
    HaltedOnCourse(cfg, os[i], cfg.jobs[i], s.slots[i]);
    assert Log(s) == s.shown;
  }

  /** In an uncancelled run whose events were all processed, each target shows "running" events followed by
      one terminal event that carries the status of its result; on the skip path there is none. */
  lemma UncancelledEvents(cfg: Config, os: seq<Oracle>, ls: seq<Label>, i: nat)
    requires Proper(cfg) && Fits(cfg, os) && Faithful(cfg, os, Initial(cfg), ls) && Run(cfg, Initial(cfg), ls)
    requires Distinct(TargetsOfJobs(cfg.jobs)) && cfg.listening && Final(End(cfg, Initial(cfg), ls)) && i < |cfg.jobs|
    ensures var s := End(cfg, Initial(cfg), ls);
            var evs := Mine(s.shown, cfg.jobs[i].target);
            ResultOf(s, i).Some? && evs != []
            && (forall k :: 0 <= k < |evs| - 1 ==> evs[k].phase == TaskRunning)
            && evs[|evs| - 1].phase == if Skipped(cfg.jobs[i], os[i]) then TaskRunning else ResultOf(s, i).value.status
  {
    hide Inv, Uncancelled, Faithful, Alone, Skipped, Mine, Fits, TargetsOfJobs, Told, Announced;
    InvInitially(cfg);
    UncancelledInitially(cfg, os);
    UncancelledAlong(cfg, os, Initial(cfg), ls);
    ShapeInitially(cfg);
    EventsInitially(cfg);
    EventsAlong(cfg, Initial(cfg), ls);
    var s := End(cfg, Initial(cfg), ls);
    FinalEvents(cfg, os, s, i);
    LastAloneEvent(cfg.jobs[i], os[i]);
    EventProtocol(cfg, ls, i);
    assert Log(s) == s.shown;
    RunningBeforeLast(Announced(s.slots[i].pc), Mine(s.shown, cfg.jobs[i].target));
  }

  lemma RunningBeforeLast(res: Option<Result>, evs: seq<ProgressEvent>)
    requires Told(res, evs)
    ensures forall k :: 0 <= k < |evs| - 1 ==> evs[k].phase == TaskRunning
  {
  }
}
