/** Without a cancellation, and with the answers of each target fixed, every interleaving of the bulk
    runner yields the targets' sequential outcomes in sorted order. */
module Refinement {
  import opened Models
  import opened Ordering
  import opened ResultOrder
  import opened Worker
  import opened Execution
  import opened Pool
  import opened Conservation

  /** The step is taken with the oracles' answers, and is not a cancellation. */
  ghost predicate Obeys(cfg: Config, os: seq<Oracle>, s: State, l: Label) {
    !l.CancelParent?
    && (l.Move? && l.i < |s.slots| && l.i < |cfg.jobs| && l.i < |os| && s.slots[l.i].Live? ==>
          var q := RequestAt(cfg.jobs[l.i], s.slots[l.i].pc);
          q.CallRefresh? || q.CallSync? || q.CallGet? || q.AwaitTick? ==> l.r == Reply(os[l.i], q))
  }

  /** A run in which every step obeys. */
  ghost predicate Faithful(cfg: Config, os: seq<Oracle>, s: State, ls: seq<Label>)
    decreases ls
  {
    ls != [] ==> Enabled(cfg, s, ls[0]) && Obeys(cfg, os, s, ls[0]) && Faithful(cfg, os, Apply(cfg, s, ls[0]), ls[1..])
  }

  ghost predicate Fits(cfg: Config, os: seq<Oracle>) {
    |os| == |cfg.jobs| && forall i :: 0 <= i < |os| ==> |os[i].polls| < cfg.limit
  }

  /** What is left of the worker's program completes what it has done to its sequential behaviour. */
  ghost predicate OnCourse(cfg: Config, o: Oracle, job: Job, slot: Slot)
    requires |o.polls| < cfg.limit
  {
    slot.Live? ==>
      PcOk(cfg.limit, slot.pc)
      && var rest := Execute(o, cfg.limit, job, slot.pc);
         var all := Alone(job, o);
         rest.res == all.res && rest.ret == all.ret && (cfg.listening ==> slot.emitted + rest.events == all.events)
  }

  ghost predicate Uncancelled(cfg: Config, os: seq<Oracle>, s: State)
    requires Fits(cfg, os)
  {
    && !s.parentDone && (s.returned.None? ==> !s.groupDone) && s.groupErr.None?
    && |s.slots| == |os|
    && forall i :: 0 <= i < |os| ==> OnCourse(cfg, os[i], cfg.jobs[i], s.slots[i])
  }

  lemma OnCourseAtEntry(cfg: Config, o: Oracle, job: Job)
    requires |o.polls| < cfg.limit
    ensures OnCourse(cfg, o, job, Live(AtEntry, [], []))
  {
    hide Execute, Alone;
    ExecuteIsAlone(o, cfg.limit, job);
    assert [] + Alone(job, o).events == Alone(job, o).events;
  }

  /** No target on its own returns an error from its closure. */
  lemma AloneReturnsNil(job: Job, o: Oracle)
    ensures Alone(job, o).ret.None?
  {
    hide ActionAttempt;
  }

  /** One step of one worker, unfolded. */
  lemma ExecuteStep(o: Oracle, limit: nat, job: Job, pc: Pc, r: Response)
    requires |o.polls| < limit && PcOk(limit, pc) && !pc.Halted? && r == Reply(o, RequestAt(job, pc))
    ensures Answers(RequestAt(job, pc), r) && PcOk(limit, Next(job, pc, r))
    ensures var q := RequestAt(job, pc);
            var rest := Execute(o, limit, job, Next(job, pc, r));
            Execute(o, limit, job, pc) == rest.(events := (if q.Emit? then [q.ev] else []) + rest.events)
  {
    ReplyAnswers(o, limit, job, pc);
    StepLowersRank(limit, job, pc, r);
  }

  lemma ReplyAnswers(o: Oracle, limit: nat, job: Job, pc: Pc)
    requires |o.polls| < limit && PcOk(limit, pc) && !pc.Halted?
    ensures Answers(RequestAt(job, pc), Reply(o, RequestAt(job, pc)))
         && Within(limit, RequestAt(job, pc), Reply(o, RequestAt(job, pc)))
  {
  }

  lemma OnCourseKept(cfg: Config, o: Oracle, job: Job, slot: Slot, r: Response, delivered: bool)
    requires |o.polls| < cfg.limit && OnCourse(cfg, o, job, slot) && Active(slot)
    requires r == Reply(o, RequestAt(job, slot.pc)) && Answers(RequestAt(job, slot.pc), r)
    requires RequestAt(job, slot.pc).Emit? ==> delivered == cfg.listening
    ensures OnCourse(cfg, o, job, Moved(job, slot, r, delivered))
  {
    hide Execute, Alone, RequestAt, Next, PcOk;
    ExecuteStep(o, cfg.limit, job, slot.pc, r);
    var q := RequestAt(job, slot.pc);
    var rest := Execute(o, cfg.limit, job, Next(job, slot.pc, r));
    if cfg.listening && q.Emit? {
      assert slot.emitted + ([q.ev] + rest.events) == (slot.emitted + [q.ev]) + rest.events;
    } else {
      assert slot.emitted + [] == slot.emitted && [] + rest.events == rest.events;
    }
  }

  /** The return of an error is the last thing a worker's remaining program does. */
  lemma ExitsWithRest(o: Oracle, limit: nat, job: Job, pc: Pc)
    requires |o.polls| < limit && PcOk(limit, pc)
    ensures RequestAt(job, pc).Exit? ==> Execute(o, limit, job, pc).ret == RequestAt(job, pc).ret
  {
    if pc.AtExit? {
      ExecuteTerminal(o, limit, job, pc.res, pc.ret);
    }
  }

  lemma UncancelledKept(cfg: Config, os: seq<Oracle>, s: State, l: Label)
    requires Shape(cfg, s) && Fits(cfg, os) && Uncancelled(cfg, os, s) && Enabled(cfg, s, l) && Obeys(cfg, os, s, l)
    ensures Uncancelled(cfg, os, Apply(cfg, s, l))
  {
    if l.Move? {
      UncancelledKeptByMove(cfg, os, s, l);
    } else {
      hide Execute, Alone, ActiveCount, OnCourse;
      if l.Submit? {
        OnCourseAtEntry(cfg, os[s.next], cfg.jobs[s.next]);
      }
    }
  }

  lemma UncancelledKeptByMove(cfg: Config, os: seq<Oracle>, s: State, l: Label)
    requires Shape(cfg, s) && Fits(cfg, os) && Uncancelled(cfg, os, s) && Enabled(cfg, s, l) && Obeys(cfg, os, s, l)
    requires l.Move?
    ensures Uncancelled(cfg, os, Apply(cfg, s, l))
  {
    hide Execute, Alone, ActiveCount, RequestAt, Next, Moved, PcOk;
    CanMoveWhileRunning(cfg, s, l);
    var o, job, slot := os[l.i], cfg.jobs[l.i], s.slots[l.i];
    var q := RequestAt(job, slot.pc);
    assert OnCourse(cfg, o, job, slot);
    ReplyOnly(o, q, l.r);
    OnCourseKept(cfg, o, job, slot, l.r, l.delivered);
    ExitsWithRest(o, cfg.limit, job, slot.pc);
    AloneReturnsNil(job, o);
  }

  /** Requests that are not answered by the oracle have one possible answer. */
  lemma ReplyOnly(o: Oracle, q: Request, r: Response)
    requires Answers(q, r) && (q.CheckContext? ==> r.Proceed?)
    requires q.CallRefresh? || q.CallSync? || q.CallGet? || q.AwaitTick? ==> r == Reply(o, q)
    ensures r == Reply(o, q)
  {
  }

  lemma {:induction false} UncancelledAlong(cfg: Config, os: seq<Oracle>, s: State, ls: seq<Label>)
    requires Proper(cfg) && Fits(cfg, os) && Inv(cfg, s) && Uncancelled(cfg, os, s) && Faithful(cfg, os, s, ls)
    ensures Run(cfg, s, ls) && Inv(cfg, End(cfg, s, ls)) && Uncancelled(cfg, os, End(cfg, s, ls))
    decreases ls
  {
    hide Shape, Mail, Owned, Apply, Enabled, Obeys, Uncancelled;
    if ls != [] {
      ShapeKept(cfg, s, ls[0]);
      MailKept(cfg, s, ls[0]);
      OwnedKept(cfg, s, ls[0]);
      UncancelledKept(cfg, os, s, ls[0]);
      UncancelledAlong(cfg, os, Apply(cfg, s, ls[0]), ls[1..]);
    }
  }

  lemma UncancelledInitially(cfg: Config, os: seq<Oracle>)
    requires Fits(cfg, os)
    ensures Uncancelled(cfg, os, Initial(cfg))
  {
  }

  /** The targets' sequential results, in the order of the targets. */
  function SequentialResults(jobs: seq<Job>, os: seq<Oracle>): seq<Result>
    requires |jobs| == |os|
  {
    seq(|jobs|, i requires 0 <= i < |jobs| => Alone(jobs[i], os[i]).res)
  }

  lemma HaltedOnCourse(cfg: Config, o: Oracle, job: Job, slot: Slot)
    requires |o.polls| < cfg.limit && OnCourse(cfg, o, job, slot) && HasSent(slot)
    ensures slot.pc.res == Alone(job, o).res && (cfg.listening ==> slot.emitted == Alone(job, o).events)
  {
    hide Alone;
    if slot.pc.AtExit? {
      ExecuteExit(o, cfg.limit, job, slot.pc);
    }
    assert slot.emitted + [] == slot.emitted;
  }

  lemma ExecuteExit(o: Oracle, limit: nat, job: Job, pc: Pc)
    requires |o.polls| < limit && pc.AtExit?
    ensures Execute(o, limit, job, pc).events == [] && Execute(o, limit, job, pc).res == pc.res
  {
    assert Execute(o, limit, job, Halted(pc.res, pc.ret)) == Ending([], pc.res, pc.ret);
  }

  lemma AllSequential(cfg: Config, os: seq<Oracle>, s: State)
    requires Inv(cfg, s) && Fits(cfg, os) && Uncancelled(cfg, os, s) && s.returned.Some?
    ensures SentResults(s.slots) == SequentialResults(cfg.jobs, os)
    ensures forall i :: 0 <= i < |s.slots| ==>
              HasSent(s.slots[i]) && (cfg.listening ==> s.slots[i].emitted == Alone(cfg.jobs[i], os[i]).events)
  {
    hide Inv, Alone, SortedResults, SentResults, OnCourse;
    ReturnedAll(cfg, s);
    forall i: nat | i < |s.slots|
      ensures s.slots[i].Live? && s.slots[i].pc.res == Alone(cfg.jobs[i], os[i]).res
              && (cfg.listening ==> s.slots[i].emitted == Alone(cfg.jobs[i], os[i]).events)
    {
      HaltedOnCourse(cfg, os[i], cfg.jobs[i], s.slots[i]);
    }
  }

  /** Every uncancelled run that returns, whatever its interleaving and parallelism, returns a nil error
      and a sorted permutation of the sequential results. */
  lemma RunIsSequential(cfg: Config, os: seq<Oracle>, ls: seq<Label>)
    requires Proper(cfg) && Fits(cfg, os) && Faithful(cfg, os, Initial(cfg), ls)
    ensures Run(cfg, Initial(cfg), ls)
    ensures var s := End(cfg, Initial(cfg), ls);
            s.returned.Some? ==>
              s.groupErr.None?
              && multiset(s.returned.value) == multiset(SequentialResults(cfg.jobs, os)) && SortedResults(s.returned.value)
  {
    hide Inv, Faithful, SortedResults, SentResults, SequentialResults;
    InvInitially(cfg);
    UncancelledInitially(cfg, os);
    UncancelledAlong(cfg, os, Initial(cfg), ls);
    var s := End(cfg, Initial(cfg), ls);
    if s.returned.Some? {
      AllSequential(cfg, os, s);
      ReturnedAll(cfg, s);
    }
  }

  /** With one target each, the list is the sorted list of the sequential results, and strictly ascending:
      it does not depend on the interleaving, on the parallelism, or on whether anyone listens. */
  lemma RunIsSortedMap(cfg: Config, os: seq<Oracle>, ls: seq<Label>)
    requires Proper(cfg) && Fits(cfg, os) && Faithful(cfg, os, Initial(cfg), ls)
    requires Distinct(TargetsOfJobs(cfg.jobs))
    ensures Run(cfg, Initial(cfg), ls)
    ensures var s := End(cfg, Initial(cfg), ls);
            s.returned.Some? ==>
              s.groupErr.None?
              && s.returned.value == SortResults(SequentialResults(cfg.jobs, os))
              && Ascending(s.returned.value, ResultLess) && ByClusterThenApp(s.returned.value)
  {
    hide Faithful, SortedResults, SequentialResults, SortResults, ResultLess, ByClusterThenApp;
    RunIsSequential(cfg, os, ls);
    var s := End(cfg, Initial(cfg), ls);
    if s.returned.Some? {
      var rs, want := s.returned.value, SequentialResults(cfg.jobs, os);
      SortResultsSorts(want);
      SequentialDistinct(cfg.jobs, os);
      DistinctByBag(want, rs);
      DistinctByBag(want, SortResults(want));
      SortedUnique(rs, SortResults(want));
    }
  }

  lemma SequentialDistinct(jobs: seq<Job>, os: seq<Oracle>)
    requires |jobs| == |os| && Distinct(TargetsOfJobs(jobs))
    ensures DistinctTargets(SequentialResults(jobs, os))
  {
    hide Alone;
    forall i | 0 <= i < |jobs| ensures SequentialResults(jobs, os)[i].target == TargetsOfJobs(jobs)[i] {
      AloneTarget(jobs[i], os[i]);
    }
  }

  lemma AloneTarget(job: Job, o: Oracle)
    ensures Alone(job, o).res.target == job.target && Alone(job, o).res.action == job.action
  {
    hide ActionAttempt;
  }

  /** Having distinct targets is a matter of the bag alone. */
  lemma DistinctByBag(a: seq<Result>, b: seq<Result>)
    requires multiset(a) == multiset(b) && DistinctTargets(a)
    ensures DistinctTargets(b)
  {
    forall i, j | 0 <= i < j < |b| ensures b[i].target != b[j].target {
      assert b[i] in multiset(a) && b[j] in multiset(a);
      var k :| 0 <= k < |a| && a[k] == b[i];
      var m :| 0 <= m < |a| && a[m] == b[j];
      if b[i].target == b[j].target {
        assert k == m;
        TwiceInBag(b, i, j);
        OnceInBag(a, k);
      }
    }
  }

  lemma TwiceInBag<T>(s: seq<T>, i: nat, j: nat)
    requires i < j < |s| && s[i] == s[j]
    ensures multiset(s)[s[i]] >= 2
  {
    assert s == s[..j] + [s[j]] + s[j + 1..];
    assert s[i] in s[..j];
  }

  lemma OnceInBag(s: seq<Result>, k: nat)
    requires DistinctTargets(s) && k < |s|
    ensures multiset(s)[s[k]] == 1
  {
    assert s == s[..k] + [s[k]] + s[k + 1..];
    assert s[k] !in s[..k] && s[k] !in s[k + 1..];
  }

  /** An uncancelled run never gets stuck on its oracles: short of the end, some obeying step is enabled.
      Together with `Liveness.RunsAreShort`, every such run ends with the list above. */
  lemma FaithfulProgress(cfg: Config, os: seq<Oracle>, ls: seq<Label>) returns (l: Label)
    requires Proper(cfg) && Fits(cfg, os) && Faithful(cfg, os, Initial(cfg), ls)
    requires Run(cfg, Initial(cfg), ls) && !Final(End(cfg, Initial(cfg), ls))
    ensures Enabled(cfg, End(cfg, Initial(cfg), ls), l) && Obeys(cfg, os, End(cfg, Initial(cfg), ls), l)
  {
    hide Inv, Uncancelled, Faithful, Enabled, Obeys, Final;
    InvInitially(cfg);
    UncancelledInitially(cfg, os);
    UncancelledAlong(cfg, os, Initial(cfg), ls);
    l := ObeyingStep(cfg, os, End(cfg, Initial(cfg), ls));
  }

  lemma ObeyingStep(cfg: Config, os: seq<Oracle>, s: State) returns (l: Label)
    requires Proper(cfg) && Fits(cfg, os) && Inv(cfg, s) && Uncancelled(cfg, os, s) && !Final(s)
    ensures Enabled(cfg, s, l) && Obeys(cfg, os, s, l)
  {
    hide PcOk, SortedResults, Mail, Owned, RequestAt, Next, ActiveCount, Execute, Alone;
    if s.held.Some? {
      l := Show;
    } else if s.queue != [] {
      l := Receive;
    } else if i :| 0 <= i < |s.slots| && Active(s.slots[i]) {
      l := ObeyingMove(cfg, os, s, i);
    } else {
      CountNone(s.slots);
      if s.next < |s.slots| {
        l := Submit;
      } else {
        SortResultsSorts(s.results);
        l := Return(SortResults(s.results));
      }
    }
  }

  lemma ObeyingMove(cfg: Config, os: seq<Oracle>, s: State, i: nat) returns (l: Label)
    requires Proper(cfg) && Fits(cfg, os) && Inv(cfg, s) && Uncancelled(cfg, os, s)
    requires s.queue == [] && i < |s.slots| && Active(s.slots[i])
    ensures Enabled(cfg, s, l) && Obeys(cfg, os, s, l)
  {
    hide PcOk, SortedResults, Mail, Owned, Next, ActiveCount, Execute, Alone;
    CountSome(s.slots, i);
    assert OnCourse(cfg, os[i], cfg.jobs[i], s.slots[i]);
    ReplyAnswers(os[i], cfg.limit, cfg.jobs[i], s.slots[i].pc);
    var q := RequestAt(cfg.jobs[i], s.slots[i].pc);
    if q.Send? {
      RoomToSend(cfg, s, i);
    }
    l := Move(i, Reply(os[i], q), q.Emit? && cfg.listening);
  }
}
