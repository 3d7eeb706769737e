/** What every interleaving of the bulk runner conserves, at every cancellation point, and that every
    run ends. */
module Conservation {
  import opened Models
  import opened Ordering
  import opened ResultOrder
  import opened Worker
  import opened Pool

  /** A result belongs to the worker's target and action. */
  ghost predicate Owned(cfg: Config, s: State) {
    |s.slots| == |cfg.jobs|
    && forall i :: 0 <= i < |s.slots| && s.slots[i].Live? ==> OwnResult(cfg.jobs[i], s.slots[i].pc)
  }

  predicate OwnResult(job: Job, pc: Pc) {
    pc.AtTerminal? || pc.AtSend? || pc.AtExit? || pc.Halted? ==>
      pc.res.target == job.target && pc.res.action == job.action
  }

  lemma OwnResultKept(job: Job, pc: Pc, r: Response)
    requires Answers(RequestAt(job, pc), r) && OwnResult(job, pc)
    ensures OwnResult(job, Next(job, pc, r))
  {
    hide Judge, SyncOptions, NothingToSync, IsOpInProgress, ShowsPhase;
  }

  lemma OwnedKept(cfg: Config, s: State, l: Label)
    requires Shape(cfg, s) && Owned(cfg, s) && Enabled(cfg, s, l)
    ensures Owned(cfg, Apply(cfg, s, l))
  {
    hide Next, RequestAt, ActiveCount, OwnResult;
    if l.Move? {
      OwnResultKept(cfg.jobs[l.i], s.slots[l.i].pc, l.r);
    } else if l.Submit? {
      OwnAtEntry(cfg.jobs[s.next]);
    }
  }

  lemma OwnAtEntry(job: Job)
    ensures OwnResult(job, AtEntry)
  {
  }

  ghost predicate Inv(cfg: Config, s: State) {
    Shape(cfg, s) && Mail(cfg, s) && Owned(cfg, s)
  }

  lemma {:induction false} InvAlong(cfg: Config, s: State, ls: seq<Label>)
    requires Proper(cfg) && Inv(cfg, s) && Run(cfg, s, ls)
    ensures Inv(cfg, End(cfg, s, ls))
    decreases ls
  {
    hide Shape, Mail, Owned, Apply, Enabled;
    if ls != [] {
      ShapeKept(cfg, s, ls[0]);
      MailKept(cfg, s, ls[0]);
      OwnedKept(cfg, s, ls[0]);
      InvAlong(cfg, Apply(cfg, s, ls[0]), ls[1..]);
    }
  }

  lemma InvInitially(cfg: Config)
    requires Proper(cfg)
    ensures Inv(cfg, Initial(cfg))
  {
    ShapeInitially(cfg);
  }

  function TargetsOfResults(rs: seq<Result>): seq<Target> {
    if rs == [] then [] else [rs[0].target] + TargetsOfResults(rs[1..])
  }

  function TargetsOfJobs(jobs: seq<Job>): seq<Target> {
    seq(|jobs|, i requires 0 <= i < |jobs| => jobs[i].target)
  }

  /** In every reachable state at most `parallel` workers are active, and a worker about to send its
      result finds room in the channel. */
  lemma NeverFull(cfg: Config, ls: seq<Label>, i: nat)
    requires Proper(cfg) && Run(cfg, Initial(cfg), ls)
    ensures var s := End(cfg, Initial(cfg), ls);
            ActiveCount(s.slots) <= cfg.parallel
            && (i < |s.slots| && s.slots[i].Live? && s.slots[i].pc.AtSend? ==> |s.results| < |cfg.jobs|)
  {
    hide ActiveCount, PcOk;
    InvInitially(cfg);
    InvAlong(cfg, Initial(cfg), ls);
    var s := End(cfg, Initial(cfg), ls);
    if i < |s.slots| && s.slots[i].Live? && s.slots[i].pc.AtSend? {
      RoomToSend(cfg, s, i);
    }
  }

  lemma RoomToSend(cfg: Config, s: State, i: nat)
    requires Inv(cfg, s) && i < |s.slots| && s.slots[i].Live? && s.slots[i].pc.AtSend?
    ensures |s.results| < |cfg.jobs|
  {
    hide ActiveCount, PcOk, SortedResults;
    SentRoom(s.slots);
    assert !HasSent(s.slots[i]);
    assert |s.results| == |multiset(s.results)| == |multiset(SentResults(s.slots))| == |SentResults(s.slots)|;
  }

  /** When the runner returns, whatever the interleaving, the answers and the cancellations were,
      every target has exactly one result and the results are in order. */
  lemma EveryTargetOnce(cfg: Config, ls: seq<Label>)
    requires Proper(cfg) && Run(cfg, Initial(cfg), ls) && End(cfg, Initial(cfg), ls).returned.Some?
    ensures var s := End(cfg, Initial(cfg), ls);
            var rs := s.returned.value;
            multiset(TargetsOfResults(rs)) == multiset(TargetsOfJobs(cfg.jobs))
            && |rs| == |cfg.jobs| && SortedResults(rs) && InOrder(rs)
            && forall k :: 0 <= k < |rs| ==> exists i :: 0 <= i < |cfg.jobs| && ResultOf(s, i) == Some(rs[k])
  {
    InvInitially(cfg);
    InvAlong(cfg, Initial(cfg), ls);
    Returned(cfg, End(cfg, Initial(cfg), ls));
  }

  /** A result is about its worker's target, and carries its action. */
  lemma ResultsOwn(cfg: Config, ls: seq<Label>, i: nat)
    requires Proper(cfg) && Run(cfg, Initial(cfg), ls) && i < |cfg.jobs| && ResultOf(End(cfg, Initial(cfg), ls), i).Some?
    ensures var r := ResultOf(End(cfg, Initial(cfg), ls), i).value;
            r.target == cfg.jobs[i].target && r.action == cfg.jobs[i].action
  {
    hide Shape, Mail;
    InvInitially(cfg);
    InvAlong(cfg, Initial(cfg), ls);
    var s := End(cfg, Initial(cfg), ls);
    assert OwnResult(cfg.jobs[i], s.slots[i].pc);
  }

  /** Every result of the list carries the action of the run, if all its jobs have the same. */
  lemma ResultActions(cfg: Config, ls: seq<Label>, action: Action)
    requires Proper(cfg) && Run(cfg, Initial(cfg), ls) && End(cfg, Initial(cfg), ls).returned.Some?
    requires forall i :: 0 <= i < |cfg.jobs| ==> cfg.jobs[i].action == action
    ensures forall k :: 0 <= k < |End(cfg, Initial(cfg), ls).returned.value| ==>
              End(cfg, Initial(cfg), ls).returned.value[k].action == action
  {
    hide Run, ResultOf, SortedResults, InOrder;
    EveryTargetOnce(cfg, ls);
    var s := End(cfg, Initial(cfg), ls);
    forall k | 0 <= k < |s.returned.value| ensures s.returned.value[k].action == action {
      var i :| 0 <= i < |cfg.jobs| && ResultOf(s, i) == Some(s.returned.value[k]);
      ResultsOwn(cfg, ls, i);
    }
  }

  /** The result that worker `i` sent. */
  function ResultOf(s: State, i: nat): Option<Result> {
    if i < |s.slots| && HasSent(s.slots[i]) then Some(s.slots[i].pc.res) else None
  }

  lemma AllHalted(cfg: Config, s: State)
    requires Inv(cfg, s) && s.next == |s.slots| && ActiveCount(s.slots) == 0
    ensures forall i :: 0 <= i < |s.slots| ==> HasSent(s.slots[i]) && s.slots[i].pc.Halted?
  {
    hide PcOk, SortedResults, ActiveCount;
    forall i: nat | i < |s.slots| ensures HasSent(s.slots[i]) && s.slots[i].pc.Halted? {
      if Active(s.slots[i]) { CountSome(s.slots, i); }
    }
  }

  lemma {:induction false} SentByAll(slots: seq<Slot>, jobs: seq<Job>)
    requires |slots| == |jobs|
    requires forall i :: 0 <= i < |slots| ==> HasSent(slots[i]) && slots[i].pc.res.target == jobs[i].target
    ensures |SentResults(slots)| == |slots| && TargetsOfResults(SentResults(slots)) == TargetsOfJobs(jobs)
    ensures forall i :: 0 <= i < |slots| ==> HasSent(slots[i]) && SentResults(slots)[i] == slots[i].pc.res
  {
    if slots != [] {
      SentByAll(slots[1..], jobs[1..]);
      assert TargetsOfJobs(jobs) == [jobs[0].target] + TargetsOfJobs(jobs[1..]);
    }
  }

  /** After the return, the result list is a sorted permutation of the workers' own results. */
  lemma ReturnedAll(cfg: Config, s: State)
    requires Inv(cfg, s) && s.returned.Some?
    ensures var all := SentResults(s.slots);
            |all| == |s.slots| == |cfg.jobs| && TargetsOfResults(all) == TargetsOfJobs(cfg.jobs)
            && (forall i :: 0 <= i < |s.slots| ==> HasSent(s.slots[i]) && s.slots[i].pc.Halted? && all[i] == s.slots[i].pc.res)
            && multiset(s.returned.value) == multiset(all) && SortedResults(s.returned.value)
  {
    hide PcOk, SortedResults, ActiveCount, SentResults, TargetsOfResults;
    AllHalted(cfg, s);
    assert forall i :: 0 <= i < |s.slots| ==> OwnResult(cfg.jobs[i], s.slots[i].pc);
    SentByAll(s.slots, cfg.jobs);
  }

  lemma Returned(cfg: Config, s: State)
    requires Inv(cfg, s) && s.returned.Some?
    ensures var rs := s.returned.value;
            multiset(TargetsOfResults(rs)) == multiset(TargetsOfJobs(cfg.jobs))
            && |rs| == |cfg.jobs| && SortedResults(rs) && InOrder(rs)
            && forall k :: 0 <= k < |rs| ==> exists i :: 0 <= i < |cfg.jobs| && ResultOf(s, i) == Some(rs[k])
  {
    hide Inv, SortedResults, InOrder, SentResults, TargetsOfResults, HasSent;
    ReturnedAll(cfg, s);
    SortedMeaning(s.returned.value);
    var rs, all := s.returned.value, SentResults(s.slots);
    SameTargets(rs, all);
    assert |rs| == |multiset(rs)| == |multiset(all)| == |all|;
    forall k | 0 <= k < |rs| ensures exists i :: 0 <= i < |cfg.jobs| && ResultOf(s, i) == Some(rs[k]) {
      assert rs[k] in multiset(all);
      var i :| 0 <= i < |all| && all[i] == rs[k];
      assert ResultOf(s, i) == Some(rs[k]);
    }
  }

  lemma {:induction false} TargetsWithout(rs: seq<Result>, k: nat)
    requires k < |rs|
    ensures |TargetsOfResults(rs)| == |rs| && TargetsOfResults(rs)[k] == rs[k].target
    ensures TargetsOfResults(Without(rs, k)) == Without(TargetsOfResults(rs), k)
  {
    TargetsLength(rs);
    if k > 0 {
      TargetsWithout(rs[1..], k - 1);
    }
  }

  lemma {:induction false} TargetsLength(rs: seq<Result>)
    ensures |TargetsOfResults(rs)| == |rs|
  {
    if rs != [] { TargetsLength(rs[1..]); }
  }

  /** Same results, same targets. */
  lemma {:induction false} SameTargets(a: seq<Result>, b: seq<Result>)
    requires multiset(a) == multiset(b)
    ensures multiset(TargetsOfResults(a)) == multiset(TargetsOfResults(b))
    decreases |a|
  {
    assert |a| == |multiset(a)| == |multiset(b)| == |b|;
    if a != [] {
      hide Without, TargetsOfResults;
      assert a[0] in multiset(b);
      var k :| 0 <= k < |b| && b[k] == a[0];
      WithoutEqual(a, 0, b, k);
      TargetsWithout(a, 0);
      TargetsWithout(b, k);
      SameTargets(Without(a, 0), Without(b, k));
      WithoutBag(TargetsOfResults(a), 0);
      WithoutBag(TargetsOfResults(b), k);
    }
  }
}
