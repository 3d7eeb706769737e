/** The counts on the last screen (internal/tui/tui.go:1331-1347), and how they relate to the results. */
module Summary {
  import opened Models
  import opened Ordering
  import opened Worker
  import opened Execution
  import opened Conservation
  import opened Refinement
  import opened Events

  datatype Counts = Counts(success: nat, failed: nat, cancelled: nat, pending: nat)

  /** The targets with a status. */
  function Having(ts: seq<Target>, m: map<Target, TaskStatus>, st: TaskStatus): nat {
    if ts == [] then 0 else (if ts[0] in m && m[ts[0]] == st then 1 else 0) + Having(ts[1..], m, st)
  }

  /** What the screen shows; anything but a terminal status counts as pending. */
  function CountsOf(ts: seq<Target>, m: map<Target, TaskStatus>): Counts
    ensures var c := CountsOf(ts, m); c.success + c.failed + c.cancelled + c.pending == |ts|
  {
    HavingAtMost(ts, m);
    Counts(Having(ts, m, TaskSuccess), Having(ts, m, TaskFailed), Having(ts, m, TaskCancelled),
           |ts| - Having(ts, m, TaskSuccess) - Having(ts, m, TaskFailed) - Having(ts, m, TaskCancelled))
  }

  lemma {:induction false} HavingAtMost(ts: seq<Target>, m: map<Target, TaskStatus>)
    ensures Having(ts, m, TaskSuccess) + Having(ts, m, TaskFailed) + Having(ts, m, TaskCancelled) <= |ts|
  {
    if ts != [] { HavingAtMost(ts[1..], m); }
  }

  lemma {:induction false} HavingSnoc(ts: seq<Target>, t: Target, m: map<Target, TaskStatus>, st: TaskStatus)
    ensures Having(ts + [t], m, st) == Having(ts, m, st) + (if t in m && m[t] == st then 1 else 0)
  {
    if ts != [] {
      HavingSnoc(ts[1..], t, m, st);
      assert (ts + [t])[1..] == ts[1..] + [t];
    }
  }

  method Count(ts: seq<Target>, m: map<Target, TaskStatus>) returns (success: nat, failed: nat, cancelled: nat, pending: nat)
    ensures Counts(success, failed, cancelled, pending) == CountsOf(ts, m)
    ensures success + failed + cancelled + pending == |ts|
  {
    success, failed, cancelled, pending := 0, 0, 0, 0;
    for i := 0 to |ts|
      invariant success == Having(ts[..i], m, TaskSuccess) && failed == Having(ts[..i], m, TaskFailed)
      invariant cancelled == Having(ts[..i], m, TaskCancelled) && success + failed + cancelled + pending == i
    {
      var t := ts[i];
      HavingSnoc(ts[..i], t, m, TaskSuccess);
      HavingSnoc(ts[..i], t, m, TaskFailed);
      HavingSnoc(ts[..i], t, m, TaskCancelled);
      assert ts[..i + 1] == ts[..i] + [t];
      var status := if t in m then m[t] else TaskPending;
      match status
      case TaskSuccess => success := success + 1;
      case TaskFailed => failed := failed + 1;
      case TaskCancelled => cancelled := cancelled + 1;
      case _ => pending := pending + 1;
    }
    assert ts[..|ts|] == ts;
  }

  /** The results with a status. */
  function Ended(rs: seq<Result>, st: TaskStatus): nat {
    if rs == [] then 0 else (if rs[0].status == st then 1 else 0) + Ended(rs[1..], st)
  }

  /** The targets on the skip path. */
  function Skips(jobs: seq<Job>, os: seq<Oracle>): nat
    requires |jobs| == |os|
  {
    if jobs == [] then 0 else (if Skipped(jobs[0], os[0]) then 1 else 0) + Skips(jobs[1..], os[1..])
  }

  lemma {:induction false} EndedWithout(rs: seq<Result>, k: nat, st: TaskStatus)
    requires k < |rs|
    ensures Ended(rs, st) == Ended(Without(rs, k), st) + (if rs[k].status == st then 1 else 0)
  {
    if k > 0 {
      EndedWithout(rs[1..], k - 1, st);
    }
  }

  /** The numbers do not depend on the order of the results. */
  lemma {:induction false} EndedByBag(a: seq<Result>, b: seq<Result>, st: TaskStatus)
    requires multiset(a) == multiset(b)
    ensures Ended(a, st) == Ended(b, st)
    decreases |a|
  {
    assert |a| == |multiset(a)| == |multiset(b)| == |b|;
    if a != [] {
      hide Without, Ended;
      assert a[0] in multiset(b);
      var k :| 0 <= k < |b| && b[k] == a[0];
      WithoutEqual(a, 0, b, k);
      EndedWithout(a, 0, st);
      EndedWithout(b, k, st);
      EndedByBag(Without(a, 0), Without(b, k), st);
    }
  }

  /** Each target shows its result, except on the skip path. */
  ghost predicate Shown(jobs: seq<Job>, os: seq<Oracle>, m: map<Target, TaskStatus>) {
    |jobs| == |os|
    && forall i :: 0 <= i < |jobs| ==>
         jobs[i].target in m
         && m[jobs[i].target] == if Skipped(jobs[i], os[i]) then TaskRunning else Alone(jobs[i], os[i]).res.status
  }

  lemma {:induction false} ShownCounts(jobs: seq<Job>, os: seq<Oracle>, m: map<Target, TaskStatus>)
    requires Shown(jobs, os, m)
    ensures var ts := TargetsOfJobs(jobs);
            var rs := SequentialResults(jobs, os);
            Having(ts, m, TaskSuccess) + Skips(jobs, os) == Ended(rs, TaskSuccess)
            && Having(ts, m, TaskFailed) == Ended(rs, TaskFailed)
            && Having(ts, m, TaskCancelled) == Ended(rs, TaskCancelled)
            && |ts| == |rs| == Ended(rs, TaskSuccess) + Ended(rs, TaskFailed) + Ended(rs, TaskCancelled)
    decreases |jobs|
  {
    hide Alone, Skipped;
    if jobs != [] {
      assert forall i :: 0 <= i < |jobs| - 1 ==> jobs[1..][i] == jobs[i + 1] && os[1..][i] == os[i + 1];
      ShownCounts(jobs[1..], os[1..], m);
      TargetsStep(jobs);
      ResultsStep(jobs, os);
      LastAloneEvent(jobs[0], os[0]);
      AloneTerminal(jobs[0], os[0]);
    }
  }

  lemma TargetsStep(jobs: seq<Job>)
    requires jobs != []
    ensures TargetsOfJobs(jobs) == [jobs[0].target] + TargetsOfJobs(jobs[1..])
  {
  }

  lemma ResultsStep(jobs: seq<Job>, os: seq<Oracle>)
    requires jobs != [] && |jobs| == |os|
    ensures SequentialResults(jobs, os) == [Alone(jobs[0], os[0]).res] + SequentialResults(jobs[1..], os[1..])
  {
    hide Alone;
  }

  /** A result is never pending or running. */
  lemma AloneTerminal(job: Job, o: Oracle)
    ensures Alone(job, o).res.status in {TaskSuccess, TaskFailed, TaskCancelled}
  {
    hide ActionAttempt;
  }

  /** Failed and cancelled targets are counted exactly; the targets on the skip path, which succeeded, are
      counted as pending, and no others are. */
  lemma CountsMatchResults(jobs: seq<Job>, os: seq<Oracle>, m: map<Target, TaskStatus>, rs: seq<Result>)
    requires Shown(jobs, os, m) && multiset(rs) == multiset(SequentialResults(jobs, os))
    ensures var c := CountsOf(TargetsOfJobs(jobs), m);
            c.failed == Ended(rs, TaskFailed) && c.cancelled == Ended(rs, TaskCancelled)
            && c.success + c.pending == Ended(rs, TaskSuccess) && c.pending == Skips(jobs, os)
  {
    hide Alone, Skipped, Ended, Having, SequentialResults;
    ShownCounts(jobs, os, m);
    var all := SequentialResults(jobs, os);
    EndedByBag(rs, all, TaskSuccess);
    EndedByBag(rs, all, TaskFailed);
    EndedByBag(rs, all, TaskCancelled);
  }
}
