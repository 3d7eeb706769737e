/** Every run of the bulk runner can be completed: together with `Refinement`, it yields the sorted list. */
module Completion {
  import opened Models
  import opened Ordering
  import opened ResultOrder
  import opened Execution
  import opened Pool
  import opened Conservation
  import opened Liveness
  import opened Refinement

  lemma {:induction false} RunSnoc(cfg: Config, s: State, ls: seq<Label>, l: Label)
    requires Run(cfg, s, ls) && Enabled(cfg, End(cfg, s, ls), l)
    ensures Run(cfg, s, ls + [l])
    decreases ls
  {
    hide Apply, Enabled;
    if ls == [] {
      assert ls + [l] == [l] && [l][1..] == [];
    } else {
      RunSnoc(cfg, Apply(cfg, s, ls[0]), ls[1..], l);
      assert (ls + [l])[1..] == ls[1..] + [l] && (ls + [l])[0] == ls[0];
    }
  }

  /** Every run, however far it has got and whatever was cancelled, can go on without any cancellation until
      the runner has returned and every event is processed; and by `Liveness.EveryRunFinishes` it cannot
      go on for ever. */
  lemma {:induction false} CompletesAnyway(cfg: Config, ls: seq<Label>) returns (more: seq<Label>)
    requires Proper(cfg) && Run(cfg, Initial(cfg), ls)
    ensures forall k :: 0 <= k < |more| ==> OwnStep(more[k])
    ensures Run(cfg, Initial(cfg), ls + more) && Final(End(cfg, Initial(cfg), ls + more))
    decreases Bound(cfg) - |ls|
  {
    hide Apply, Enabled, Final, Run, OwnStep;
    if Final(End(cfg, Initial(cfg), ls)) {
      more := [];
      assert ls + [] == ls;
    } else {
      EveryRunFinishes(cfg, ls);
      var l :| OwnStep(l) && Enabled(cfg, End(cfg, Initial(cfg), ls), l);
      RunSnoc(cfg, Initial(cfg), ls, l);
      EveryRunFinishes(cfg, ls + [l]);
      var rest := CompletesAnyway(cfg, ls + [l]);
      more := [l] + rest;
      assert ls + more == (ls + [l]) + rest;
    }
  }

  lemma {:induction false} FaithfulSnoc(cfg: Config, os: seq<Oracle>, s: State, ls: seq<Label>, l: Label)
    requires Run(cfg, s, ls) && Faithful(cfg, os, s, ls)
    requires Enabled(cfg, End(cfg, s, ls), l) && Obeys(cfg, os, End(cfg, s, ls), l)
    ensures Run(cfg, s, ls + [l]) && Faithful(cfg, os, s, ls + [l])
    decreases ls
  {
    hide Apply, Enabled, Obeys;
    if ls == [] {
      assert ls + [l] == [l] && [l][1..] == [];
    } else {
      FaithfulSnoc(cfg, os, Apply(cfg, s, ls[0]), ls[1..], l);
      assert (ls + [l])[1..] == ls[1..] + [l] && (ls + [l])[0] == ls[0];
    }
  }

  /** An uncancelled run, however far it has got, can go on until the runner has returned and every event is
      processed; by `Liveness.EveryRunFinishes` it cannot go on for ever. */
  lemma {:induction false} Completes(cfg: Config, os: seq<Oracle>, ls: seq<Label>) returns (all: seq<Label>)
    requires Proper(cfg) && Fits(cfg, os) && Faithful(cfg, os, Initial(cfg), ls) && Run(cfg, Initial(cfg), ls)
    ensures |ls| <= |all| && all[..|ls|] == ls
    ensures Run(cfg, Initial(cfg), all) && Faithful(cfg, os, Initial(cfg), all) && Final(End(cfg, Initial(cfg), all))
    decreases Bound(cfg) - |ls|
  {
    hide Apply, Enabled, Obeys, Final, Fits, Faithful, Run;
    if Final(End(cfg, Initial(cfg), ls)) {
      all := ls;
    } else {
      var l := FaithfulProgress(cfg, os, ls);
      FaithfulSnoc(cfg, os, Initial(cfg), ls, l);
      EveryRunFinishes(cfg, ls + [l]);
      all := Completes(cfg, os, ls + [l]);
      assert all[..|ls|] == all[..|ls| + 1][..|ls|];
    }
  }

  /** So there is an uncancelled run for every set of answers, and it returns the sorted sequential results. */
  lemma SomeRunReturns(cfg: Config, os: seq<Oracle>) returns (ls: seq<Label>)
    requires Proper(cfg) && Fits(cfg, os) && Distinct(TargetsOfJobs(cfg.jobs))
    ensures Run(cfg, Initial(cfg), ls) && Faithful(cfg, os, Initial(cfg), ls)
    ensures End(cfg, Initial(cfg), ls).returned == Some(SortResults(SequentialResults(cfg.jobs, os)))
  {
    hide Apply, Fits, SequentialResults, SortResults, TargetsOfJobs;
    ls := Completes(cfg, os, []);
    RunIsSortedMap(cfg, os, ls);
  }
}
