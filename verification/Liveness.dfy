/** The bulk runner never deadlocks and every run of it is finite: a number computed from the
    configuration bounds the steps of the pool, its workers and the consumer of its events. */
module Liveness {
  import opened Models
  import opened ResultOrder
  import opened Worker
  import opened Pool
  import opened Conservation

  /** The steps a worker has left, at most. */
  function SlotRank(limit: nat, slot: Slot): nat
    requires slot.Live? ==> PcOk(limit, slot.pc)
  {
    if slot.Live? then Rank(limit, slot.pc) else 3 * limit + 11
  }

  ghost predicate SlotsOk(limit: nat, slots: seq<Slot>) {
    forall i :: 0 <= i < |slots| && slots[i].Live? ==> PcOk(limit, slots[i].pc)
  }

  function RankSum(limit: nat, slots: seq<Slot>): nat
    requires SlotsOk(limit, slots)
  {
    if slots == [] then 0 else SlotRank(limit, slots[0]) + RankSum(limit, slots[1..])
  }

  /** Strictly decreases with every step. An emission moves one event into the queue, which costs two
      more steps of the consumer. */
  function Measure(cfg: Config, s: State): nat
    requires SlotsOk(cfg.limit, s.slots)
  {
    3 * RankSum(cfg.limit, s.slots) + 2 * |s.queue| + (if s.held.Some? then 1 else 0)
    + (if s.returned.Some? then 0 else 1) + (if s.parentDone then 0 else 1) + (if s.groupDone then 0 else 1)
  }

  lemma {:induction false} RankUpdate(limit: nat, slots: seq<Slot>, i: nat, slot: Slot)
    requires i < |slots| && SlotsOk(limit, slots) && (slot.Live? ==> PcOk(limit, slot.pc))
    ensures SlotsOk(limit, slots[i := slot])
    ensures RankSum(limit, slots[i := slot])
         == RankSum(limit, slots) - SlotRank(limit, slots[i]) + SlotRank(limit, slot)
  {
    hide SlotRank, PcOk;
    if i > 0 {
      RankUpdate(limit, slots[1..], i - 1, slot);
      assert slots[i := slot][1..] == slots[1..][i - 1 := slot];
    } else {
      assert slots[0 := slot][1..] == slots[1..];
    }
  }

  lemma {:induction false} RankInitially(limit: nat, n: nat)
    ensures RankSum(limit, seq(n, _ => Unsubmitted)) == n * (3 * limit + 11)
  {
    if n > 0 {
      RankInitially(limit, n - 1);
      assert seq(n, _ => Unsubmitted)[1..] == seq(n - 1, _ => Unsubmitted);
    }
  }

  lemma StepLowersMeasure(cfg: Config, s: State, l: Label)
    requires Proper(cfg) && Shape(cfg, s) && Enabled(cfg, s, l)
    ensures SlotsOk(cfg.limit, s.slots) && SlotsOk(cfg.limit, Apply(cfg, s, l).slots)
    ensures Measure(cfg, Apply(cfg, s, l)) < Measure(cfg, s)
  {
    hide RankSum, PcOk, Rank, ActiveCount;
    match l
    case Submit => SubmitLowersRank(cfg.limit, s.slots, s.next);
    case Move(i, r, delivered) => MoveLowersRank(cfg, s, i, r, delivered);
    case _ =>
  }

  lemma SubmitLowersRank(limit: nat, slots: seq<Slot>, i: nat)
    requires i < |slots| && SlotsOk(limit, slots) && slots[i].Unsubmitted?
    ensures SlotsOk(limit, slots[i := Live(AtEntry, [], [])])
    ensures RankSum(limit, slots[i := Live(AtEntry, [], [])]) < RankSum(limit, slots)
  {
    RankUpdate(limit, slots, i, Live(AtEntry, [], []));
  }

  lemma MoveLowersRank(cfg: Config, s: State, i: nat, r: Response, delivered: bool)
    requires cfg.limit > 0 && SlotsOk(cfg.limit, s.slots) && CanMove(cfg, s, i, r, delivered)
    ensures var slots := s.slots[i := Moved(cfg.jobs[i], s.slots[i], r, delivered)];
            SlotsOk(cfg.limit, slots) && RankSum(cfg.limit, slots) < RankSum(cfg.limit, s.slots)
  {
    hide RankSum, PcOk, Rank, Next, RequestAt;
    StepLowersRank(cfg.limit, cfg.jobs[i], s.slots[i].pc, r);
    RankUpdate(cfg.limit, s.slots, i, Moved(cfg.jobs[i], s.slots[i], r, delivered));
  }

  /** No run is longer than the measure of its first state. */
  lemma {:induction false} RunsAreShort(cfg: Config, s: State, ls: seq<Label>)
    requires Proper(cfg) && Inv(cfg, s) && Run(cfg, s, ls)
    ensures SlotsOk(cfg.limit, s.slots) && |ls| <= Measure(cfg, s)
    decreases ls
  {
    hide Mail, Owned, Apply, Enabled, Measure, PcOk;
    if ls != [] {
      ShapeKept(cfg, s, ls[0]);
      MailKept(cfg, s, ls[0]);
      OwnedKept(cfg, s, ls[0]);
      StepLowersMeasure(cfg, s, ls[0]);
      RunsAreShort(cfg, Apply(cfg, s, ls[0]), ls[1..]);
    }
  }

  // ---- progress ----

  /** A response that each request can always get: the API fails, the tick arrives, and the context
      check sees the context as it is. */
  function Ready(q: Request, groupDone: bool): Response {
    match q
    case CheckContext => if groupDone then ContextDone else Proceed
    case CallGet(_) => Refused(ContextError)
    case _ => Proceed
  }

  /** A step of the runner, its workers or its consumer; the others are the caller's cancellation and its
      arrival at the group. */
  predicate OwnStep(l: Label) {
    !l.CancelParent? && !l.Propagate?
  }

  /** In every reachable state that is not final, cancelled or not, the runner, a worker or the consumer
      can take a step. */
  lemma Progress(cfg: Config, s: State) returns (l: Label)
    requires Proper(cfg) && Inv(cfg, s) && !Final(s)
    ensures Enabled(cfg, s, l) && OwnStep(l)
  {
    hide PcOk, SortedResults, Mail, Owned, OwnResult, RequestAt, Next, ActiveCount;
    if s.held.Some? {
      l := Show;
    } else if s.queue != [] {
      l := Receive;
    } else if i :| 0 <= i < |s.slots| && Active(s.slots[i]) {
      l := WorkerCanMove(cfg, s, i);
    } else {
      CountNone(s.slots);
      if s.next < |s.slots| {
        l := Submit;
      } else {
        SortResultsSorts(s.results);
        l := Return(SortResults(s.results));
      }
    }
  }

  lemma WorkerCanMove(cfg: Config, s: State, i: nat) returns (l: Label)
    requires Proper(cfg) && Inv(cfg, s) && s.queue == [] && i < |s.slots| && Active(s.slots[i])
    ensures Enabled(cfg, s, l) && OwnStep(l)
  {
    hide PcOk, SortedResults, Mail, Owned, OwnResult, Next, ActiveCount;
    var q := RequestAt(cfg.jobs[i], s.slots[i].pc);
    if q.Send? {
      RoomToSend(cfg, s, i);
    }
    l := Move(i, Ready(q, s.groupDone), q.Emit? && cfg.listening);
  }

  /** More steps than any run has. */
  function Bound(cfg: Config): nat {
    3 * (|cfg.jobs| * (3 * cfg.limit + 11)) + 3
  }

  /** No run has more than `Bound(cfg)` steps, and short of its end the runner, a worker or the consumer can
      go on. */
  lemma EveryRunFinishes(cfg: Config, ls: seq<Label>)
    requires Proper(cfg) && Run(cfg, Initial(cfg), ls)
    ensures |ls| <= Bound(cfg)
    ensures Final(End(cfg, Initial(cfg), ls)) || exists l :: OwnStep(l) && Enabled(cfg, End(cfg, Initial(cfg), ls), l)
  {
    hide Inv, Final, Enabled;
    InvInitially(cfg);
    RunsAreShort(cfg, Initial(cfg), ls);
    RankInitially(cfg.limit, |cfg.jobs|);
    InvAlong(cfg, Initial(cfg), ls);
    var s := End(cfg, Initial(cfg), ls);
    if !Final(s) {
      var l := Progress(cfg, s);
    }
  }
}
