/** No worker ever cancels another, and the error of the whole run (internal/services/bulk.go:152)
    comes from the entry checks alone. */
module Cancellation {
  import opened Models
  import opened Worker
  import opened Pool
  import opened Conservation
  import opened Trace

  /** The worker found its context done before it did anything. */
  predicate TurnedAway(slot: Slot) {
    slot.Live? && slot.history == [TURNED_AWAY]
  }

  ghost predicate Isolated(s: State) {
    && (s.groupDone && s.returned.None? ==> s.parentDone)
    && (forall i :: 0 <= i < |s.slots| && TurnedAway(s.slots[i]) ==> s.parentDone)
    && (s.groupErr.Some? ==> s.groupErr == Some(ContextError)
                             && exists i :: 0 <= i < |s.slots| && TurnedAway(s.slots[i]))
    && (forall i :: 0 <= i < |s.slots| && TurnedAway(s.slots[i]) && s.slots[i].pc.Halted? ==> s.groupErr.Some?)
  }

  /** How a move relates to being turned away: only the entry check with a done context leads there,
      nothing leads out, and only a worker that was turned away returns an error. */
  lemma TurningAway(job: Job, slot: Slot, r: Response, delivered: bool)
    requires slot.Live? && Told(job, slot.pc, slot.history) && Answers(RequestAt(job, slot.pc), r)
    ensures var q := RequestAt(job, slot.pc);
            var slot' := Moved(job, slot, r, delivered);
            (TurnedAway(slot) ==> TurnedAway(slot'))
            && (TurnedAway(slot') && !TurnedAway(slot) ==> q.CheckContext? && r.ContextDone? && !slot'.pc.Halted?)
            && (q.Exit? ==> (q.ret.Some? <==> TurnedAway(slot)) && (q.ret.Some? ==> q.ret == Some(ContextError)))
            && (slot'.pc.Halted? ==> q.Exit?)
  {
    hide Judge, Sentence, Ruling, SyncOptions, NothingToSync, IsOpInProgress, InLoop;
    TurnedAwayPc(job, slot);
    assert slot.history + [] == slot.history;
    var slot' := Moved(job, slot, r, delivered);
    if TurnedAway(slot) {
      assert !Recorded(RequestAt(job, slot.pc), r);
      assert slot'.history == slot.history + [];
    } else if TurnedAway(slot') {
      assert slot'.history[0] == TURNED_AWAY && slot.history == [];
    }
  }

  predicate Ending(pc: Pc) {
    pc.AtTerminal? || pc.AtSend? || pc.AtExit? || pc.Halted?
  }

  lemma TurnedAwayPc(job: Job, slot: Slot)
    requires slot.Live? && Told(job, slot.pc, slot.history)
    ensures TurnedAway(slot) ==> Ending(slot.pc)
    ensures slot.history == [] ==> slot.pc.AtEntry?
    ensures Ending(slot.pc) ==> (slot.pc.ret.Some? <==> TurnedAway(slot))
                                && (slot.pc.ret.Some? ==> slot.pc.ret == Some(ContextError))
  {
    hide Ruling, SyncOptions, NothingToSync, Waits, ActionSentence, InLoop;
    var h := slot.history;
    var pc := slot.pc;
    if pc.AtGet? {
      EnteredFirst(job, h, pc.w);
    } else if pc.AtReport? {
      EnteredFirst(job, h[..|h| - 1], pc.w);
      assert h[0] == h[..|h| - 1][0];
    } else if pc.AtSelect? {
      EnteredFirst(job, h, pc.w.(polls := pc.w.polls + 1));
    } else if !pc.AtEntry? {
      assert h[0] == ENTERED || h[0] == TURNED_AWAY;
    }
  }

  lemma EnteredFirst(job: Job, h: History, w: Waiting)
    requires InLoop(job, h, w)
    ensures |h| > 1 && h[0] == ENTERED
  {
    hide NothingToSync, SyncOptions, Waits, AllUndecided, SeenIn;
    assert h[..|Prefix(job)|][0] == h[0];
  }

  lemma IsolatedKept(cfg: Config, s: State, l: Label)
    requires Shape(cfg, s) && Histories(cfg, s) && Isolated(s) && Enabled(cfg, s, l)
    ensures Isolated(Apply(cfg, s, l))
  {
    if l.Move? {
      IsolatedKeptByMove(cfg, s, l);
    } else {
      hide TurnedAway, ActiveCount;
      if l.Submit? {
        FreshNotTurnedAway();
      }
      var s' := Apply(cfg, s, l);
      if s.groupErr.Some? {
        var i :| 0 <= i < |s.slots| && TurnedAway(s.slots[i]);
        assert TurnedAway(s'.slots[i]);
      }
    }
  }

  lemma FreshNotTurnedAway()
    ensures !TurnedAway(Live(AtEntry, [], [])) && !TurnedAway(Unsubmitted)
  {
  }

  lemma IsolatedKeptByMove(cfg: Config, s: State, l: Label)
    requires Shape(cfg, s) && Histories(cfg, s) && Isolated(s) && l.Move? && Enabled(cfg, s, l)
    ensures Isolated(Apply(cfg, s, l))
  {
    hide TurnedAway, ActiveCount, Next, RequestAt, Told, Moved;
    CanMoveWhileRunning(cfg, s, l);
    TurningAway(cfg.jobs[l.i], s.slots[l.i], l.r, l.delivered);
    var s' := Apply(cfg, s, l);
    if s.groupErr.Some? {
      var i :| 0 <= i < |s.slots| && TurnedAway(s.slots[i]);
      assert TurnedAway(s'.slots[i]);
    } else if s'.groupErr.Some? {
      assert TurnedAway(s'.slots[l.i]);
    }
  }

  lemma {:induction false} IsolatedAlong(cfg: Config, s: State, ls: seq<Label>)
    requires Proper(cfg) && Inv(cfg, s) && Histories(cfg, s) && Isolated(s) && Run(cfg, s, ls)
    ensures Isolated(End(cfg, s, ls))
    decreases ls
  {
    hide Shape, Mail, Owned, Apply, Enabled, Histories, Isolated;
    if ls != [] {
      ShapeKept(cfg, s, ls[0]);
      MailKept(cfg, s, ls[0]);
      OwnedKept(cfg, s, ls[0]);
      HistoriesKept(cfg, s, ls[0]);
      IsolatedKept(cfg, s, ls[0]);
      IsolatedAlong(cfg, Apply(cfg, s, ls[0]), ls[1..]);
    }
  }

  lemma Reachable(cfg: Config, ls: seq<Label>)
    requires Proper(cfg) && Run(cfg, Initial(cfg), ls)
    ensures var s := End(cfg, Initial(cfg), ls);
            Inv(cfg, s) && Histories(cfg, s) && Isolated(s)
  {
    hide Inv, Histories;
    InvInitially(cfg);
    HistoriesInitially(cfg);
    InvAlong(cfg, Initial(cfg), ls);
    HistoriesAlong(cfg, Initial(cfg), ls);
    IsolatedAlong(cfg, Initial(cfg), ls);
  }

  /** Until the runner returns, the group context is done only if the caller's is: no failure, no
      API deadline and no timeout of one target cancels a sibling. */
  lemma NoSiblingCancels(cfg: Config, ls: seq<Label>)
    requires Proper(cfg) && Run(cfg, Initial(cfg), ls)
    ensures var s := End(cfg, Initial(cfg), ls);
            s.groupDone && s.returned.None? ==> s.parentDone
  {
    hide Inv, Histories;
    Reachable(cfg, ls);
  }

  /** The returned error is nil exactly if no worker was turned away at its entry; a worker that was
      turned away made no call and reports its target as cancelled. */
  lemma ErrorIffTurnedAway(cfg: Config, ls: seq<Label>)
    requires Proper(cfg) && Run(cfg, Initial(cfg), ls) && End(cfg, Initial(cfg), ls).returned.Some?
    ensures var s := End(cfg, Initial(cfg), ls);
            (s.groupErr.Some? <==> exists i :: 0 <= i < |s.slots| && TurnedAway(s.slots[i]))
            && |s.slots| == |cfg.jobs|
            && forall i :: 0 <= i < |s.slots| && TurnedAway(s.slots[i]) ==>
                 ResultOf(s, i) == Some(Outcome(cfg.jobs[i], TaskCancelled, Some(ContextError)))
  {
    hide Inv, Histories, ActiveCount;
    Reachable(cfg, ls);
    var s := End(cfg, Initial(cfg), ls);
    AllSent(cfg, s);
    forall i | 0 <= i < |s.slots| && TurnedAway(s.slots[i])
      ensures ResultOf(s, i) == Some(Outcome(cfg.jobs[i], TaskCancelled, Some(ContextError))) && s.groupErr.Some?
    {
      TurnedAwayResult(cfg, s, i);
    }
  }

  lemma AllSent(cfg: Config, s: State)
    requires Inv(cfg, s) && s.returned.Some?
    ensures |s.slots| == |cfg.jobs|
    ensures forall i :: 0 <= i < |s.slots| ==> HasSent(s.slots[i]) && s.slots[i].pc.Halted?
  {
    hide Mail, Owned, ActiveCount;
    AllHalted(cfg, s);
  }

  lemma TurnedAwayResult(cfg: Config, s: State, i: nat)
    requires Histories(cfg, s) && i < |s.slots| && TurnedAway(s.slots[i]) && s.slots[i].pc.Halted?
    ensures ResultOf(s, i) == Some(Outcome(cfg.jobs[i], TaskCancelled, Some(ContextError)))
  {
    hide Sentence;
  }
}
