/** Waiting for a sync (internal/services/bulk.go:180-250) against a clock: a deadline, a ticker whose
    channel holds one tick, and an API whose answers and durations are arbitrary. */
module WaitLoop {
  import opened GoStrings
  import opened Models
  import opened Worker
  import opened Execution

  /** Everything a target's run does not control: the answers to the refresh and sync calls, and what
      the waiting loop meets. In round `k`, GetApplication takes `callTime(k)` and
      returns `fetch(k)`; the select afterwards is served `lag(k)` late, and takes the ctx.Done()
      branch if both are ready and `preferDone(k)` holds. */
  datatype Env = Env(
    refresh: Option<Err>,
    sync: Option<Err>,
    fetch: nat -> Fetch,
    callTime: nat -> nat,
    lag: nat -> nat,
    preferDone: nat -> bool,
    cancelledAt: Option<nat>)

  /** Time since the start of the loop, ticks fired so far, and whether a tick waits in the channel. */
  datatype Clock = Clock(now: nat, fired: nat, pending: bool)

  /** The effective timeout and poll interval; a deadline in the past is one at time 0. */
  datatype Times = Times(timeout: nat, interval: nat)

  predicate Sound(times: Times) {
    times.interval > 0
  }

  /** A negative poll interval panics in time.NewTicker; the loop is never entered with one. */
  function TimesOf(opts: RunOptions): (t: Times)
    ensures Sound(t)
  {
    var timeout, interval := EffectiveTimeout(opts), EffectiveInterval(opts);
    Times(if timeout < 0 then 0 else timeout, if interval < 0 then 1 else interval)
  }

  /** Zero stands for ten minutes and for two seconds, in nanoseconds; other values are taken as they are. */
  lemma TimesMeaning(opts: RunOptions)
    ensures TimesOf(opts).timeout == if opts.waitTimeout == 0 then 10 * 60 * 1_000_000_000
                                     else if opts.waitTimeout > 0 then opts.waitTimeout else 0
    ensures opts.pollInterval >= 0 ==>
              TimesOf(opts).interval == if opts.pollInterval == 0 then 2 * 1_000_000_000 else opts.pollInterval
    ensures opts.waitTimeout == 0 && opts.pollInterval == 0 ==> LastRound(TimesOf(opts)) + 1 == 302
  {
  }

  /** When the loop's context is done. */
  function Deadline(times: Times, env: Env): nat {
    if env.cancelledAt.Some? && env.cancelledAt.value < times.timeout then env.cancelledAt.value else times.timeout
  }

  /** The context is done at the timeout or at the cancellation, whichever comes first. */
  lemma DeadlineMeaning(times: Times, env: Env, t: nat)
    ensures Deadline(times, env) <= t <==>
            times.timeout <= t || (env.cancelledAt.Some? && env.cancelledAt.value <= t)
  {
  }

  /** Ticks fired by time `t`. */
  function Ticks(times: Times, t: nat): nat
    requires Sound(times)
  {
    t / times.interval
  }

  /** When tick number `n` fires. */
  function TickTime(times: Times, n: nat): nat {
    n * times.interval
  }

  lemma TicksInverse(times: Times, t: nat)
    requires Sound(times)
    ensures TickTime(times, Ticks(times, t)) <= t < TickTime(times, Ticks(times, t) + 1)
  {
  }

  lemma {:induction false} MulMonotone(m: nat, n: nat, d: nat)
    requires m <= n
    ensures m * d <= n * d
    decreases n
  {
    if m < n {
      MulMonotone(m, n - 1, d);
      assert n * d == (n - 1) * d + d;
    }
  }

  lemma TickTimeMonotone(times: Times, m: nat, n: nat)
    requires Sound(times)
    ensures m <= n <==> TickTime(times, m) <= TickTime(times, n)
  {
    if m <= n {
      MulMonotone(m, n, times.interval);
    } else {
      MulMonotone(n + 1, m, times.interval);
    }
  }

  /** Tick `n` has fired by time `t` exactly if its time has come. */
  lemma Fired(times: Times, n: nat, t: nat)
    requires Sound(times)
    ensures n <= Ticks(times, t) <==> TickTime(times, n) <= t
  {
    hide Ticks, TickTime;
    TicksInverse(times, t);
    TickTimeMonotone(times, n, Ticks(times, t));
    TickTimeMonotone(times, Ticks(times, t) + 1, n);
  }

  /** Lets time pass; ticks that find the channel full are dropped. */
  function Advance(times: Times, c: Clock, to: nat): Clock
    requires Sound(times)
  {
    var fired := Ticks(times, to);
    Clock(to, fired, c.pending || fired > c.fired)
  }

  /** The clock when the select of round `k` is served. */
  function Served(times: Times, env: Env, k: nat, c: Clock): Clock
    requires Sound(times)
  {
    var called := Advance(times, c, c.now + env.callTime(k));
    var deadline := Deadline(times, env);
    var tick := TickTime(times, called.fired + 1);
    var wake :=
      if called.pending || deadline <= called.now then called.now
      else if deadline < tick then deadline
      else tick;
    Advance(times, called, wake + env.lag(k))
  }

  /** The select takes the ctx.Done() branch. */
  predicate TakesDone(times: Times, env: Env, k: nat, served: Clock) {
    Deadline(times, env) <= served.now && (!served.pending || env.preferDone(k))
  }

  /** The select never takes a branch that is not ready, and takes the ctx.Done() branch if it is preferred or
      the only one. */
  lemma SelectMeaning(times: Times, env: Env, k: nat, c: Clock, received: nat)
    requires Sound(times) && TickerOk(times, c, received)
    ensures var served := Served(times, env, k, c);
            (TakesDone(times, env, k, served) ==> Deadline(times, env) <= served.now)
            && (!TakesDone(times, env, k, served) ==> served.pending)
            && (Deadline(times, env) <= served.now && env.preferDone(k) ==> TakesDone(times, env, k, served))
            && (served.pending && !env.preferDone(k) ==> !TakesDone(times, env, k, served))
  {
    hide Served, Deadline;
    ServedKeepsTicker(times, env, k, c, received);
  }

  /** The clock when GetApplication is called in round `k`, if every earlier round took its tick. */
  function ClockAt(times: Times, env: Env, k: nat): Clock
    requires Sound(times)
  {
    if k == 0 then Clock(0, 0, false)
    else Served(times, env, k - 1, ClockAt(times, env, k - 1)).(pending := false)
  }

  /** GetApplication fails when it is called after its context's deadline. */
  ghost predicate HonoursDeadline(times: Times, env: Env)
    requires Sound(times)
  {
    forall k: nat :: ClockAt(times, env, k).now > Deadline(times, env) ==> env.fetch(k).Lost?
  }

  /** One more than the ticks that fit before the timeout: in the round after them GetApplication
      is called too late. */
  function LastRound(times: Times): nat
    requires Sound(times)
  {
    Ticks(times, times.timeout) + 1
  }

  lemma LastRoundMeaning(times: Times)
    requires Sound(times)
    ensures LastRound(times) == times.timeout / times.interval + 1
  {
  }

  function PollAt(times: Times, env: Env, k: nat): Poll
    requires Sound(times)
  {
    Poll(env.fetch(k), TakesDone(times, env, k, Served(times, env, k, ClockAt(times, env, k))))
  }

  /** What the environment answers, as the oracle of one target. */
  function OracleOf(times: Times, env: Env): Oracle
    requires Sound(times)
  {
    var last := LastRound(times);
    Oracle(env.refresh, env.sync, seq(last, k requires k >= 0 => PollAt(times, env, k)),
           if env.fetch(last).Lost? then env.fetch(last).err else ContextError)
  }

  /** The ticker's invariant. */
  ghost predicate TickerOk(times: Times, c: Clock, received: nat)
    requires Sound(times)
  {
    c.fired == Ticks(times, c.now) && received + (if c.pending then 1 else 0) <= c.fired
  }

  lemma AdvanceKeepsTicker(times: Times, c: Clock, to: nat, received: nat)
    requires Sound(times) && TickerOk(times, c, received) && c.now <= to
    ensures TickerOk(times, Advance(times, c, to), received)
  {
    hide Ticks, TickTime;
    TicksInverse(times, c.now);
    Fired(times, Ticks(times, c.now), to);
  }

  /** A select that is served finds a tick in the channel or its context done. */
  lemma ServedKeepsTicker(times: Times, env: Env, k: nat, c: Clock, received: nat)
    requires Sound(times) && TickerOk(times, c, received)
    ensures TickerOk(times, Served(times, env, k, c), received)
    ensures Served(times, env, k, c).pending || Deadline(times, env) <= Served(times, env, k, c).now
  {
    hide Ticks, TickTime, Deadline;
    var called := Advance(times, c, c.now + env.callTime(k));
    AdvanceKeepsTicker(times, c, c.now + env.callTime(k), received);
    TicksInverse(times, called.now);
    var served := Served(times, env, k, c);
    AdvanceKeepsTicker(times, called, served.now, received);
    Fired(times, called.fired + 1, served.now);
  }

  /** Each round before `k` consumed a tick of its own, so round `k` starts no earlier than tick `k`. */
  lemma {:induction false} RoundStartsAfterTick(times: Times, env: Env, k: nat)
    requires Sound(times)
    requires forall j: nat :: j < k ==> !TakesDone(times, env, j, Served(times, env, j, ClockAt(times, env, j)))
    ensures TickerOk(times, ClockAt(times, env, k), k)
    ensures TickTime(times, k) <= ClockAt(times, env, k).now
  {
    hide Ticks, TickTime, Deadline, Served;
    if k == 0 {
      FirstTick(times);
    } else {
      RoundStartsAfterTick(times, env, k - 1);
      ServedKeepsTicker(times, env, k - 1, ClockAt(times, env, k - 1), k - 1);
    }
    Fired(times, k, ClockAt(times, env, k).now);
  }

  lemma FirstTick(times: Times)
    requires Sound(times)
    ensures Ticks(times, 0) == 0
  {
  }

  /** No call is answered after the last round. */
  lemma TooLate(times: Times, env: Env)
    requires Sound(times) && HonoursDeadline(times, env)
    requires forall j: nat :: j < LastRound(times) ==>
               !TakesDone(times, env, j, Served(times, env, j, ClockAt(times, env, j)))
    ensures env.fetch(LastRound(times)).Lost?
  {
    hide Ticks, TickTime, TakesDone, Served, ClockAt;
    RoundStartsAfterTick(times, env, LastRound(times));
    TicksInverse(times, times.timeout);
  }

  /** waitForHealthy. It decides in the first deciding round, has reported every observation by then,
      and has called GetApplication once per round. */
  method WaitForHealthy(job: Job, env: Env) returns (err: Option<Err>, events: seq<ProgressEvent>, calls: nat)
    requires job.opts.pollInterval >= 0 && HonoursDeadline(TimesOf(job.opts), env)
    ensures 1 <= calls <= TimesOf(job.opts).timeout / TimesOf(job.opts).interval + 2
    ensures calls <= LastRound(TimesOf(job.opts)) + 1
    ensures var o := OracleOf(TimesOf(job.opts), env);
            FirstDeciding(job, o, calls - 1)
            && err == Round(job, o, calls - 1).err
            && events == WaitEvents(job, o, 0, calls)
  {
    hide LastRound, TimesOf, FirstDeciding, Round, WaitEvents, OracleOf, HonoursDeadline;
    LastRoundMeaning(TimesOf(job.opts));
    err, events, calls := PollUntilDecided(job, env);
  }

  /** The loop itself. */
  method PollUntilDecided(job: Job, env: Env) returns (err: Option<Err>, events: seq<ProgressEvent>, calls: nat)
    requires job.opts.pollInterval >= 0 && HonoursDeadline(TimesOf(job.opts), env)
    ensures 1 <= calls <= LastRound(TimesOf(job.opts)) + 1
    ensures var o := OracleOf(TimesOf(job.opts), env);
            FirstDeciding(job, o, calls - 1)
            && err == Round(job, o, calls - 1).err
            && events == WaitEvents(job, o, 0, calls)
  {
    var times := TimesOf(job.opts);
    ghost var o := OracleOf(times, env);
    var clock, seenOp, decided := Clock(0, 0, false), false, false;
    err, events, calls := None, [], 0;
    hide Round, RoundBegins, OracleOf, WaitEvents, LastRound, TimesOf, FirstDeciding, HonoursDeadline;
    FirstRound(job, times, env);
    while !decided
      invariant !decided ==> RoundBegins(job, times, env, Waiting(calls, seenOp, None), clock)
      invariant decided ==> 1 <= calls <= LastRound(times) + 1 && FirstDeciding(job, o, calls - 1)
                            && err == Round(job, o, calls - 1).err
      invariant events == WaitEvents(job, o, 0, calls)
      decreases !decided, LastRound(times) + 1 - calls
    {
      RoundReported(job, o, calls);
      var found, d, seen, next := PollOnce(job, times, env, calls, seenOp, clock);
      calls := calls + 1;
      if found.Some? {
        events := events + [WaitEvent(job, found.value)];
      }
      if d.Stop? {
        err, decided := d.err, true;
      } else {
        seenOp, clock := seen, next;
      }
    }
  }

  /** One round: GetApplication, the history bit, the decision, and the select. */
  method PollOnce(job: Job, times: Times, env: Env, k: nat, seenOp: bool, clock: Clock)
    returns (found: Option<Application>, d: Decision, seen: bool, next: Clock)
    requires Sound(times) && HonoursDeadline(times, env)
    requires RoundBegins(job, times, env, Waiting(k, seenOp, None), clock)
    ensures k <= LastRound(times)
    ensures var fetched := FetchAt(OracleOf(times, env), k);
            found == if fetched.Found? then Some(fetched.st) else None
    ensures d.Stop? ==> d == Round(job, OracleOf(times, env), k) && FirstDeciding(job, OracleOf(times, env), k)
    ensures d.Continue? ==> RoundBegins(job, times, env, Waiting(k + 1, seen, None), next)
  {
    hide Judge, Served, TakesDone, SyncOptions, Round, RoundBegins, OracleOf, ShowsPhase, LastRound, FirstDeciding, HonoursDeadline;
    RoundContinues(job, times, env, Waiting(k, seenOp, None), clock);
    found, seen, next := None, seenOp, clock;
    var fetched := env.fetch(k);
    if fetched.Lost? {
      d := Stop(Some(fetched.err));
      return;
    }
    var st := fetched.st;
    found := Some(st);
    if ShowsPhase(st) {
      seen := true;
    }
    d := Judge(job.target, SyncOptions(job), st, seen);
    if d.Continue? {
      var served := Served(times, env, k, clock);
      if TakesDone(times, env, k, served) {
        d := Stop(TimedOut(job, st));
      } else {
        next := served.(pending := false);
      }
    }
  }

  /** The state of the loop at the head of a round. */
  ghost predicate RoundBegins(job: Job, times: Times, env: Env, w: Waiting, clock: Clock)
    requires Sound(times)
  {
    var o := OracleOf(times, env);
    w.polls <= LastRound(times) && clock == ClockAt(times, env, w.polls) && Remembers(o, w)
    && forall j: nat :: j < w.polls ==> Round(job, o, j).Continue?
  }

  lemma FirstRound(job: Job, times: Times, env: Env)
    requires Sound(times)
    ensures RoundBegins(job, times, env, Waiting(0, false, None), Clock(0, 0, false))
    ensures WaitEvents(job, OracleOf(times, env), 0, 0) == []
  {
  }

  /** One round of the loop decides what `Round` says, or leads to the head of the next one. */
  lemma RoundContinues(job: Job, times: Times, env: Env, w: Waiting, clock: Clock)
    requires Sound(times) && HonoursDeadline(times, env) && RoundBegins(job, times, env, w, clock)
    ensures var o := OracleOf(times, env);
            var k := w.polls;
            var fetched := env.fetch(k);
            k <= LastRound(times) && FetchAt(o, k) == fetched
            && if fetched.Lost? then Round(job, o, k) == Stop(Some(fetched.err)) && FirstDeciding(job, o, k)
               else
                 var seen := w.seenOp || ShowsPhase(fetched.st);
                 var d := Judge(job.target, SyncOptions(job), fetched.st, seen);
                 var served := Served(times, env, k, clock);
                 if d.Stop? then Round(job, o, k) == d && FirstDeciding(job, o, k)
                 else if TakesDone(times, env, k, served) then
                   Round(job, o, k) == Stop(TimedOut(job, fetched.st)) && FirstDeciding(job, o, k)
                 else RoundBegins(job, times, env, Waiting(k + 1, seen, w.left), served.(pending := false))
  {
    hide Judge, ShowsPhase, SeenBy, Served, TakesDone, SyncOptions, Report;
    var o := OracleOf(times, env);
    AllTicksTaken(job, times, env, w.polls);
    SeenGrows(o, w.polls);
    if w.polls < LastRound(times) {
      assert o.polls[w.polls] == PollAt(times, env, w.polls);
    }
  }

  /** Rounds that continued took their ticks, so the oracle answers round `k` as the environment does. */
  lemma AllTicksTaken(job: Job, times: Times, env: Env, k: nat)
    requires Sound(times) && HonoursDeadline(times, env) && k <= LastRound(times)
    requires var o := OracleOf(times, env); forall j: nat :: j < k ==> Round(job, o, j).Continue?
    ensures var o := OracleOf(times, env);
            FetchAt(o, k) == env.fetch(k) && (env.fetch(k).Found? ==> k < LastRound(times))
  {
    hide Judge, SeenBy, Served, Ticks;
    var o := OracleOf(times, env);
    forall j: nat | j < k ensures !TakesDone(times, env, j, Served(times, env, j, ClockAt(times, env, j))) {
      assert Round(job, o, j).Continue?;
      assert o.polls[j] == PollAt(times, env, j);
    }
    if k == LastRound(times) {
      TooLate(times, env);
    } else {
      assert o.polls[k] == PollAt(times, env, k);
    }
  }

  /** Appending one more round's message, after `n` rounds. */
  lemma {:induction false} WaitEventsSnoc(job: Job, o: Oracle, from: nat, n: nat)
    ensures WaitEvents(job, o, from, from + n + 1)
         == WaitEvents(job, o, from, from + n)
            + (if FetchAt(o, from + n).Found? then [WaitEvent(job, FetchAt(o, from + n).st)] else [])
    decreases n
  {
    if n > 0 {
      WaitEventsSnoc(job, o, from + 1, n - 1);
    } else {
      assert WaitEvents(job, o, from + 1, from + 1) == [];
    }
  }

  lemma RoundReported(job: Job, o: Oracle, k: nat)
    ensures WaitEvents(job, o, 0, k + 1)
         == WaitEvents(job, o, 0, k) + (if FetchAt(o, k).Found? then [WaitEvent(job, FetchAt(o, k).st)] else [])
  {
    hide WaitEvents;
    WaitEventsSnoc(job, o, 0, k);
  }

  // ---- what success means, and how good the bound is ----

  /** An observation with a finished operation: and the sync is partial and a phase has been seen, or the
      application is synced (and healthy, or of unknown health, when that is asked for). */
  predicate AcceptsAt(job: Job, o: Oracle, n: nat) {
    FetchAt(o, n).Found?
    && var st := FetchAt(o, n).st;
       var opts := SyncOptions(job);
       st.operationPhase in {"", "Succeeded"}
       && ((opts.resources != [] && exists j :: 0 <= j <= n && FetchAt(o, j).Found? && TrimSpace(FetchAt(o, j).st.operationPhase) != "")
           || (st.syncStatus == "Synced" && (opts.waitHealthy ==> st.healthStatus in {"Healthy", "", "Unknown"})))
  }

  /** An observation of a failed operation. */
  predicate FailsAt(o: Oracle, n: nat) {
    FetchAt(o, n).Found? && FetchAt(o, n).st.operationPhase in {"Failed", "Error"}
  }

  /** The loop succeeds in a round exactly if its observation is accepting. */
  lemma SuccessMeaning(job: Job, o: Oracle, n: nat)
    ensures Round(job, o, n) == Stop(None) <==> AcceptsAt(job, o, n)
  {
    hide SyncOptions;
    if FetchAt(o, n).Found? && OperationDone(FetchAt(o, n).st) {
      DoneIsNotFailing(FetchAt(o, n).st);
    }
  }

  /** It fails with the operation exactly if the phase is "Failed" or "Error", with the operation's message. */
  lemma FailureMeaning(job: Job, o: Oracle, n: nat)
    ensures FailsAt(o, n) <==> Round(job, o, n).Stop? && Round(job, o, n).err.Some? && Round(job, o, n).err.value.OperationFailed?
                               && FetchAt(o, n).Found?
    ensures FailsAt(o, n) ==>
              var st := FetchAt(o, n).st;
              Round(job, o, n) == Stop(Some(OperationFailed(job.target, st.operationPhase,
                                                            if st.operationMessage == "" then "operation failed" else st.operationMessage)))
  {
    hide SeenBy, SyncOptions, ShowsPhase, OperationDone, Report;
  }

  lemma DoneIsNotFailing(st: Application)
    requires OperationDone(st)
    ensures !Failing(st)
  {
    assert |"Failed"| == 6 && |"Error"| == 5 && |"Succeeded"| == 9;
  }

  /** Without an API error or a deadline, the loop stops at the first observation that is failing or
      accepting. */
  lemma DecidesAtFirstFailingOrAccepting(job: Job, o: Oracle, n: nat)
    requires forall k :: 0 <= k <= n ==> FetchAt(o, k).Found? && !DoneAt(o, k)
    ensures FirstDeciding(job, o, n) <==>
              (FailsAt(o, n) || AcceptsAt(job, o, n))
              && forall k :: 0 <= k < n ==> !FailsAt(o, k) && !AcceptsAt(job, o, k)
  {
    hide Round, FailsAt, AcceptsAt;
    forall k: nat | k <= n ensures Round(job, o, k).Stop? <==> FailsAt(o, k) || AcceptsAt(job, o, k) {
      StopsFailingOrAccepting(job, o, k);
    }
  }

  lemma StopsFailingOrAccepting(job: Job, o: Oracle, k: nat)
    requires FetchAt(o, k).Found? && !DoneAt(o, k)
    ensures Round(job, o, k).Stop? <==> FailsAt(o, k) || AcceptsAt(job, o, k)
  {
    SuccessMeaning(job, o, k);
    hide SeenBy, SyncOptions, ShowsPhase, OperationDone, Failing, AcceptsAt, FailsAt;
    FailureMeaning(job, o, k);
  }

  /** An environment in which every call but the last is answered with `st` at once, the select
      before the deadline is served one interval late, and ticks are preferred. */
  function Slowest(times: Times, st: Application, e: Err): Env
    requires Sound(times)
  {
    var q := Ticks(times, times.timeout);
    Env(None, None, k => if k <= q then Found(st) else Lost(e), k => 0, k => if k == q then times.interval else 0, k => false, None)
  }

  lemma {:induction false} SlowestClock(times: Times, st: Application, e: Err, k: nat)
    requires Sound(times) && k <= Ticks(times, times.timeout)
    ensures ClockAt(times, Slowest(times, st, e), k) == Clock(TickTime(times, k), k, false)
  {
    if k > 0 {
      SlowestClock(times, st, e, k - 1);
      SlowestRound(times, st, e, k - 1);
      Fired(times, k, times.timeout);
      TickAt(times, k);
    } else {
      FirstTick(times);
    }
  }

  lemma TickAt(times: Times, k: nat)
    requires Sound(times)
    ensures Ticks(times, TickTime(times, k)) == k
  {
    hide Ticks, TickTime;
    Fired(times, k, TickTime(times, k));
    Fired(times, k + 1, TickTime(times, k));
    TickTimeMonotone(times, k + 1, k);
  }

  /** In every round up to the last tick before the deadline, the tick arrives first. */
  lemma SlowestRound(times: Times, st: Application, e: Err, k: nat)
    requires Sound(times) && k <= Ticks(times, times.timeout)
    requires ClockAt(times, Slowest(times, st, e), k) == Clock(TickTime(times, k), k, false)
    ensures var served := Served(times, Slowest(times, st, e), k, ClockAt(times, Slowest(times, st, e), k));
            served.pending
            && (k < Ticks(times, times.timeout) ==> served.now == TickTime(times, k + 1))
            && (k == Ticks(times, times.timeout) ==> served.now == times.timeout + times.interval)
  {
    hide Ticks, TickTime;
    Fired(times, k, times.timeout);
    Fired(times, k + 1, times.timeout);
    TickAt(times, k);
    TickAt(times, k + 1);
    NextTick(times, k);
    var served := Served(times, Slowest(times, st, e), k, ClockAt(times, Slowest(times, st, e), k));
    Fired(times, k + 1, served.now);
  }

  lemma NextTick(times: Times, k: nat)
    ensures TickTime(times, k + 1) == TickTime(times, k) + times.interval
  {
  }

  /** The bound on the calls is attained: for an undecided observation the loop makes all of them. */
  lemma BoundAttained(job: Job, times: Times, st: Application, e: Err)
    requires Sound(times)
    requires forall seen :: Judge(job.target, SyncOptions(job), st, seen).Continue?
    ensures var env := Slowest(times, st, e);
            HonoursDeadline(times, env) && FirstDeciding(job, OracleOf(times, env), LastRound(times))
  {
    hide Judge, SyncOptions, SeenBy;
    var env := Slowest(times, st, e);
    var q := Ticks(times, times.timeout);
    var o := OracleOf(times, env);
    forall k: nat | k <= q
      ensures ClockAt(times, env, k).now <= Deadline(times, env) && Round(job, o, k).Continue?
    {
      SlowestClock(times, st, e, k);
      SlowestRound(times, st, e, k);
      Fired(times, k, times.timeout);
      assert o.polls[k] == PollAt(times, env, k);
    }
  }
}
