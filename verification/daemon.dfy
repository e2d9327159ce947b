/** The lifecycle of one daemon: its session counter, its grace timer and its shutdown. */
module Daemon {
  import opened Base

  type TimerId = nat
  type SessionId = nat

  /** The longest delay a Node timer honours; a delay outside 1..MAX_DELAY_MS counts as 1. */
  const MAX_DELAY_MS := 2_147_483_647

  function TimerDelay(ms: int): (delay: int)
    ensures 1 <= delay
  {
    if 1 <= ms <= MAX_DELAY_MS then ms else 1
  }

  /** `connectionCount`, `shutdownTimer` and `agentHandle` are the variables of those names (the last
      only as "is set"); `timers` holds the timeouts the runtime still has to run. `stopping` means
      the agent has been told to stop, `exited` that the process is gone. `sessions` records the open
      sockets. */
  datatype State = State(
    now: int,
    gracePeriodMs: int,
    connectionCount: int,
    shutdownTimer: Option<TimerId>,
    timers: map<TimerId, int>,
    nextTimer: TimerId,
    agentHandle: bool,
    stopping: bool,
    exited: bool,
    sessions: set<SessionId>)

  function Clear(timers: map<TimerId, int>, handle: Option<TimerId>): map<TimerId, int> {
    if handle.Some? then timers - {handle.value} else timers
  }

  function ShutdownNow(s: State): State {
    if s.agentHandle then s.(stopping := true) else s.(exited := true)
  }

  function ScheduleShutdown(s: State): State {
    s.(timers := Clear(s.timers, s.shutdownTimer)[s.nextTimer := s.now + TimerDelay(s.gracePeriodMs)],
       shutdownTimer := Some(s.nextTimer),
       nextTimer := s.nextTimer + 1)
  }

  function GraceEnds(s: State, t: TimerId): State {
    var s' := s.(timers := s.timers - {t});
    if s.connectionCount == 0 then ShutdownNow(s') else s'
  }

  function SessionOpened(s: State, id: SessionId): State {
    s.(connectionCount := s.connectionCount + 1,
       timers := Clear(s.timers, s.shutdownTimer),
       shutdownTimer := None,
       sessions := s.sessions + {id})
  }

  function SessionClosed(s: State, id: SessionId): State {
    var s' := s.(connectionCount := s.connectionCount - 1, sessions := s.sessions - {id});
    if s'.connectionCount == 0 then ScheduleShutdown(s') else s'
  }

  function AgentStarted(s: State): State {
    ScheduleShutdown(s.(agentHandle := true))
  }

  // ---- runs ----

  datatype Event =
    | SessionOpens(id: SessionId)
    | SessionCloses(id: SessionId)
    | AgentStarts
    | AgentFails
    | TimerRuns(t: TimerId)
    | ShutdownAsked       // a signal, or the PID check
    | AgentStopped
    | TimePasses(ms: nat)

  function Start(now: int, gracePeriodMs: int): State {
    State(now, gracePeriodMs, 0, None, map[], 0, false, false, false, {})
  }

  /** Timers run on schedule: the clock does not pass one that is due. */
  predicate Enabled(s: State, e: Event) {
    !s.exited &&
    match e
    case SessionOpens(id) => id !in s.sessions
    case SessionCloses(id) => id in s.sessions
    case AgentStarts => !s.agentHandle
    case AgentFails => !s.agentHandle
    case TimerRuns(t) => t in s.timers && s.timers[t] <= s.now
    case ShutdownAsked => true
    case AgentStopped => s.stopping
    case TimePasses(ms) => forall t :: t in s.timers ==> s.now + ms <= s.timers[t]
  }

  function Next(s: State, e: Event): State
    requires Enabled(s, e)
  {
    match e
    case SessionOpens(id) => SessionOpened(s, id)
    case SessionCloses(id) => SessionClosed(s, id)
    case AgentStarts => AgentStarted(s)
    case AgentFails => s.(exited := true)
    case TimerRuns(t) => GraceEnds(s, t)
    case ShutdownAsked => ShutdownNow(s)
    case AgentStopped => s.(exited := true)
    case TimePasses(ms) => s.(now := s.now + ms)
  }

  datatype Trace = Trace(states: seq<State>, events: seq<Event>)

  ghost predicate StepAt(t: Trace, i: nat)
    requires i < |t.events| && |t.states| == |t.events| + 1
  {
    Enabled(t.states[i], t.events[i]) && t.states[i + 1] == Next(t.states[i], t.events[i])
  }

  ghost predicate IsRun(t: Trace) {
    && |t.states| == |t.events| + 1
    && t.states[0] == Start(t.states[0].now, t.states[0].gracePeriodMs)
    && forall i :: 0 <= i < |t.events| ==> StepAt(t, i)
  }

  // ---- what every step keeps ----

  /** A live timer is the one `shutdownTimer` names, and lies within the grace period. */
  ghost predicate OneTimer(s: State) {
    forall t :: t in s.timers ==>
      s.shutdownTimer == Some(t) && t < s.nextTimer && s.now <= s.timers[t] <= s.now + TimerDelay(s.gracePeriodMs)
  }

  /** A daemon that has started and has no session is about to shut down. */
  ghost predicate Armed(s: State) {
    s.agentHandle && s.sessions == {} && !s.stopping && !s.exited ==>
      s.shutdownTimer.Some? && s.shutdownTimer.value in s.timers
  }

  ghost predicate Inv(s: State) {
    && s.connectionCount == |s.sessions|
    && OneTimer(s) && Armed(s)
    && (s.stopping ==> s.agentHandle)
  }

  lemma StepKeepsInv(s: State, e: Event)
    requires Inv(s) && Enabled(s, e)
    ensures Inv(Next(s, e)) && Next(s, e).gracePeriodMs == s.gracePeriodMs
  {
  }

  lemma {:induction false} InvHolds(t: Trace, n: nat)
    requires IsRun(t) && n < |t.states|
    ensures Inv(t.states[n]) && t.states[n].gracePeriodMs == t.states[0].gracePeriodMs
  {
    if n > 0 {
      InvHolds(t, n - 1);
      assert StepAt(t, n - 1);
      StepKeepsInv(t.states[n - 1], t.events[n - 1]);
    }
  }

  // ---- the code ----

  class DaemonProcess {
    const gracePeriodMs: int
    var connectionCount: int
    var shutdownTimer: Option<TimerId>
    var timers: map<TimerId, int>
    var nextTimer: TimerId
    var agentHandle: bool
    var stopping: bool
    var exited: bool
    ghost var sessions: set<SessionId>

    ghost function View(now: int): State
      reads this
    {
      State(now, gracePeriodMs, connectionCount, shutdownTimer, timers, nextTimer,
            agentHandle, stopping, exited, sessions)
    }

    ghost predicate Valid(now: int)
      reads this
    {
      Inv(View(now))
    }

    constructor (gracePeriodMs: int, now: int)
      ensures Valid(now) && View(now) == Start(now, gracePeriodMs)
    {
      this.gracePeriodMs := gracePeriodMs;
      connectionCount, shutdownTimer, timers, nextTimer := 0, None, map[], 0;
      agentHandle, stopping, exited, sessions := false, false, false, {};
    }

    method DoShutdownNow(now: int)
      modifies this
      ensures View(now) == ShutdownNow(old(View(now)))
    {
      if agentHandle {
        stopping := true;
      } else {
        exited := true;
      }
    }

    method DoScheduleShutdown(now: int)
      modifies this
      ensures View(now) == ScheduleShutdown(old(View(now)))
    {
      if shutdownTimer.Some? {
        timers := timers - {shutdownTimer.value};
      }
      timers := timers[nextTimer := now + TimerDelay(gracePeriodMs)];
      shutdownTimer, nextTimer := Some(nextTimer), nextTimer + 1;
    }

    /** SIGINT, SIGTERM, or a PID check that finds the daemon orphaned. */
    method OnShutdownAsked(now: int)
      requires Valid(now) && Enabled(View(now), ShutdownAsked)
      modifies this
      ensures Valid(now) && View(now) == Next(old(View(now)), ShutdownAsked)
    {
      StepKeepsInv(View(now), ShutdownAsked);
      DoShutdownNow(now);
    }

    method OnShutdownTimer(timer: TimerId, now: int)
      requires Valid(now) && Enabled(View(now), TimerRuns(timer))
      modifies this
      ensures Valid(now) && View(now) == Next(old(View(now)), TimerRuns(timer))
    {
      StepKeepsInv(View(now), TimerRuns(timer));
      timers := timers - {timer};
      if connectionCount == 0 {
        DoShutdownNow(now);
      }
    }

    method OnConnection(ghost id: SessionId, ghost now: int)
      requires Valid(now) && Enabled(View(now), SessionOpens(id))
      modifies this
      ensures Valid(now) && View(now) == Next(old(View(now)), SessionOpens(id))
    {
      StepKeepsInv(View(now), SessionOpens(id));
      connectionCount := connectionCount + 1;
      sessions := sessions + {id};
      if shutdownTimer.Some? {
        timers := timers - {shutdownTimer.value};
        shutdownTimer := None;
      }
    }

    method OnSocketClose(ghost id: SessionId, now: int)
      requires Valid(now) && Enabled(View(now), SessionCloses(id))
      modifies this
      ensures Valid(now) && View(now) == Next(old(View(now)), SessionCloses(id))
    {
      StepKeepsInv(View(now), SessionCloses(id));
      connectionCount := connectionCount - 1;
      sessions := sessions - {id};
      if connectionCount == 0 {
        DoScheduleShutdown(now);
      }
    }

    method OnAgentStarted(now: int)
      requires Valid(now) && Enabled(View(now), AgentStarts)
      modifies this
      ensures Valid(now) && View(now) == Next(old(View(now)), AgentStarts)
    {
      StepKeepsInv(View(now), AgentStarts);
      agentHandle := true;
      DoScheduleShutdown(now);
    }
  }

  // ---- results ----

  /** The sessions opened and not closed by these events. */
  function OpenAfter(events: seq<Event>): set<SessionId> {
    if events == [] then {}
    else
      var m := |events| - 1;
      var open := OpenAfter(events[..m]);
      match events[m]
      case SessionOpens(id) => open + {id}
      case SessionCloses(id) => open - {id}
      case _ => open
  }

  /** The agent has started. */
  ghost predicate Started(events: seq<Event>) {
    exists i :: 0 <= i < |events| && events[i].AgentStarts?
  }

  lemma {:induction false} SessionsAreOpen(t: Trace, n: nat)
    requires IsRun(t) && n < |t.states|
    ensures t.states[n].sessions == OpenAfter(t.events[..n])
    ensures t.states[n].agentHandle <==> Started(t.events[..n])
  {
    if n > 0 {
      SessionsAreOpen(t, n - 1);
      assert StepAt(t, n - 1);
      var before, after := t.events[..n - 1], t.events[..n];
      assert after[..n - 1] == before && after[n - 1] == t.events[n - 1];
      if i :| 0 <= i < |before| && before[i].AgentStarts? { assert after[i] == before[i]; }
      if i :| 0 <= i < |after| && after[i].AgentStarts? { assert i < n - 1 ==> before[i] == after[i]; }
    }
  }

  /** In every run the counter is the number of sessions opened and not closed. */
  lemma CounterIsSessions(t: Trace, n: nat)
    requires IsRun(t) && n < |t.states|
    ensures t.states[n].connectionCount == |OpenAfter(t.events[..n])|
  {
    InvHolds(t, n);
    SessionsAreOpen(t, n);
  }

  predicate ShuttingDown(s: State) {
    s.stopping || s.exited
  }

  /** MAIN RESULT: exactly what makes a daemon shut down: its grace timer running while no session is
      open, a signal or a failed PID check, or its agent failing to start; and then it stops its agent
      first, exactly if it has one. */
  lemma ShutsDownIff(t: Trace, i: nat)
    requires IsRun(t) && i < |t.events| && !ShuttingDown(t.states[i])
    ensures ShuttingDown(t.states[i + 1]) <==>
      || (t.events[i].TimerRuns? && OpenAfter(t.events[..i]) == {})
      || t.events[i].ShutdownAsked? || t.events[i].AgentFails?
    ensures ShuttingDown(t.states[i + 1]) ==>
      && (t.states[i + 1].stopping <==> Started(t.events[..i]))
      && (t.states[i + 1].exited <==> !Started(t.events[..i]))
  {
    assert StepAt(t, i);
    InvHolds(t, i);
    SessionsAreOpen(t, i);
  }

  // ---- the daemon never stops too early ----

  /** No session was open from state `j` to state `n`. */
  ghost predicate IdleFrom(t: Trace, j: nat, n: nat) {
    j <= n < |t.states| && forall m :: j <= m <= n ==> t.states[m].sessions == {}
  }

  /** Said of the events: none opened before `n` was open at any time from `j` on. */
  lemma IdleMeansNoneOpen(t: Trace, j: nat, n: nat)
    requires IsRun(t) && j <= n < |t.states|
    ensures IdleFrom(t, j, n) <==> forall m :: j <= m <= n ==> OpenAfter(t.events[..m]) == {}
  {
    forall m | j <= m <= n ensures t.states[m].sessions == OpenAfter(t.events[..m]) {
      SessionsAreOpen(t, m);
    }
  }

  /** No session was open from state `j` on, and `due` is a full delay after it. */
  ghost predicate IdleLongBefore(t: Trace, j: nat, n: nat, due: int) {
    IdleFrom(t, j, n) && t.states[j].now + TimerDelay(t.states[j].gracePeriodMs) <= due
  }

  lemma {:induction false} TimerMeansIdle(t: Trace, n: nat, x: TimerId) returns (j: nat)
    requires IsRun(t) && n < |t.states| && t.states[n].sessions == {} && x in t.states[n].timers
    ensures IdleLongBefore(t, j, n, t.states[n].timers[x])
    decreases n
  {
    assert StepAt(t, n - 1);
    InvHolds(t, n - 1);
    InvHolds(t, n);
    var s, s' := t.states[n - 1], t.states[n];
    if s.sessions == {} && x in s.timers {
      j := TimerMeansIdle(t, n - 1, x);
    } else {
      j := n;
    }
  }

  /** The grace timer shuts the daemon down in step `i`. */
  ghost predicate GraceShutdownAt(t: Trace, i: nat) {
    && i < |t.events| < |t.states| && t.events[i].TimerRuns?
    && !ShuttingDown(t.states[i]) && ShuttingDown(t.states[i + 1])
  }

  /** MAIN RESULT: when the grace timer shuts the daemon down, no session has been open for the whole
      delay of the timer, also if start-up armed it while sessions were open. */
  lemma ShutdownAfterIdleDelay(t: Trace, i: nat) returns (j: nat)
    requires IsRun(t) && GraceShutdownAt(t, i)
    ensures IdleFrom(t, j, i)
    ensures var period := t.states[0].gracePeriodMs;
      t.states[j].now + (if 1 <= period <= 2_147_483_647 then period else 1) <= t.states[i].now
  {
    assert StepAt(t, i);
    InvHolds(t, i);
    var x := t.events[i].t;
    j := TimerMeansIdle(t, i, x);
    InvHolds(t, j);
  }

  /** In every run with this setting, a shutdown by the grace timer follows an idle grace period. */
  ghost predicate GraceHonoured(gracePeriodMs: int) {
    forall t, i: nat :: IsRun(t) && t.states[0].gracePeriodMs == gracePeriodMs && GraceShutdownAt(t, i) ==>
      exists j: nat :: IdleFrom(t, j, i) && t.states[j].now + gracePeriodMs <= t.states[i].now
  }

  /** The run of a daemon that starts its agent, sees no session and shuts down. */
  function LonelyRun(gracePeriodMs: int): Trace {
    var s0 := Start(0, gracePeriodMs);
    var s1 := AgentStarted(s0);
    var s2 := s1.(now := TimerDelay(gracePeriodMs));
    Trace([s0, s1, s2, GraceEnds(s2, 0)], [AgentStarts, TimePasses(TimerDelay(gracePeriodMs)), TimerRuns(0)])
  }

  lemma LonelyRunIsRun(gracePeriodMs: int)
    ensures IsRun(LonelyRun(gracePeriodMs)) && GraceShutdownAt(LonelyRun(gracePeriodMs), 2)
  {
    var t := LonelyRun(gracePeriodMs);
    assert StepAt(t, 0) && StepAt(t, 1) && StepAt(t, 2);
  }

  /** MAIN RESULT: the configured grace period is honoured exactly if it fits a Node timer. */
  lemma GraceHonouredIff(gracePeriodMs: int)
    ensures GraceHonoured(gracePeriodMs) <==> gracePeriodMs <= 2_147_483_647
  {
    if gracePeriodMs <= MAX_DELAY_MS {
      forall t, i: nat | IsRun(t) && t.states[0].gracePeriodMs == gracePeriodMs && GraceShutdownAt(t, i)
        ensures exists j: nat :: IdleFrom(t, j, i) && t.states[j].now + gracePeriodMs <= t.states[i].now
      {
        var j := ShutdownAfterIdleDelay(t, i);
      }
    } else {
      var t := LonelyRun(gracePeriodMs);
      LonelyRunIsRun(gracePeriodMs);
      assert forall j: nat :: IdleFrom(t, j, 2) ==> t.states[j].now + gracePeriodMs > t.states[2].now;
    }
  }

  // ---- the daemon never gets stuck ----

  /** From state `j` to state `n` the agent was up, no session was open and nothing shut down. */
  ghost predicate WaitingFrom(t: Trace, j: nat, n: nat) {
    j <= n < |t.states| && forall m :: j <= m <= n ==>
      t.states[m].agentHandle && t.states[m].sessions == {} && !t.states[m].stopping && !t.states[m].exited
  }

  /** MAIN RESULT: while a started daemon has no session, its grace timer is armed, with a deadline at
      most one delay after the waiting began; so it does not wait longer than that. */
  lemma {:induction false} WaitingEnds(t: Trace, j: nat, n: nat)
    requires IsRun(t) && WaitingFrom(t, j, n)
    ensures var s := t.states[n];
      s.shutdownTimer.Some? && s.shutdownTimer.value in s.timers
      && s.now <= s.timers[s.shutdownTimer.value]
      && s.timers[s.shutdownTimer.value] <=
           t.states[j].now + (if 1 <= s.gracePeriodMs <= 2_147_483_647 then s.gracePeriodMs else 1)
    decreases n
  {
    InvHolds(t, n);
    if j < n {
      WaitingEnds(t, j, n - 1);
      assert StepAt(t, n - 1);
      InvHolds(t, n - 1);
    }
  }
}
