/** The agent's ping and pong timers on one connection. */
module Keepalive {
  import opened Base

  type TimerId = nat

  const PING_INTERVAL_MS := 30_000
  const PONG_TIMEOUT_MS := 10_000

  /** `connecting` and `isOpen` say that the socket's state is CONNECTING or OPEN;
      `pingDue` is when the ping interval runs next, `pongTimeout` the variable of that name, and
      `timeouts` the timeouts the runtime still has to run. `heardAt` records when the link opened or
      last delivered a pong, `unanswered` when the last ping went out if no pong has come since. */
  datatype State = State(
    now: int,
    connecting: bool,
    isOpen: bool,
    terminated: bool,
    pingDue: Option<int>,
    pongTimeout: Option<TimerId>,
    timeouts: map<TimerId, int>,
    nextTimer: TimerId,
    heardAt: int,
    unanswered: Option<int>)

  function Clear(timeouts: map<TimerId, int>, handle: Option<TimerId>): map<TimerId, int> {
    if handle.Some? then timeouts - {handle.value} else timeouts
  }

  function Opened(s: State): State {
    s.(connecting := false, isOpen := true, pingDue := Some(s.now + PING_INTERVAL_MS), heardAt := s.now)
  }

  function PingTicks(s: State): State
    requires s.pingDue.Some?
  {
    var s' := s.(pingDue := Some(s.pingDue.value + PING_INTERVAL_MS));
    if !s.isOpen then s'
    else s'.(timeouts := Clear(s.timeouts, s.pongTimeout)[s.nextTimer := s.now + PONG_TIMEOUT_MS],
             pongTimeout := Some(s.nextTimer), nextTimer := s.nextTimer + 1, unanswered := Some(s.now))
  }

  function PongArrives(s: State): State {
    s.(timeouts := Clear(s.timeouts, s.pongTimeout), pongTimeout := None, heardAt := s.now, unanswered := None)
  }

  function TimeoutRuns(s: State, t: TimerId): State {
    s.(timeouts := s.timeouts - {t}, isOpen := false, terminated := true)
  }

  function Closed(s: State): State {
    s.(connecting := false, isOpen := false, pingDue := None,
       timeouts := Clear(s.timeouts, s.pongTimeout), pongTimeout := None)
  }

  // ---- runs ----

  /** `StartsClosing` is the socket leaving its OPEN state, ahead of its `close` event. */
  datatype Event = Opens | PingTick | Pong | Timeout(t: TimerId) | StartsClosing | Closes | TimePasses(ms: nat)

  function Start(now: int): State {
    State(now, true, false, false, None, None, map[], 0, now, None)
  }

  /** Timers run on schedule: the clock does not pass one that is due. A connection opens once. */
  predicate Enabled(s: State, e: Event) {
    match e
    case Opens => s.connecting
    case PingTick => s.pingDue.Some? && s.pingDue.value <= s.now
    case Pong => !s.connecting
    case Timeout(t) => t in s.timeouts && s.timeouts[t] <= s.now
    case StartsClosing => s.isOpen
    case Closes => true
    case TimePasses(ms) =>
      (s.pingDue.Some? ==> s.now + ms <= s.pingDue.value) && forall t :: t in s.timeouts ==> s.now + ms <= s.timeouts[t]
  }

  function Next(s: State, e: Event): State
    requires Enabled(s, e)
  {
    match e
    case Opens => Opened(s)
    case PingTick => PingTicks(s)
    case Pong => PongArrives(s)
    case Timeout(t) => TimeoutRuns(s, t)
    case StartsClosing => s.(isOpen := false)
    case Closes => Closed(s)
    case TimePasses(ms) => s.(now := s.now + ms)
  }

  datatype Trace = Trace(states: seq<State>, events: seq<Event>)

  ghost predicate IsRun(t: Trace) {
    && |t.states| == |t.events| + 1
    && t.states[0] == Start(t.states[0].now)
    && forall i :: 0 <= i < |t.events| ==>
      Enabled(t.states[i], t.events[i]) && t.states[i + 1] == Next(t.states[i], t.events[i])
  }

  // ---- what every step keeps ----

  /** The only timeout is the one for the last ping, still unanswered. */
  ghost predicate OneTimeout(s: State) {
    forall t :: t in s.timeouts ==>
      s.pongTimeout == Some(t) && s.now <= s.timeouts[t] && s.unanswered == Some(s.timeouts[t] - PONG_TIMEOUT_MS)
  }

  /** While the link is open, the timeout comes 20 seconds before the next ping, and both lie within
      40 seconds of the last sign of life. */
  ghost predicate InTime(s: State) {
    && s.pingDue.Some? && s.now <= s.pingDue.value <= s.now + PING_INTERVAL_MS
    && (s.timeouts == map[] ==> s.unanswered.None? && s.pingDue.value <= s.heardAt + 30_000)
    && (forall t :: t in s.timeouts ==>
          s.timeouts[t] == s.pingDue.value - 20_000 && s.timeouts[t] <= s.heardAt + 40_000)
  }

  /** Until the link has closed, an unanswered ping has its timeout still to come. */
  ghost predicate Watched(s: State) {
    s.unanswered.Some? && s.pingDue.Some? && !s.terminated ==>
      s.pongTimeout.Some? && s.pongTimeout.value in s.timeouts
  }

  ghost predicate Inv(s: State) {
    && (s.connecting ==>
          !s.isOpen && !s.terminated && s.timeouts == map[] && s.unanswered.None? && s.pingDue.None?)
    && (s.pingDue.Some? ==> s.now <= s.pingDue.value)
    && OneTimeout(s) && Watched(s) && (s.isOpen ==> InTime(s) && !s.terminated)
  }

  lemma StepKeepsInv(s: State, e: Event)
    requires Inv(s) && Enabled(s, e)
    ensures Inv(Next(s, e))
  {
    var s' := Next(s, e);
    if e.PingTick? && s.isOpen {
      assert s.timeouts == map[] by {
        if t :| t in s.timeouts { assert false; }
      }
      assert s.nextTimer in s'.timeouts;
    } else if e.Pong? || e.Closes? || e.Timeout? {
      assert forall t :: t in s.timeouts ==> s.pongTimeout == Some(t);
      assert s'.timeouts == map[];
    }
  }

  lemma {:induction false} InvHolds(t: Trace, n: nat)
    requires IsRun(t) && n < |t.states|
    ensures Inv(t.states[n])
  {
    if n > 0 {
      InvHolds(t, n - 1);
      StepKeepsInv(t.states[n - 1], t.events[n - 1]);
    }
  }

  // ---- the code ----

  class AgentLink {
    var isOpen: bool
    var terminated: bool
    var pingInterval: Option<int>
    var pongTimeout: Option<TimerId>
    var timeouts: map<TimerId, int>
    var nextTimer: TimerId
    ghost var connecting: bool
    ghost var heardAt: int
    ghost var unanswered: Option<int>

    ghost function View(now: int): State
      reads this
    {
      State(now, connecting, isOpen, terminated, pingInterval, pongTimeout, timeouts, nextTimer, heardAt, unanswered)
    }

    ghost predicate Valid(now: int)
      reads this
    {
      Inv(View(now))
    }

    constructor (now: int)
      ensures Valid(now) && View(now) == Start(now)
    {
      isOpen, terminated, pingInterval, pongTimeout := false, false, None, None;
      timeouts, nextTimer := map[], 0;
      connecting, heardAt, unanswered := true, now, None;
    }

    method OnOpen(now: int)
      requires Valid(now) && Enabled(View(now), Opens)
      modifies this
      ensures Valid(now) && View(now) == Next(old(View(now)), Opens)
    {
      StepKeepsInv(View(now), Opens);
      connecting, isOpen, heardAt := false, true, now;
      pingInterval := Some(now + PING_INTERVAL_MS);
    }

    method OnPingInterval(now: int)
      requires Valid(now) && Enabled(View(now), PingTick)
      modifies this
      ensures Valid(now) && View(now) == Next(old(View(now)), PingTick)
    {
      hide Inv;
      StepKeepsInv(View(now), PingTick);
      pingInterval := Some(pingInterval.value + PING_INTERVAL_MS);
      if isOpen {
        unanswered := Some(now);
        if pongTimeout.Some? {
          timeouts := timeouts - {pongTimeout.value};
        }
        timeouts := timeouts[nextTimer := now + PONG_TIMEOUT_MS];
        pongTimeout, nextTimer := Some(nextTimer), nextTimer + 1;
      }
    }

    method OnPong(now: int)
      requires Valid(now) && Enabled(View(now), Pong)
      modifies this
      ensures Valid(now) && View(now) == Next(old(View(now)), Pong)
    {
      StepKeepsInv(View(now), Pong);
      heardAt, unanswered := now, None;
      if pongTimeout.Some? {
        timeouts := timeouts - {pongTimeout.value};
        pongTimeout := None;
      }
    }

    method OnPongTimeout(timer: TimerId, now: int)
      requires Valid(now) && Enabled(View(now), Timeout(timer))
      modifies this
      ensures Valid(now) && View(now) == Next(old(View(now)), Timeout(timer))
    {
      StepKeepsInv(View(now), Timeout(timer));
      timeouts := timeouts - {timer};
      isOpen, terminated := false, true;
    }

    method OnClose(now: int)
      requires Valid(now) && Enabled(View(now), Closes)
      modifies this
      ensures Valid(now) && View(now) == Next(old(View(now)), Closes)
    {
      StepKeepsInv(View(now), Closes);
      connecting, isOpen := false, false;
      pingInterval := None;
      if pongTimeout.Some? {
        timeouts := timeouts - {pongTimeout.value};
        pongTimeout := None;
      }
    }
  }

  // ---- results ----

  lemma StepHolds(t: Trace, n: nat)
    requires IsRun(t) && n < |t.events|
    ensures Enabled(t.states[n], t.events[n]) && t.states[n + 1] == Next(t.states[n], t.events[n])
  {
  }

  predicate Ends(e: Event) {
    e.Timeout? || e.StartsClosing? || e.Closes?
  }

  lemma StepOpens(s: State, e: Event)
    requires Enabled(s, e)
    ensures Next(s, e).isOpen <==> e.Opens? || (s.isOpen && !Ends(e))
    ensures Next(s, e).terminated <==> s.terminated || e.Timeout?
  {
  }

  /** The link is open from its `open` event until it starts closing, closes, or is terminated; and it
      is terminated exactly if the pong timeout has run. */
  lemma {:induction false} OpenIff(t: Trace, n: nat)
    requires IsRun(t) && n < |t.states|
    ensures t.states[n].isOpen <==>
      exists k :: 0 <= k < n && t.events[k].Opens? && forall m :: k < m < n ==> !Ends(t.events[m])
    ensures t.states[n].terminated <==> exists k :: 0 <= k < n && t.events[k].Timeout?
  {
    hide Inv, Enabled, Next;
    if n > 0 {
      OpenIff(t, n - 1);
      StepHolds(t, n - 1);
      StepOpens(t.states[n - 1], t.events[n - 1]);
      if k :| 0 <= k < n - 1 && t.events[k].Opens? && forall m :: k < m < n - 1 ==> !Ends(t.events[m]) {
        assert !Ends(t.events[n - 1]) ==> forall m :: k < m < n ==> !Ends(t.events[m]);
      }
    }
  }

  /** The last sign of life is an event: the link opened, or delivered a pong. */
  lemma {:induction false} HeardAtEvent(t: Trace, n: nat) returns (k: nat)
    requires IsRun(t) && n < |t.states| && !t.states[n].connecting && t.states[n].isOpen
    ensures k < n && (t.events[k].Opens? || t.events[k].Pong?) && t.states[n].heardAt == t.states[k].now
  {
    StepHolds(t, n - 1);
    if t.events[n - 1].Opens? || t.events[n - 1].Pong? {
      k := n - 1;
    } else {
      InvHolds(t, n - 1);
      k := HeardAtEvent(t, n - 1);
    }
  }

  /** MAIN RESULT: a link that is open has opened or delivered a pong within the last 40 seconds. */
  lemma SilentLinkIsTerminated(t: Trace, n: nat) returns (k: nat)
    requires IsRun(t) && n < |t.states| && t.states[n].isOpen
    ensures k < n && (t.events[k].Opens? || t.events[k].Pong?) && t.states[n].now <= t.states[k].now + 40_000
  {
    InvHolds(t, n);
    if x :| x in t.states[n].timeouts { assert t.states[n].timeouts[x] >= t.states[n].now; }
    k := HeardAtEvent(t, n);
  }

  /** MAIN RESULT: the ping interval runs first 30 seconds after the link opens, and then exactly 30
      seconds after each run. */
  lemma PingsEveryHalfMinute(t: Trace, i: nat)
    requires IsRun(t) && i < |t.events| && (t.events[i].Opens? || t.events[i].PingTick?)
    ensures t.states[i + 1].pingDue == Some(t.states[i].now + 30_000)
    ensures t.events[i].PingTick? ==> t.states[i].pingDue == Some(t.states[i].now)
  {
    InvHolds(t, i);
    StepHolds(t, i);
  }

  /** Only these two events, and the link's closing, change when the interval runs next. */
  lemma PingsStayDue(t: Trace, i: nat)
    requires IsRun(t) && i < |t.events| && !t.events[i].Opens? && !t.events[i].PingTick?
    ensures t.states[i + 1].pingDue == if t.events[i].Closes? then None else t.states[i].pingDue
  {
    StepHolds(t, i);
  }

  /** Event `m` sends a ping. */
  ghost predicate PingsAt(t: Trace, m: nat) {
    m < |t.events| && m < |t.states| && t.events[m].PingTick? && t.states[m].isOpen
  }

  /** No pong has come between event `m` and state `n`. */
  ghost predicate NoPongSince(t: Trace, m: nat, n: nat) {
    forall k :: m < k < n && k < |t.events| ==> !t.events[k].Pong?
  }

  /** What is recorded as unanswered is the last ping, with no pong since. */
  lemma {:induction false} UnansweredPing(t: Trace, n: nat) returns (m: nat)
    requires IsRun(t) && n < |t.states| && t.states[n].unanswered.Some?
    ensures m < n && PingsAt(t, m) && NoPongSince(t, m, n) && t.states[n].unanswered == Some(t.states[m].now)
  {
    StepHolds(t, n - 1);
    if PingsAt(t, n - 1) {
      m := n - 1;
    } else {
      m := UnansweredPing(t, n - 1);
    }
  }

  /** Every ping whose ten seconds are over has been answered within them. */
  ghost predicate AllAnswered(t: Trace, n: nat)
    requires n <= |t.events| < |t.states|
  {
    forall m, x :: 0 <= m < x < n && PingsAt(t, m) && t.states[x].now >= t.states[m].now + 10_000 ==>
      !NoPongSince(t, m, x)
  }

  /** MAIN RESULT: if every ping so far was answered in less than ten seconds, the keepalive has not
      terminated the link. */
  lemma {:induction false} AnsweringLinkIsSpared(t: Trace, n: nat)
    requires IsRun(t) && n <= |t.events| && AllAnswered(t, n)
    ensures !t.states[n].terminated
  {
    if n > 0 {
      AnsweringLinkIsSpared(t, n - 1);
      InvHolds(t, n - 1);
      StepHolds(t, n - 1);
      var s, e := t.states[n - 1], t.events[n - 1];
      if e.Timeout? {
        assert s.unanswered == Some(s.timeouts[e.t] - PONG_TIMEOUT_MS);
        var m := UnansweredPing(t, n - 1);
      }
    }
  }

  lemma {:induction false} StaysUnanswered(t: Trace, m: nat, n: nat)
    requires IsRun(t) && PingsAt(t, m) && m < n < |t.states| && NoPongSince(t, m, n)
    requires forall k :: m < k < n ==> !t.events[k].Closes?
    ensures var s := t.states[n]; s.terminated || (s.unanswered == Some(t.states[m].now) && s.pingDue.Some?)
    decreases n
  {
    hide Inv, Enabled, Next;
    StepHolds(t, n - 1);
    InvHolds(t, n - 1);
    if n - 1 == m {
      PingIsUnanswered(t.states[m]);
    } else {
      StaysUnanswered(t, m, n - 1);
      StepStaysUnanswered(t.states[n - 1], t.events[n - 1], t.states[m].now);
    }
  }

  lemma PingIsUnanswered(s: State)
    requires Enabled(s, PingTick) && s.isOpen
    ensures Next(s, PingTick).unanswered == Some(s.now) && Next(s, PingTick).pingDue.Some?
  {
  }

  lemma StepStaysUnanswered(s: State, e: Event, sent: int)
    requires Inv(s) && Enabled(s, e) && !e.Pong? && !e.Closes?
    requires s.terminated || (s.unanswered == Some(sent) && s.pingDue.Some?)
    ensures var s' := Next(s, e); s'.terminated || (s'.unanswered == Some(sent) && s'.pingDue.Some?)
  {
    assert !s.terminated && s.isOpen ==> s.pongTimeout.value in s.timeouts;
  }

  lemma WatchedInTime(s: State, sent: int)
    requires Inv(s) && s.unanswered == Some(sent) && s.pingDue.Some?
    ensures s.terminated || s.now <= sent + 10_000
  {
    if !s.terminated {
      var x := s.pongTimeout.value;
      assert x in s.timeouts && s.now <= s.timeouts[x];
      assert s.unanswered == Some(s.timeouts[x] - PONG_TIMEOUT_MS);
    }
  }

  /** MAIN RESULT: a ping that no pong answers terminates the link after ten seconds, unless the link
      closes before. */
  lemma UnansweredPingTerminates(t: Trace, m: nat, n: nat)
    requires IsRun(t) && PingsAt(t, m) && m < n < |t.states| && NoPongSince(t, m, n)
    requires forall k :: m < k < n ==> !t.events[k].Closes?
    requires t.states[n].now > t.states[m].now + 10_000
    ensures t.states[n].terminated
  {
    StaysUnanswered(t, m, n);
    InvHolds(t, n);
    if t.states[n].unanswered == Some(t.states[m].now) && t.states[n].pingDue.Some? {
      WatchedInTime(t.states[n], t.states[m].now);
    }
  }
}
