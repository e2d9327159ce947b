/** Any number of daemons competing for one socket path and one PID file. */
module DaemonRace {
  import opened Base

  type Pid = nat

  /** Where a daemon stands in `startDaemon`. `Running` carries the time of its next PID check. */
  datatype Phase =
    | Probing                  // about to ask whether the socket is live
    | FoundStale               // about to unlink the socket path
    | ReadyToListen            // about to listen on it
    | Listening                // about to write the PID file
    | Running(nextCheck: int)
    | CleaningSocket           // in `cleanup`, about to unlink the socket path
    | CleaningPid              // in `cleanup`, about to unlink the PID file
    | Leaving                  // waiting for the agent to stop
    | Gone

  /** `socket` is the daemon whose listening socket the path leads to, `pidFile` the file's content. */
  datatype State = State(
    now: int,
    interval: int,
    socket: Option<Pid>,
    pidFile: Option<Pid>,
    daemons: map<Pid, Phase>)

  datatype Event =
    | Spawn(p: Pid)
    | Probe(p: Pid)
    | UnlinkStale(p: Pid)
    | Listen(p: Pid)
    | WritePid(p: Pid)
    | Check(p: Pid)
    | BeginCleanup(p: Pid)     // the grace timer, a signal, a failed agent start, or a check that
                               // finds no PID file while the agent is still stopping
    | UnlinkSocket(p: Pid)
    | UnlinkPid(p: Pid)
    | Exit(p: Pid)             // the agent has stopped, or the process is killed
    | TimePasses(ms: nat)

  /** The process still has its server socket. */
  predicate Listens(s: State, p: Pid) {
    p in s.daemons && !s.daemons[p].Gone? && !s.daemons[p].Probing? && !s.daemons[p].FoundStale?
    && !s.daemons[p].ReadyToListen?
  }

  predicate In(s: State, p: Pid, phase: Phase) {
    p in s.daemons && s.daemons[p] == phase
  }

  predicate IsRunning(s: State, p: Pid) {
    p in s.daemons && s.daemons[p].Running?
  }

  /** PID checks run on schedule: the clock does not pass one that is due. */
  predicate Enabled(s: State, e: Event) {
    match e
    case Spawn(p) => p !in s.daemons
    case Probe(p) => In(s, p, Probing)
    case UnlinkStale(p) => In(s, p, FoundStale)
    case Listen(p) => In(s, p, ReadyToListen)
    case WritePid(p) => In(s, p, Listening)
    case Check(p) => IsRunning(s, p) && s.daemons[p].nextCheck <= s.now
    case BeginCleanup(p) => IsRunning(s, p) || In(s, p, Leaving)
    case UnlinkSocket(p) => In(s, p, CleaningSocket)
    case UnlinkPid(p) => In(s, p, CleaningPid)
    case Exit(p) => p in s.daemons
    case TimePasses(ms) => forall p :: p in s.daemons && s.daemons[p].Running? ==> s.now + ms <= s.daemons[p].nextCheck
  }

  function Moved(s: State, p: Pid, phase: Phase): State {
    s.(daemons := s.daemons[p := phase])
  }

  function Next(s: State, e: Event): State
    requires Enabled(s, e)
  {
    match e
    case Spawn(p) => Moved(s, p, Probing)
    case Probe(p) =>
      if s.socket.Some? && Listens(s, s.socket.value) then Moved(s, p, Gone) else Moved(s, p, FoundStale)
    case UnlinkStale(p) => Moved(s.(socket := None), p, ReadyToListen)
    case Listen(p) =>
      if s.socket.Some? then Moved(s, p, Gone) else Moved(s.(socket := Some(p)), p, Listening)
    case WritePid(p) => Moved(s.(pidFile := Some(p)), p, Running(s.now + s.interval))
    case Check(p) =>
      if s.pidFile.None? then Moved(s, p, CleaningSocket)
      else if s.pidFile.value != p then Moved(s, p, Leaving)
      else Moved(s, p, Running(s.daemons[p].nextCheck + s.interval))
    case BeginCleanup(p) => Moved(s, p, CleaningSocket)
    case UnlinkSocket(p) => Moved(s.(socket := None), p, CleaningPid)
    case UnlinkPid(p) => Moved(s.(pidFile := None), p, Leaving)
    case Exit(p) => Moved(s, p, Gone)
    case TimePasses(ms) => s.(now := s.now + ms)
  }

  function Start(now: int, interval: int): State {
    State(now, interval, None, None, map[])
  }

  // ---- runs ----

  datatype Trace = Trace(states: seq<State>, events: seq<Event>)

  ghost predicate StepAt(t: Trace, i: nat)
    requires i < |t.events| && |t.states| == |t.events| + 1
  {
    Enabled(t.states[i], t.events[i]) && t.states[i + 1] == Next(t.states[i], t.events[i])
  }

  ghost predicate IsRun(t: Trace) {
    && |t.states| == |t.events| + 1
    && t.states[0] == Start(t.states[0].now, t.states[0].interval) && 0 < t.states[0].interval
    && forall i :: 0 <= i < |t.events| ==> StepAt(t, i)
  }

  /** Step `w` is the last write of the PID file before state `n`. */
  ghost predicate LastWrite(t: Trace, n: nat, w: nat) {
    && w < n <= |t.events| && t.events[w].WritePid?
    && forall i :: w < i < n ==> !t.events[i].WritePid?
  }

  // ---- what every run keeps ----

  /** The PID file names nobody but the last writer, and everyone else's next check comes within one
      interval of that write. */
  ghost predicate WriterOk(t: Trace, n: nat, w: nat)
    requires n < |t.states|
  {
    && w < |t.events| && t.events[w].WritePid? && w < |t.states|
    && (t.states[n].pidFile.Some? ==> t.states[n].pidFile.value == t.events[w].p)
    && (forall p :: IsRunning(t.states[n], p) && p != t.events[w].p ==>
          t.states[n].daemons[p].nextCheck <= t.states[w].now + t.states[0].interval)
  }

  ghost predicate ChecksOk(s: State) {
    forall p :: IsRunning(s, p) ==> s.now <= s.daemons[p].nextCheck <= s.now + s.interval
  }

  lemma {:induction false} CheckTimes(t: Trace, n: nat)
    requires IsRun(t) && n < |t.states|
    ensures ChecksOk(t.states[n]) && t.states[n].interval == t.states[0].interval
  {
    if n > 0 {
      CheckTimes(t, n - 1);
      assert StepAt(t, n - 1);
    }
  }

  lemma {:induction false} NobodyRunsUnwritten(t: Trace, n: nat)
    requires IsRun(t) && n < |t.states| && forall i :: 0 <= i < n ==> !t.events[i].WritePid?
    ensures t.states[n].pidFile.None? && forall p :: !IsRunning(t.states[n], p)
  {
    if n > 0 {
      NobodyRunsUnwritten(t, n - 1);
      assert StepAt(t, n - 1);
      StaysUnwritten(t.states[n - 1], t.events[n - 1]);
    }
  }

  lemma StaysUnwritten(s: State, e: Event)
    requires Enabled(s, e) && !e.WritePid? && s.pidFile.None? && forall p :: !IsRunning(s, p)
    ensures Next(s, e).pidFile.None? && forall p :: !IsRunning(Next(s, e), p)
  {
    assert e.Check? ==> !IsRunning(s, e.p);
    forall p ensures !IsRunning(Next(s, e), p) {
      assert !IsRunning(s, p);
    }
  }

  lemma {:induction false} WriterHolds(t: Trace, n: nat, w: nat)
    requires IsRun(t) && n < |t.states| && LastWrite(t, n, w)
    ensures WriterOk(t, n, w)
    decreases n
  {
    assert StepAt(t, n - 1);
    CheckTimes(t, n - 1);
    if w < n - 1 {
      assert LastWrite(t, n - 1, w);
      WriterHolds(t, n - 1, w);
    }
  }

  /** Some write came last, unless there was none. */
  lemma {:induction false} FindLastWrite(t: Trace, n: nat) returns (w: Option<nat>)
    requires n <= |t.events|
    ensures w.Some? ==> LastWrite(t, n, w.value)
    ensures w.None? ==> forall i :: 0 <= i < n ==> !t.events[i].WritePid?
  {
    if n == 0 {
      w := None;
    } else if t.events[n - 1].WritePid? {
      w := Some(n - 1);
    } else {
      w := FindLastWrite(t, n - 1);
    }
  }

  /** Step `c` is a PID check after which the daemon goes on. */
  ghost predicate PassesCheck(t: Trace, c: nat, p: Pid) {
    c < |t.events| < |t.states| && t.events[c] == Check(p) && IsRunning(t.states[c + 1], p)
  }

  /** MAIN RESULT: only the daemon that wrote the PID file last passes a check. */
  lemma PassedCheckMeansLastWriter(t: Trace, c: nat, p: Pid) returns (w: nat)
    requires IsRun(t) && PassesCheck(t, c, p)
    ensures LastWrite(t, c, w) && t.events[w] == WritePid(p)
  {
    assert StepAt(t, c);
    var found := FindLastWrite(t, c);
    if found.None? {
      NobodyRunsUnwritten(t, c);
      assert false;
    } else {
      w := found.value;
      WriterHolds(t, c, w);
    }
  }

  /** Two daemons that both pass a check after the same last write are one. */
  lemma RoundLeavesOne(t: Trace, w: nat, c: nat, d: nat, p: Pid, q: Pid)
    requires IsRun(t) && PassesCheck(t, c, p) && PassesCheck(t, d, q)
    requires w < c && w < d && LastWrite(t, |t.events|, w)
    ensures p == q
  {
    var x := PassedCheckMeansLastWriter(t, c, p);
    var y := PassedCheckMeansLastWriter(t, d, q);
    assert x == w && y == w;
  }

  /** MAIN RESULT (convergence): once more than a check interval has passed since the last write of
      the PID file, at most the last writer is still running. */
  lemma OneDaemonAfterInterval(t: Trace, n: nat, w: nat, p: Pid)
    requires IsRun(t) && n < |t.states| && LastWrite(t, n, w)
    requires t.states[n].now > t.states[w].now + t.states[0].interval
    requires IsRunning(t.states[n], p)
    ensures p == t.events[w].p
  {
    WriterHolds(t, n, w);
    CheckTimes(t, n);
  }

  // ---- what a check, a probe and a clean-up find and do ----

  /** Nothing has unlinked the PID file since step `w`. */
  ghost predicate KeptSince(t: Trace, n: nat, w: nat) {
    forall i :: w < i < n && i < |t.events| ==> !t.events[i].UnlinkPid?
  }

  /** The PID file names the last writer, unless a clean-up has unlinked it since. */
  lemma {:induction false} PidFileIs(t: Trace, n: nat, w: nat)
    requires IsRun(t) && n < |t.states| && LastWrite(t, n, w)
    ensures t.states[n].pidFile == if KeptSince(t, n, w) then Some(t.events[w].p) else None
    decreases n
  {
    assert StepAt(t, n - 1);
    if w < n - 1 {
      assert LastWrite(t, n - 1, w);
      PidFileIs(t, n - 1, w);
      assert KeptSince(t, n, w) <==> KeptSince(t, n - 1, w) && !t.events[n - 1].UnlinkPid?;
    }
  }

  /** MAIN RESULT (PID check): a check is passed exactly by the daemon that wrote the PID file last, as
      long as no clean-up has unlinked the file since; a daemon that finds no file goes on to clean up,
      and one that finds another's leaves both files alone; no check changes either file. */
  lemma CheckIff(t: Trace, c: nat, w: nat, p: Pid)
    requires IsRun(t) && c < |t.events| && t.events[c] == Check(p) && LastWrite(t, c, w)
    ensures IsRunning(t.states[c + 1], p) <==> KeptSince(t, c, w) && t.events[w].p == p
    ensures In(t.states[c + 1], p, CleaningSocket) <==> !KeptSince(t, c, w)
    ensures In(t.states[c + 1], p, Leaving) <==> KeptSince(t, c, w) && t.events[w].p != p
    ensures t.states[c + 1].socket == t.states[c].socket && t.states[c + 1].pidFile == t.states[c].pidFile
  {
    assert StepAt(t, c);
    PidFileIs(t, c, w);
  }

  /** A daemon that has passed its check is due again exactly one interval later. */
  lemma PassedCheckComesAgain(t: Trace, c: nat, p: Pid)
    requires IsRun(t) && PassesCheck(t, c, p)
    ensures t.states[c + 1].daemons[p].nextCheck == t.states[c].now + t.states[0].interval
  {
    assert StepAt(t, c);
    CheckTimes(t, c);
  }

  /** A socket path is live if the process it leads to has listened and is not gone. */
  predicate LeadsToListener(s: State) {
    && s.socket.Some? && s.socket.value in s.daemons
    && s.daemons[s.socket.value] !in {Probing, FoundStale, ReadyToListen, Gone}
  }

  /** A daemon that starts while the socket path is live exits and touches nothing; any other goes on,
      and comes to listen exactly if the path is free by then. */
  lemma ProbeAndListenIff(t: Trace, i: nat, p: Pid)
    requires IsRun(t) && i < |t.events| && t.events[i] in {Probe(p), Listen(p)}
    ensures p in t.states[i + 1].daemons
    ensures t.events[i].Probe? ==>
      t.states[i + 1].daemons[p] == if LeadsToListener(t.states[i]) then Gone else FoundStale
    ensures t.events[i].Listen? ==>
      t.states[i + 1].daemons[p] == if t.states[i].socket.Some? then Gone else Listening
    ensures t.states[i + 1].pidFile == t.states[i].pidFile
    ensures t.states[i + 1].socket ==
      if t.events[i].Listen? && t.states[i].socket.None? then Some(p) else t.states[i].socket
  {
    assert StepAt(t, i);
  }

  /** No step changes where another daemon stands. */
  lemma OthersUntouched(t: Trace, i: nat, q: Pid)
    requires IsRun(t) && i < |t.events| && q in t.states[i].daemons
    requires !t.events[i].TimePasses? ==> t.events[i].p != q
    ensures q in t.states[i + 1].daemons && t.states[i + 1].daemons[q] == t.states[i].daemons[q]
  {
    assert StepAt(t, i);
  }

  /** A daemon that shuts down unlinks the socket path, then the PID file, and is gone. */
  lemma CleanupRemovesBoth(s: State, p: Pid)
    requires IsRunning(s, p)
    ensures Enabled(s, BeginCleanup(p))
    ensures var s1 := Next(s, BeginCleanup(p));
      s1.socket == s.socket && s1.pidFile == s.pidFile && Enabled(s1, UnlinkSocket(p))
    ensures var s2 := Next(Next(s, BeginCleanup(p)), UnlinkSocket(p));
      s2.socket == None && s2.pidFile == s.pidFile && Enabled(s2, UnlinkPid(p))
    ensures var s3 := Next(Next(Next(s, BeginCleanup(p)), UnlinkSocket(p)), UnlinkPid(p));
      s3.socket == None && s3.pidFile == None && Enabled(s3, Exit(p)) && In(Next(s3, Exit(p)), p, Gone)
  {
  }

  // ---- exclusion is not immediate ----

  function Race(): Trace {
    var d0: map<Pid, Phase> := map[];
    var d1 := d0[1 := Probing];
    var d2 := d1[2 := Probing];
    var d3 := d2[1 := FoundStale];
    var d4 := d3[2 := FoundStale];
    var d5 := d4[1 := ReadyToListen];
    var d6 := d5[1 := Listening];
    var d7 := d6[1 := Running(30_000)];
    var d8 := d7[2 := ReadyToListen];
    var d9 := d8[2 := Listening];
    var d10 := d9[2 := Running(30_000)];
    Trace([State(0, 30_000, None, None, d0), State(0, 30_000, None, None, d1), State(0, 30_000, None, None, d2),
           State(0, 30_000, None, None, d3), State(0, 30_000, None, None, d4), State(0, 30_000, None, None, d5),
           State(0, 30_000, Some(1), None, d6), State(0, 30_000, Some(1), Some(1), d7),
           State(0, 30_000, None, Some(1), d8), State(0, 30_000, Some(2), Some(1), d9),
           State(0, 30_000, Some(2), Some(2), d10)],
          [Spawn(1), Spawn(2), Probe(1), Probe(2), UnlinkStale(1), Listen(1), WritePid(1),
           UnlinkStale(2), Listen(2), WritePid(2)])
  }

  lemma RaceBegins()
    ensures StepAt(Race(), 0) && StepAt(Race(), 1) && StepAt(Race(), 2) && StepAt(Race(), 3)
  {
  }

  lemma FirstDaemonRuns()
    ensures StepAt(Race(), 4) && StepAt(Race(), 5) && StepAt(Race(), 6)
  {
  }

  lemma SecondDaemonRuns()
    ensures StepAt(Race(), 7) && StepAt(Race(), 8) && StepAt(Race(), 9)
  {
  }

  /** Two daemons that both find the socket stale can both come to run: the second unlinks the path
      the first is listening on. */
  lemma TwoDaemonsCanRun() returns (t: Trace, n: nat, p: Pid, q: Pid)
    ensures IsRun(t) && n < |t.states| && p != q
    ensures IsRunning(t.states[n], p) && IsRunning(t.states[n], q)
  {
    t, n, p, q := Race(), 10, 1, 2;
    RaceBegins();
    FirstDaemonRuns();
    SecondDaemonRuns();
    hide StepAt;
    forall i | 0 <= i < 10 ensures StepAt(Race(), i) {
      assert i == 0 || i == 1 || i == 2 || i == 3 || i == 4 || i == 5 || i == 6 || i == 7 || i == 8 || i == 9;
    }
  }
}
