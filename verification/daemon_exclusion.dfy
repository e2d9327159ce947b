/** When at most one daemon runs at a time. */
module DaemonExclusion {
  import opened Base
  import opened DaemonRace

  /** The daemon listens and has not begun to shut down. */
  predicate Live(s: State, p: Pid) {
    p in s.daemons && (s.daemons[p].Listening? || s.daemons[p].Running?)
  }

  /** The step unlinks no socket path that leads to another live daemon. */
  predicate Harmless(s: State, e: Event) {
    e.UnlinkStale? || e.UnlinkSocket? ==>
      s.socket.Some? && s.socket.value != e.p ==> !Live(s, s.socket.value)
  }

  ghost predicate AllHarmless(t: Trace, n: nat)
    requires n <= |t.events| < |t.states|
  {
    forall i :: 0 <= i < n ==> Harmless(t.states[i], t.events[i])
  }

  /** The socket path leads to every live daemon, so there is at most one. */
  ghost predicate Owned(s: State) {
    forall p: Pid :: Live(s, p) ==> s.socket == Some(p)
  }

  ghost predicate AtMostOneRuns(s: State) {
    forall p, q :: IsRunning(s, p) && IsRunning(s, q) ==> p == q
  }

  // ---- harmless unlinks keep daemons apart ----

  lemma StepKeepsOwned(s: State, e: Event)
    requires Owned(s) && Enabled(s, e) && Harmless(s, e)
    ensures Owned(Next(s, e))
  {
    var s' := Next(s, e);
    forall p: Pid | Live(s', p) ensures s'.socket == Some(p) {
      assert Live(s, p) || e == Listen(p);
    }
  }

  /** `t` goes on from state `s`. */
  ghost predicate Follows(t: Trace, s: State) {
    && |t.states| == |t.events| + 1 && t.states[0] == s
    && forall i :: 0 <= i < |t.events| ==> StepAt(t, i)
  }

  lemma {:induction false} StaysOwned(t: Trace, s: State, n: nat)
    requires Follows(t, s) && Owned(s) && n <= |t.events| && AllHarmless(t, n)
    ensures Owned(t.states[n])
  {
    if n > 0 {
      StaysOwned(t, s, n - 1);
      assert StepAt(t, n - 1) && Harmless(t.states[n - 1], t.events[n - 1]);
      StepKeepsOwned(t.states[n - 1], t.events[n - 1]);
    }
  }

  /** If every unlink of a run is harmless, at most one daemon runs at any time of the run. */
  lemma HarmlessRunsExclude(t: Trace, n: nat)
    requires IsRun(t) && n <= |t.events| && AllHarmless(t, n)
    ensures Owned(t.states[n]) && AtMostOneRuns(t.states[n])
  {
    StaysOwned(t, t.states[0], n);
    assert forall p :: IsRunning(t.states[n], p) ==> Live(t.states[n], p);
  }

  /** However the run goes on from `s`, if all later unlinks are harmless, at most one daemon runs. */
  ghost predicate Excludes(s: State) {
    forall t :: Follows(t, s) && AllHarmless(t, |t.events|) ==> AtMostOneRuns(t.states[|t.events|])
  }

  lemma OwnedExcludes(s: State)
    requires Owned(s)
    ensures Excludes(s)
  {
    forall t | Follows(t, s) && AllHarmless(t, |t.events|) ensures AtMostOneRuns(t.states[|t.events|]) {
      StaysOwned(t, s, |t.events|);
      assert forall p :: IsRunning(t.states[|t.events|], p) ==> Live(t.states[|t.events|], p);
    }
  }

  // ---- a harmful unlink lets a second daemon run ----

  lemma TwoRun(s: State, p: Pid, q: Pid)
    requires IsRunning(s, p) && IsRunning(s, q) && p != q
    ensures !Excludes(s)
  {
    var t := Trace([s], []);
    assert Follows(t, s) && AllHarmless(t, |t.events|) && !AtMostOneRuns(t.states[|t.events|]);
  }

  /** What can go wrong after one harmless step can go wrong before it. */
  lemma StepBefore(s: State, e: Event)
    requires Enabled(s, e) && Harmless(s, e) && !Excludes(Next(s, e))
    ensures !Excludes(s)
  {
    var t :| Follows(t, Next(s, e)) && AllHarmless(t, |t.events|) && !AtMostOneRuns(t.states[|t.events|]);
    var t' := Trace([s] + t.states, [e] + t.events);
    forall i | 0 <= i < |t'.events| ensures StepAt(t', i) && Harmless(t'.states[i], t'.events[i]) {
      if i > 0 { assert StepAt(t, i - 1) && Harmless(t.states[i - 1], t.events[i - 1]); }
    }
    assert Follows(t', s) && t'.states[|t'.events|] == t.states[|t.events|];
  }

  /** A daemon about to listen on a free path can come to run beside the live daemon `q`. */
  lemma ListenerJoins(s: State, q: Pid, r: Pid)
    requires Live(s, q) && In(s, r, ReadyToListen) && s.socket == None
    ensures !Excludes(s)
  {
    var s1 := Next(s, Listen(r));
    var s2 := Next(s1, WritePid(r));
    if s.daemons[q].Running? {
      TwoRun(s2, q, r);
    } else {
      TwoRun(Next(s2, WritePid(q)), q, r);
      StepBefore(s2, WritePid(q));
    }
    StepBefore(s1, WritePid(r));
    StepBefore(s, Listen(r));
  }

  /** So can a daemon that is only started then. */
  lemma NewcomerJoins(s: State, q: Pid, r: Pid)
    requires Live(s, q) && r !in s.daemons && s.socket == None
    ensures !Excludes(s)
  {
    var s1 := Next(s, Spawn(r));
    var s2 := Next(s1, Probe(r));
    var s3 := Next(s2, UnlinkStale(r));
    ListenerJoins(s3, q, r);
    StepBefore(s2, UnlinkStale(r));
    StepBefore(s1, Probe(r));
    StepBefore(s, Spawn(r));
  }

  lemma {:induction false} FreshPid(pids: set<Pid>) returns (r: Pid)
    ensures forall p :: p in pids ==> p < r
  {
    if p: Pid :| p in pids {
      r := FreshPid(pids - {p});
      r := if p < r then r else p + 1;
      assert pids == (pids - {p}) + {p};
    } else {
      r := 0;
    }
  }

  lemma HarmfulStep(s: State, e: Event)
    requires Enabled(s, e) && !Harmless(s, e)
    ensures !Excludes(Next(s, e))
  {
    var q, s' := s.socket.value, Next(s, e);
    if e.UnlinkStale? {
      ListenerJoins(s', q, e.p);
    } else {
      var r := FreshPid(s'.daemons.Keys);
      NewcomerJoins(s', q, r);
    }
  }

  /** MAIN RESULT (exclusion): up to the first unlink that removes the path of another live daemon,
      whether a daemon that found the path stale or one cleaning up does it, at most one daemon can
      run; after it, two can. */
  lemma ExclusionIff(t: Trace, n: nat)
    requires IsRun(t) && n < |t.events| && AllHarmless(t, n)
    ensures Excludes(t.states[n])
    ensures Excludes(t.states[n + 1]) <==> Harmless(t.states[n], t.events[n])
  {
    HarmlessRunsExclude(t, n);
    OwnedExcludes(t.states[n]);
    assert StepAt(t, n);
    if Harmless(t.states[n], t.events[n]) {
      StepKeepsOwned(t.states[n], t.events[n]);
      OwnedExcludes(t.states[n + 1]);
    } else {
      HarmfulStep(t.states[n], t.events[n]);
    }
  }

  lemma {:induction false} FirstHarmful(t: Trace, n: nat) returns (i: nat)
    requires n <= |t.events| < |t.states| && !AllHarmless(t, n)
    ensures i < n && AllHarmless(t, i) && !Harmless(t.states[i], t.events[i])
  {
    if AllHarmless(t, n - 1) {
      i := n - 1;
    } else {
      i := FirstHarmful(t, n - 1);
    }
  }

  /** MAIN RESULT: a run keeps daemons apart in every state, and can be relied on to do so from there,
      exactly if none of its unlinks removes the path of another live daemon. */
  lemma RunExcludesIff(t: Trace)
    requires IsRun(t)
    ensures (forall n :: 0 <= n <= |t.events| ==> Excludes(t.states[n])) <==> AllHarmless(t, |t.events|)
  {
    if AllHarmless(t, |t.events|) {
      forall n | 0 <= n <= |t.events| ensures Excludes(t.states[n]) {
        HarmlessRunsExclude(t, n);
        OwnedExcludes(t.states[n]);
      }
    } else {
      var i := FirstHarmful(t, |t.events|);
      ExclusionIff(t, i);
      assert !Excludes(t.states[i + 1]);
    }
  }
}
