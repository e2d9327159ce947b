/** What every run of the tunnel does with the registry, the tool lists and the liveness check. */
module TunnelRegistry {
  import opened Wire
  import opened Tunnel
  import opened TunnelSafety
  import R = Registries
  import C = Calls
  import Log = RegistryLog

  // ---- the registry follows the log of connection events ----

  /** The connection event a step raises at the relay, if any. */
  function Raised(s: State, e: Event): seq<Log.RegEvent> {
    match e
    case Connect(link, userId, name, _, _, _) => [Log.Connected(link, userId, name, s.now)]
    case RelayReceives(link) =>
      if link in s.links && s.links[link].toRelay != [] then [Log.Received(link, s.links[link].toRelay[0])] else []
    case PingArrives(link) => [Log.Pinged(link, s.now)]
    case RelayCloses(link) => [Log.Closed(link)]
    case _ => []
  }

  /** The connection events raised before state `n` of the run. */
  function LogOf(t: Trace, n: nat): seq<Log.RegEvent>
    requires n <= |t.events| <= |t.states|
  {
    if n == 0 then [] else LogOf(t, n - 1) + Raised(t.states[n - 1], t.events[n - 1])
  }

  lemma StepRaises(s: State, e: Event)
    requires LinksOk(s) && Enabled(s, e)
    ensures Raised(s, e) == [] ==> Next(s, e).reg == s.reg
    ensures Raised(s, e) != [] ==>
      (Raised(s, e)[0].Connected? <==> Raised(s, e)[0].link !in s.reg.conns)
      && Next(s, e).reg == Log.Apply(s.reg, Raised(s, e)[0])
    ensures |Raised(s, e)| <= 1
  {
  }

  lemma StepExtendsLog(s: State, e: Event, log: seq<Log.RegEvent>)
    requires LinksOk(s) && Enabled(s, e)
    requires Log.WellFormed(log) && s.reg == Log.Replay(log)
    ensures Log.WellFormed(log + Raised(s, e)) && Next(s, e).reg == Log.Replay(log + Raised(s, e))
  {
    StepRaises(s, e);
    if Raised(s, e) == [] {
      assert log + [] == log;
    } else {
      assert Raised(s, e) == [Raised(s, e)[0]];
      Log.LogSnoc(log, Raised(s, e)[0]);
    }
  }

  lemma LinksOkHolds(t: Trace, n: nat)
    requires IsRun(t) && n < |t.states|
    ensures LinksOk(t.states[n])
  {
    InvHolds(t, n);
    hide IsRun, LinksOk;
  }

  lemma EmptyLog()
    ensures Log.WellFormed([]) && Log.Replay([]) == R.EMPTY
  {
  }

  /** In every run the registry is the replay of the connection events so far, whatever calls,
      restarts and timeouts happen in between. */
  lemma {:induction false} RegistryFollowsLog(t: Trace, n: nat)
    requires IsRun(t) && n < |t.states|
    ensures Log.WellFormed(LogOf(t, n)) && t.states[n].reg == Log.Replay(LogOf(t, n))
  {
    hide Log.WellFormed, Log.Replay, Raised, Next, Enabled, LinksOk;
    if n == 0 {
      EmptyLog();
      assert LogOf(t, 0) == [];
    } else {
      var m := n - 1;
      RegistryFollowsLog(t, m);
      LinksOkHolds(t, m);
      assert StepAt(t, m);
      StepExtendsLog(t.states[m], t.events[m], LogOf(t, m));
    }
  }

  /** MAIN RESULT: at any time of any run, a user's list is the connections that were opened, not
      closed and not superseded so far, in connect order. */
  lemma UserListInRun(t: Trace, n: nat, userId: string)
    requires IsRun(t) && n < |t.states|
    ensures R.UserList(t.states[n].reg, userId) == Log.Survivors(LogOf(t, n), userId)
  {
    RegistryFollowsLog(t, n);
    Log.RegistryRefinesLog(LogOf(t, n), userId);
  }

  // ---- tool lists agree once the link is drained ----

  lemma {:induction false} AppliedDrained(queue: seq<WsMessage>, tools: seq<ToolDef>)
    requires Drained(queue)
    ensures Applied(queue, tools) == tools
  {
    if queue != [] {
      assert queue[0] in queue;
      AppliedDrained(queue[1..], tools);
    }
  }

  /** MAIN RESULT: while both ends are up, what is in flight turns the relay's list into the agent's;
      so with no list in flight the two agree, however restarts overlapped. */
  lemma ToolListsAgree(t: Trace, n: nat, l: LinkId)
    requires IsRun(t) && n < |t.states| && l in t.states[n].links
    requires var k := t.states[n].links[l]; k.isOpen && k.agentEnd && !k.relayClosed
    ensures l in t.states[n].reg.conns
    ensures var k := t.states[n].links[l]; var held := t.states[n].reg.conns[l].tools;
      Applied(k.toRelay, held) == k.agent.tools && (Drained(k.toRelay) ==> held == k.agent.tools)
  {
    InvHolds(t, n);
    if Drained(t.states[n].links[l].toRelay) {
      AppliedDrained(t.states[n].links[l].toRelay, t.states[n].reg.conns[l].tools);
    }
  }

  // ---- the stale check ----

  /** MAIN RESULT: a run of the check terminates exactly the registered connections last heard from more
      than 90 seconds ago, and the next run comes a minute later. */
  lemma SweepIff(t: Trace, i: nat, l: LinkId)
    requires IsRun(t) && i < |t.events| && t.events[i].SweepRuns? && l in t.states[i].links
    ensures l in t.states[i].reg.conns && l in t.states[i + 1].links
    ensures t.states[i + 1].links[l].terminated <==>
      || t.states[i].links[l].terminated
      || (R.Registered(t.states[i].reg, l) && t.states[i].now - t.states[i].reg.conns[l].lastPingAt > 90_000)
    ensures t.states[i + 1].nextSweep == t.states[i].now + 60_000
  {
    assert StepAt(t, i);
    InvHolds(t, i);
  }

  /** A terminated connection sends nothing any more. */
  lemma {:induction false} TerminatedIsCut(t: Trace, n: nat, l: LinkId)
    requires IsRun(t) && n < |t.states| && l in t.states[n].links && t.states[n].links[l].terminated
    ensures !t.states[n].links[l].relayEnd
  {
    if n > 0 {
      assert StepAt(t, n - 1);
      if l in t.states[n - 1].links {
        if t.states[n - 1].links[l].terminated { TerminatedIsCut(t, n - 1, l); }
        StepKeepsCut(t.states[n - 1], t.events[n - 1], l);
      }
    }
  }

  lemma StepKeepsCut(s: State, e: Event, l: LinkId)
    requires Enabled(s, e) && l in s.links && (s.links[l].terminated ==> !s.links[l].relayEnd)
    ensures l in Next(s, e).links && (Next(s, e).links[l].terminated ==> !Next(s, e).links[l].relayEnd)
  {
    hide R.FindNamed, R.UserList, R.StaleLinks, R.AddConnection, R.RemoveConnection;
  }

  /** MAIN RESULT: a connection that has been silent for 150 seconds is no longer both registered
      and untouched: the check has terminated it, or it has closed or been superseded. */
  lemma SilentIsTerminated(t: Trace, n: nat, l: LinkId)
    requires IsRun(t) && n < |t.states| && l in t.states[n].links && l in t.states[n].reg.conns
    requires R.Registered(t.states[n].reg, l) && !t.states[n].links[l].terminated
    ensures t.states[n].now <= t.states[n].reg.conns[l].lastPingAt + 150_000
  {
    InvHolds(t, n);
    assert SparedOk(t.states[n], l);
  }

  /** At no time before `n` has the connection gone unheard for more than 90 seconds. */
  ghost predicate HeardFrom(t: Trace, n: nat, l: LinkId) {
    forall m :: 0 <= m < n < |t.states| && l in t.states[m].reg.conns ==>
      t.states[m].now <= t.states[m].reg.conns[l].lastPingAt + 90_000
  }

  /** MAIN RESULT: a connection heard from at least every 90 seconds is never terminated. */
  lemma {:induction false} PingingIsSpared(t: Trace, n: nat, l: LinkId)
    requires IsRun(t) && n < |t.states| && HeardFrom(t, n, l) && l in t.states[n].links
    ensures !t.states[n].links[l].terminated
  {
    if n > 0 {
      assert StepAt(t, n - 1);
      if l in t.states[n - 1].links {
        PingingIsSpared(t, n - 1, l);
        InvHolds(t, n - 1);
        SparesWhoPings(t.states[n - 1], t.events[n - 1], l);
      }
    }
  }

  lemma SparesWhoPings(s: State, e: Event, l: LinkId)
    requires Inv(s) && Enabled(s, e) && l in s.links && !s.links[l].terminated
    requires l in s.reg.conns && s.now <= s.reg.conns[l].lastPingAt + 90_000
    ensures l in Next(s, e).links && !Next(s, e).links[l].terminated
  {
    hide R.Ok, C.Ok, LinksOk, SweepOk;
    if e.SweepRuns? {
      assert l !in R.StaleLinks(s.reg, s.now);
    } else {
      hide R.StaleLinks;
    }
  }
}
