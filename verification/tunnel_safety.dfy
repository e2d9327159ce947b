/** What holds in every reachable state of the tunnel. */
module TunnelSafety {
  import opened Base
  import opened Wire
  import opened Tunnel
  import R = Registries
  import C = Calls
  import A = AgentTools

  // ---- the invariant ----

  /** The tool list the relay will hold once it has received everything in the queue. */
  function Applied(queue: seq<WsMessage>, tools: seq<ToolDef>): seq<ToolDef> {
    if queue == [] then tools
    else Applied(queue[1..], if queue[0].ToolsMsg? then queue[0].tools else tools)
  }

  predicate Drained(queue: seq<WsMessage>) {
    forall m :: m in queue ==> !m.ToolsMsg?
  }

  ghost predicate RestartOk(a: Agent, run: nat)
    requires run in a.restarts
  {
    && run < a.nextRun && run != a.toolsBy
    && (run == a.serversBy ==> a.restarts[run] == Collecting(a.servers))
    && (a.restarts[run].Collecting? ==> A.NamesDistinct(a.restarts[run].servers))
    && (a.restarts[run].Collecting? ==> forall s :: s in a.restarts[run].servers ==> s.name in a.entries)
  }

  ghost predicate AgentOk(a: Agent) {
    && Distinct(a.entries)
    && A.NamesDistinct(a.servers)
    && (forall s :: s in a.servers ==> s.name in a.entries)
    && a.serversBy < a.nextRun && a.toolsBy < a.nextRun
    && (a.toolsBy == a.serversBy ==> A.CollectedFrom(a.tools, a.servers))
    && (forall run :: run in a.restarts ==> RestartOk(a, run))
  }

  /** The relay's copy of the tool list is the agent's, up to what is still in flight. */
  ghost predicate SyncOk(k: Link, held: seq<ToolDef>) {
    && (k.isOpen && k.agentEnd && !k.relayClosed ==> Applied(k.toRelay, held) == k.agent.tools)
    && (!k.isOpen ==> k.toRelay == [] && k.agent.jobs == map[] && k.agent.restarts == map[])
  }

  ghost predicate LinksOk(s: State) {
    && (forall l :: l in s.links <==> l in s.reg.conns)
    && (forall l :: l in s.links ==> AgentOk(s.links[l].agent))
    && (forall l :: l in s.links ==> SyncOk(s.links[l], s.reg.conns[l].tools))
  }

  /** No timer is overdue, and none lies further ahead than its period. */
  ghost predicate TimersOk(s: State) {
    && s.now <= s.nextSweep <= s.now + R.STALE_CHECK_INTERVAL_MS
    && forall t :: t in s.book.timers ==> s.now <= s.book.timers[t].due <= s.now + C.REQUEST_TIMEOUT_MS
  }

  /** A closed connection is not registered, and a registered one that the sweep has spared will be
      looked at again in time. */
  ghost predicate SparedOk(s: State, l: LinkId)
    requires l in s.links && l in s.reg.conns
  {
    && s.reg.conns[l].lastPingAt <= s.now
    && (s.links[l].relayClosed ==> !R.Registered(s.reg, l))
    && (R.Registered(s.reg, l) && !s.links[l].terminated ==> s.nextSweep <= s.reg.conns[l].lastPingAt + 150_000)
  }

  ghost predicate SweepOk(s: State) {
    forall l :: l in s.links && l in s.reg.conns ==> SparedOk(s, l)
  }

  ghost predicate Inv(s: State) {
    R.Ok(s.reg) && C.Ok(s.book) && LinksOk(s) && TimersOk(s) && SweepOk(s)
  }

  // ---- the agent keeps its variables in step ----

  lemma {:induction false} AppliedSnoc(queue: seq<WsMessage>, msg: WsMessage, tools: seq<ToolDef>)
    ensures Applied(queue + [msg], tools) == if msg.ToolsMsg? then msg.tools else Applied(queue, tools)
  {
    if queue == [] {
      assert queue + [msg] == [msg];
    } else {
      assert (queue + [msg])[1..] == queue[1..] + [msg];
      AppliedSnoc(queue[1..], msg, if queue[0].ToolsMsg? then queue[0].tools else tools);
    }
  }

  lemma NewAgentOk(entries: seq<string>, started: seq<bool>, listings: seq<A.Listing>)
    requires |entries| == |started| && Distinct(entries)
    requires |listings| == |A.Spawned(entries, started)|
    ensures AgentOk(NewAgent(entries, started, listings))
  {
    A.SpawnedNames(entries, started);
  }

  lemma TakeKeepsAgentOk(k: Link)
    requires AgentOk(k.agent) && k.toAgent != []
    ensures AgentOk(AgentTakes(k).agent)
  {
    var a, a' := k.agent, AgentTakes(k).agent;
    forall j | j in a'.restarts ensures RestartOk(a', j) {
      if j in a.restarts { assert RestartOk(a, j); }
    }
  }

  lemma ClosingKeepsAgentOk(k: Link, run: nat)
    requires AgentOk(k.agent) && run in k.agent.restarts && k.agent.restarts[run].Closing?
    ensures AgentOk(FinishClosing(k, run).agent)
  {
    var a, a' := k.agent, FinishClosing(k, run).agent;
    assert RestartOk(a, run);
    forall j | j in a'.restarts ensures RestartOk(a', j) {
      assert j in a.restarts && RestartOk(a, j);
    }
  }

  lemma SpawningKeepsAgentOk(k: Link, run: nat, started: seq<bool>)
    requires AgentOk(k.agent) && run in k.agent.restarts && |started| == |k.agent.entries|
    ensures AgentOk(FinishSpawning(k, run, started).agent)
  {
    var a, a' := k.agent, FinishSpawning(k, run, started).agent;
    A.SpawnedNames(a.entries, started);
    assert RestartOk(a, run);
    forall j | j in a'.restarts ensures RestartOk(a', j) {
      assert j in a.restarts && RestartOk(a, j);
    }
  }

  lemma CollectingKeepsAgentOk(k: Link, run: nat, listings: seq<A.Listing>)
    requires AgentOk(k.agent) && run in k.agent.restarts && k.agent.restarts[run].Collecting?
    requires |listings| == |k.agent.restarts[run].servers|
    ensures AgentOk(FinishCollecting(k, run, listings).agent)
  {
    var a, a' := k.agent, FinishCollecting(k, run, listings).agent;
    assert RestartOk(a, run);
    forall j | j in a'.restarts ensures RestartOk(a', j) {
      assert j in a.restarts && RestartOk(a, j);
    }
  }

  lemma FinishKeepsAgentOk(k: Link, id: ReqId, outcome: C.Outcome)
    requires AgentOk(k.agent)
    ensures AgentOk(FinishCall(k, id, outcome).agent)
  {
    var a, a' := k.agent, FinishCall(k, id, outcome).agent;
    forall j | j in a'.restarts ensures RestartOk(a', j) {
      assert RestartOk(a, j);
    }
  }

  lemma AgentStepKeepsAgentOk(s: State, e: Event)
    requires Enabled(s, e) && AgentStep(e) && AgentOk(s.links[e.link].agent)
    ensures AgentOk(AfterAgentStep(s, e).agent)
  {
    hide AgentOk;
    var k := s.links[e.link];
    match e
    case AgentReceives(_) => TakeKeepsAgentOk(k);
    case CallFinishes(_, id, outcome) => FinishKeepsAgentOk(k, id, outcome);
    case ServersClosed(_, run) => ClosingKeepsAgentOk(k, run);
    case ServersSpawned(_, run, started) => SpawningKeepsAgentOk(k, run, started);
    case ToolsCollected(_, run, listings) => CollectingKeepsAgentOk(k, run, listings);
    case _ =>
  }

  lemma AgentStepKeepsSyncOk(s: State, e: Event, held: seq<ToolDef>)
    requires Enabled(s, e) && AgentStep(e) && SyncOk(s.links[e.link], held)
    ensures SyncOk(AfterAgentStep(s, e), held)
  {
    var k := s.links[e.link];
    match e
    case AgentOpens(_) => AppliedSnoc(k.toRelay, ToolsMsg(k.agent.tools), held);
    case CallFinishes(_, id, outcome) => AppliedSnoc(k.toRelay, ReplyMsg(id, outcome), held);
    case ToolsCollected(_, run, listings) =>
      AppliedSnoc(k.toRelay, ToolsMsg(A.Collected(k.agent.restarts[run].servers, listings)), held);
    case _ =>
  }

  // ---- every step keeps the invariant ----

  lemma StepKeepsRegistry(s: State, e: Event)
    requires R.Ok(s.reg) && Enabled(s, e)
    ensures R.Ok(Next(s, e).reg)
  {
    hide R.Ok, AfterAgentStep;
    match e
    case Connect(link, userId, name, _, _, _) => R.AddConnectionKeepsOk(s.reg, link, userId, name, s.now);
    case RelayReceives(link) =>
      var msg := s.links[link].toRelay[0];
      if msg.ToolsMsg? { R.ReceiveKeepsOk(s.reg, link, msg.tools, 0); }
    case PingArrives(link) => R.ReceiveKeepsOk(s.reg, link, [], s.now);
    case RelayCloses(link) => R.RemoveConnectionKeepsOk(s.reg, link);
    case _ =>
  }

  lemma StepKeepsBook(s: State, e: Event)
    requires C.Ok(s.book) && Enabled(s, e)
    ensures C.Ok(Next(s, e).book)
  {
    match e
    case SendRequest(_, _, _, _, id) => C.IssueKeepsOk(s.book, id, s.now);
    case RelayReceives(link) => C.ReceiveMessageKeepsOk(s.book, s.links[link].toRelay[0]);
    case RequestTimesOut(timer) => C.TimeOutKeepsOk(s.book, timer);
    case _ =>
  }

  lemma StepKeepsLinks(s: State, e: Event)
    requires LinksOk(s) && Enabled(s, e)
    ensures LinksOk(Next(s, e))
  {
    if AgentStep(e) {
      AgentStepKeepsLinks(s, e);
    } else if e.Connect? {
      ConnectKeepsLinks(s, e);
    } else if e.RelayReceives? {
      ReceiveKeepsLinks(s, e);
    } else if e.SendRequest? || e.RestartAll? || e.SweepRuns? {
      BroadcastKeepsLinks(s, e);
    } else {
      OtherStepKeepsLinks(s, e);
    }
  }

  lemma ConnectKeepsLinks(s: State, e: Event)
    requires LinksOk(s) && Enabled(s, e) && e.Connect?
    ensures LinksOk(Next(s, e))
  {
    hide AgentOk;
    NewAgentOk(e.entries, e.started, e.listings);
  }

  lemma ReceiveKeepsLinks(s: State, e: Event)
    requires LinksOk(s) && Enabled(s, e) && e.RelayReceives?
    ensures LinksOk(Next(s, e))
  {
    hide AgentOk;
  }

  lemma BroadcastKeepsLinks(s: State, e: Event)
    requires LinksOk(s) && Enabled(s, e) && (e.SendRequest? || e.RestartAll? || e.SweepRuns?)
    ensures LinksOk(Next(s, e))
  {
    hide AgentOk, Applied, R.StaleLinks, R.FindNamed, C.Issue, AfterAgentStep;
  }

  lemma OtherStepKeepsLinks(s: State, e: Event)
    requires LinksOk(s) && Enabled(s, e) && !AgentStep(e) && !e.Connect? && !e.RelayReceives?
    requires !e.SendRequest? && !e.RestartAll? && !e.SweepRuns?
    ensures LinksOk(Next(s, e))
  {
    hide AgentOk, Applied;
  }

  lemma AgentStepKeepsLinks(s: State, e: Event)
    requires LinksOk(s) && Enabled(s, e) && AgentStep(e)
    ensures LinksOk(Next(s, e))
  {
    hide AgentOk, SyncOk, AfterAgentStep;
    AgentStepKeepsAgentOk(s, e);
    AgentStepKeepsSyncOk(s, e, s.reg.conns[e.link].tools);
  }

  lemma StepKeepsTimers(s: State, e: Event)
    requires TimersOk(s) && Enabled(s, e)
    ensures TimersOk(Next(s, e))
  {
  }

  lemma StepKeepsSweep(s: State, e: Event)
    requires Inv(s) && Enabled(s, e)
    ensures SweepOk(Next(s, e))
  {
    if AgentStep(e) {
      AgentStepKeepsSweep(s, e);
    } else {
      forall l | l in Next(s, e).links && l in Next(s, e).reg.conns
        ensures SparedOk(Next(s, e), l)
      {
        if l in s.links {
          if e.SweepRuns? { SweepKeepsSpared(s, e, l); } else { StepKeepsSpared(s, e, l); }
        }
      }
    }
  }

  lemma AgentStepKeepsSweep(s: State, e: Event)
    requires SweepOk(s) && Enabled(s, e) && AgentStep(e)
    ensures SweepOk(Next(s, e))
  {
    forall l | l in s.links && l in s.reg.conns ensures SparedOk(Next(s, e), l) {
      assert SparedOk(s, l);
    }
  }

  lemma SweepKeepsSpared(s: State, e: Event, l: LinkId)
    requires Inv(s) && Enabled(s, e) && e.SweepRuns? && l in s.links
    ensures l in Next(s, e).links && l in Next(s, e).reg.conns && SparedOk(Next(s, e), l)
  {
    hide R.Ok, C.Ok, AgentOk, SyncOk;
    assert SparedOk(s, l);
  }

  lemma StepKeepsSpared(s: State, e: Event, l: LinkId)
    requires Inv(s) && Enabled(s, e) && !AgentStep(e) && !e.SweepRuns? && l in s.links
    ensures l in Next(s, e).links && l in Next(s, e).reg.conns && SparedOk(Next(s, e), l)
  {
    hide R.Ok, C.Ok, AgentOk, SyncOk, AfterAgentStep;
    assert SparedOk(s, l);
    if !R.Registered(s.reg, l) { StepKeepsUnregistered(s, e, l); }
  }

  /** Only its own connect event registers a connection. */
  lemma StepKeepsUnregistered(s: State, e: Event, l: LinkId)
    requires Enabled(s, e) && l in s.reg.conns && !R.Registered(s.reg, l)
    ensures !R.Registered(Next(s, e).reg, l)
  {
    hide AfterAgentStep;
  }

  lemma StepKeepsInv(s: State, e: Event)
    requires Inv(s) && Enabled(s, e)
    ensures Inv(Next(s, e))
  {
    StepKeepsRegistry(s, e);
    StepKeepsBook(s, e);
    StepKeepsLinks(s, e);
    StepKeepsTimers(s, e);
    StepKeepsSweep(s, e);
  }

  lemma {:induction false} InvHolds(t: Trace, n: nat)
    requires IsRun(t) && n < |t.states|
    ensures Inv(t.states[n])
  {
    if n > 0 {
      InvHolds(t, n - 1);
      assert StepAt(t, n - 1);
      StepKeepsInv(t.states[n - 1], t.events[n - 1]);
    }
  }
}
