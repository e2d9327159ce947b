/** The relay, its agents and the links between them as one transition system. A step is one
    synchronous stretch of code on either side, or something the network or the clock does. */
module Tunnel {
  import opened Wire
  import R = Registries
  import C = Calls
  import A = AgentTools

  // ---- state ----

  /** Where one run of the restart handler is waiting. */
  datatype Phase = Closing | Spawning | Collecting(servers: seq<A.LocalServer>)

  /** A tool call the agent has dispatched and not yet answered. */
  datatype Job = Job(tool: string, params: Json, dispatch: A.Dispatch)

  /** The variables of one `connect()` of an agent. Runs are numbered: 0 is `connect` itself, the
      others are runs of the restart handler. `serversBy` and `toolsBy` record which run assigned
      the two variables last. */
  datatype Agent = Agent(
    entries: seq<string>,
    servers: seq<A.LocalServer>,
    tools: seq<ToolDef>,
    serversBy: nat,
    toolsBy: nat,
    restarts: map<nat, Phase>,
    nextRun: nat,
    jobs: map<ReqId, Job>)

  /** One WebSocket: what is under way in each direction, and which end still works. */
  datatype Link = Link(
    isOpen: bool,        // the agent has seen its `open` event
    agentEnd: bool,      // the agent has not seen its `close` event
    relayEnd: bool,      // the relay's socket still sends
    relayClosed: bool,   // the relay has seen its `close` event
    terminated: bool,    // the relay's stale check terminated it
    toAgent: seq<WsMessage>,
    toRelay: seq<WsMessage>,
    agent: Agent)

  datatype State = State(
    now: int,
    nextSweep: int,
    reg: R.Registry,
    book: C.Book,
    links: map<LinkId, Link>)

  datatype Event =
    | Connect(link: LinkId, userId: string, name: string,
              entries: seq<string>, started: seq<bool>, listings: seq<A.Listing>)
    | AgentOpens(link: LinkId)
    | SendRequest(userId: string, deviceName: string, tool: string, params: Json, id: ReqId)
    | RestartAll(userId: string)
    | AgentReceives(link: LinkId)
    | CallFinishes(link: LinkId, id: ReqId, outcome: C.Outcome)
    | ServersClosed(link: LinkId, run: nat)
    | ServersSpawned(link: LinkId, run: nat, started: seq<bool>)
    | ToolsCollected(link: LinkId, run: nat, listings: seq<A.Listing>)
    | AgentEndCloses(link: LinkId)
    | RelayReceives(link: LinkId)
    | PingArrives(link: LinkId)
    | RelayEndBreaks(link: LinkId)
    | RelayCloses(link: LinkId)
    | RequestTimesOut(timer: C.TimerId)
    | SweepRuns
    | TimePasses(ms: nat)

  // ---- the agent's side ----

  /** The outcomes a dispatched call can have: its own error, or whatever the local server does. */
  predicate CanYield(dispatch: A.Dispatch, outcome: C.Outcome) {
    match dispatch
    case Fail(message) => outcome == C.Rejected(message)
    case Forward(_, _) => outcome.Resolved? || outcome.Rejected?
  }

  function ReplyMsg(id: ReqId, outcome: C.Outcome): WsMessage {
    match outcome
    case Resolved(result) => ResponseMsg(id, result)
    case Rejected(message) => ErrorMsg(id, message)
    case TimedOut => ErrorMsg(id, "")
  }

  function NewAgent(entries: seq<string>, started: seq<bool>, listings: seq<A.Listing>): Agent
    requires |entries| == |started| && |listings| == |A.Spawned(entries, started)|
  {
    var servers := A.Spawned(entries, started);
    Agent(entries, servers, A.Collected(servers, listings), 0, 0, map[], 1, map[])
  }

  function AgentSends(k: Link, msg: WsMessage): Link {
    if k.agentEnd then k.(toRelay := k.toRelay + [msg]) else k
  }

  function AgentTakes(k: Link): Link
    requires k.toAgent != []
  {
    var msg, a := k.toAgent[0], k.agent;
    k.(toAgent := k.toAgent[1..],
       agent := match msg
         case RequestMsg(id, tool, params) =>
           a.(jobs := a.jobs[id := Job(tool, params, A.HandleToolCall(a.servers, tool))])
         case RestartMsg =>
           a.(restarts := a.restarts[a.nextRun := Closing], nextRun := a.nextRun + 1)
         case _ => a)
  }

  function FinishCall(k: Link, id: ReqId, outcome: C.Outcome): Link {
    AgentSends(k.(agent := k.agent.(jobs := k.agent.jobs - {id})), ReplyMsg(id, outcome))
  }

  function FinishClosing(k: Link, run: nat): Link {
    k.(agent := k.agent.(restarts := k.agent.restarts[run := Spawning]))
  }

  function FinishSpawning(k: Link, run: nat, started: seq<bool>): Link
    requires |started| == |k.agent.entries|
  {
    var servers := A.Spawned(k.agent.entries, started);
    k.(agent := k.agent.(servers := servers, serversBy := run,
                         restarts := k.agent.restarts[run := Collecting(servers)]))
  }

  function FinishCollecting(k: Link, run: nat, listings: seq<A.Listing>): Link
    requires run in k.agent.restarts && k.agent.restarts[run].Collecting?
    requires |listings| == |k.agent.restarts[run].servers|
  {
    var tools := A.Collected(k.agent.restarts[run].servers, listings);
    AgentSends(k.(agent := k.agent.(tools := tools, toolsBy := run, restarts := k.agent.restarts - {run})),
               ToolsMsg(tools))
  }

  // ---- steps ----

  /** The relay sends `msg` to every link of `to`; a broken socket drops it. */
  function SendAll(links: map<LinkId, Link>, to: set<LinkId>, msg: WsMessage): map<LinkId, Link> {
    map l | l in links ::
      if l in to && links[l].relayEnd then links[l].(toAgent := links[l].toAgent + [msg]) else links[l]
  }

  function Terminate(links: map<LinkId, Link>, stale: set<LinkId>): map<LinkId, Link> {
    map l | l in links :: if l in stale then links[l].(terminated := true, relayEnd := false) else links[l]
  }

  function Members(list: seq<LinkId>): set<LinkId> {
    set l | l in list
  }

  predicate Restarting(s: State, link: LinkId, run: nat) {
    link in s.links && run in s.links[link].agent.restarts
  }

  predicate Enabled(s: State, e: Event) {
    match e
    case Connect(link, _, _, entries, started, listings) =>
      link !in s.links && link !in s.reg.conns && |entries| == |started|
      && (forall i, j :: 0 <= i < j < |entries| ==> entries[i] != entries[j])
      && |listings| == |A.Spawned(entries, started)|
    case AgentOpens(link) => link in s.links && s.links[link].agentEnd && !s.links[link].isOpen
    case SendRequest(_, _, _, _, id) => id !in s.book.issued
    case RestartAll(_) => true
    case AgentReceives(link) =>
      link in s.links && s.links[link].isOpen && s.links[link].agentEnd && s.links[link].toAgent != []
    case CallFinishes(link, id, outcome) =>
      link in s.links && id in s.links[link].agent.jobs && CanYield(s.links[link].agent.jobs[id].dispatch, outcome)
    case ServersClosed(link, run) => Restarting(s, link, run) && s.links[link].agent.restarts[run].Closing?
    case ServersSpawned(link, run, started) =>
      Restarting(s, link, run) && s.links[link].agent.restarts[run].Spawning?
      && |started| == |s.links[link].agent.entries|
    case ToolsCollected(link, run, listings) =>
      Restarting(s, link, run) && s.links[link].agent.restarts[run].Collecting?
      && |listings| == |s.links[link].agent.restarts[run].servers|
    case AgentEndCloses(link) => link in s.links
    case RelayReceives(link) =>
      link in s.links && link in s.reg.conns && !s.links[link].relayClosed && s.links[link].toRelay != []
    case PingArrives(link) => link in s.links && link in s.reg.conns && !s.links[link].relayClosed
    case RelayEndBreaks(link) => link in s.links
    case RelayCloses(link) => link in s.links && link in s.reg.conns && !s.links[link].relayEnd
    case RequestTimesOut(timer) => timer in s.book.timers && s.book.timers[timer].due <= s.now
    case SweepRuns => s.nextSweep <= s.now
    // Timers run on schedule: the clock does not pass one that is due.
    case TimePasses(ms) =>
      s.now + ms <= s.nextSweep && forall t :: t in s.book.timers ==> s.now + ms <= s.book.timers[t].due
  }

  /** The links an agent's own step changes, with the link it leaves behind. */
  predicate AgentStep(e: Event) {
    e.AgentOpens? || e.AgentReceives? || e.CallFinishes? || e.ServersClosed? || e.ServersSpawned?
    || e.ToolsCollected? || e.AgentEndCloses?
  }

  function AfterAgentStep(s: State, e: Event): Link
    requires Enabled(s, e) && AgentStep(e)
  {
    var k := s.links[e.link];
    match e
    case AgentOpens(_) => AgentSends(k.(isOpen := true), ToolsMsg(k.agent.tools))
    case AgentReceives(_) => AgentTakes(k)
    case CallFinishes(_, id, outcome) => FinishCall(k, id, outcome)
    case ServersClosed(_, run) => FinishClosing(k, run)
    case ServersSpawned(_, run, started) => FinishSpawning(k, run, started)
    case ToolsCollected(_, run, listings) => FinishCollecting(k, run, listings)
    case AgentEndCloses(_) => k.(agentEnd := false, toAgent := [])
  }

  function Next(s: State, e: Event): State
    requires Enabled(s, e)
  {
    if AgentStep(e) then s.(links := s.links[e.link := AfterAgentStep(s, e)])
    else match e
    case Connect(link, userId, name, entries, started, listings) =>
      s.(reg := R.AddConnection(s.reg, link, userId, name, s.now),
         links := s.links[link := Link(false, true, true, false, false, [], [], NewAgent(entries, started, listings))])
    case SendRequest(userId, deviceName, tool, params, id) =>
      var found := R.FindDevice(s.reg, userId, deviceName);
      if found.None? then s
      else s.(book := C.Issue(s.book, id, s.now),
              links := SendAll(s.links, {found.value}, RequestMsg(id, tool, params)))
    case RestartAll(userId) =>
      s.(links := SendAll(s.links, Members(R.UserList(s.reg, userId)), RestartMsg))
    case RelayReceives(link) =>
      var k := s.links[link];
      s.(reg := R.ReceiveMessage(s.reg, link, k.toRelay[0]),
         book := C.ReceiveMessage(s.book, k.toRelay[0]),
         links := s.links[link := k.(toRelay := k.toRelay[1..])])
    case PingArrives(link) => s.(reg := R.ReceivePing(s.reg, link, s.now))
    case RelayEndBreaks(link) => s.(links := s.links[link := s.links[link].(relayEnd := false)])
    case RelayCloses(link) =>
      s.(reg := R.RemoveConnection(s.reg, link),
         links := s.links[link := s.links[link].(relayClosed := true, toRelay := [])])
    case RequestTimesOut(timer) => s.(book := C.TimeOut(s.book, timer))
    case SweepRuns =>
      s.(links := Terminate(s.links, R.StaleLinks(s.reg, s.now)),
         nextSweep := s.nextSweep + R.STALE_CHECK_INTERVAL_MS)
    case TimePasses(ms) => s.(now := s.now + ms)
  }

  function Start(now: int): State {
    State(now, now + R.STALE_CHECK_INTERVAL_MS, R.EMPTY, C.NO_CALLS, map[])
  }

  // ---- runs ----

  datatype Trace = Trace(states: seq<State>, events: seq<Event>)

  ghost predicate StepAt(t: Trace, i: nat)
    requires i < |t.events| && |t.states| == |t.events| + 1
  {
    Enabled(t.states[i], t.events[i]) && t.states[i + 1] == Next(t.states[i], t.events[i])
  }

  ghost predicate IsRun(t: Trace) {
    && |t.states| == |t.events| + 1
    && t.states[0] == Start(t.states[0].now)
    && forall i :: 0 <= i < |t.events| ==> StepAt(t, i)
  }

  ghost predicate Reachable(s: State) {
    exists t, n: nat :: IsRun(t) && n < |t.states| && t.states[n] == s
  }
}
