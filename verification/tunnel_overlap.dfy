/** A run in which overlapping restarts leave an agent publishing a tool it can no longer reach. */
module TunnelOverlap {
  import opened Base
  import opened Wire
  import opened Tunnel
  import R = Registries
  import C = Calls
  import A = AgentTools
  import Mcp = RelayMcp

  lemma StartReachable(now: int)
    ensures Reachable(Start(now))
  {
    var t := Trace([Start(now)], []);
    assert IsRun(t) && t.states[0] == Start(now);
  }

  lemma ReachNext(s: State, e: Event)
    requires Reachable(s) && Enabled(s, e)
    ensures Reachable(Next(s, e))
  {
    var t, n: nat :| IsRun(t) && n < |t.states| && t.states[n] == s;
    var t' := Trace(t.states[..n + 1] + [Next(s, e)], t.events[..n] + [e]);
    forall i | 0 <= i < |t'.events| ensures StepAt(t', i) {
      if i < n { assert StepAt(t, i); }
    }
    assert IsRun(t') && t'.states[n + 1] == Next(s, e);
  }

  const TOOL := A.LocalTool("x", None, "{}", None)
  const SERVER := A.LocalServer("a")
  const PUBLISHED := A.Published(SERVER, TOOL)

  function AgentWith(servers: seq<A.LocalServer>, tools: seq<ToolDef>, serversBy: nat, toolsBy: nat,
                     restarts: map<nat, Phase>, nextRun: nat): Agent {
    Agent(["a"], servers, tools, serversBy, toolsBy, restarts, nextRun, map[])
  }

  function Joined(toAgent: seq<WsMessage>, toRelay: seq<WsMessage>, agent: Agent): Link {
    Link(true, true, true, false, false, toAgent, toRelay, agent)
  }

  /** The relay and its one link, registered as device "d" of user "u". */
  function World(k: Link, held: seq<ToolDef>): State {
    State(0, R.STALE_CHECK_INTERVAL_MS,
          R.Registry(map[0 := R.Conn("u", "d", 0, held, 0)], map["u" := [0]]),
          C.NO_CALLS,
          map[0 := k])
  }

  lemma AgentMoves(k: Link, held: seq<ToolDef>, e: Event, k': Link)
    requires Reachable(World(k, held)) && Enabled(World(k, held), e) && AgentStep(e) && e.link == 0
    requires AfterAgentStep(World(k, held), e) == k'
    ensures Reachable(World(k', held))
  {
    ReachNext(World(k, held), e);
    assert map[0 := k][0 := k'] == map[0 := k'];
  }

  lemma RestartMoves(k: Link, held: seq<ToolDef>)
    requires Reachable(World(k, held)) && k.relayEnd
    ensures Reachable(World(k.(toAgent := k.toAgent + [RestartMsg]), held))
  {
    ReachNext(World(k, held), RestartAll("u"));
    var k' := k.(toAgent := k.toAgent + [RestartMsg]);
    assert 0 in Members([0]) by { assert 0 in [0]; }
    assert SendAll(map[0 := k], Members([0]), RestartMsg) == map[0 := k'];
  }

  lemma RelayMoves(k: Link, held: seq<ToolDef>, tools: seq<ToolDef>)
    requires Reachable(World(k, held)) && !k.relayClosed && k.toRelay != [] && k.toRelay[0] == ToolsMsg(tools)
    ensures Reachable(World(k.(toRelay := k.toRelay[1..]), tools))
  {
    var s := World(k, held);
    ReachNext(s, RelayReceives(0));
    var conn := R.Conn("u", "d", 0, held, 0);
    assert map[0 := conn][0 := conn.(tools := tools)] == map[0 := R.Conn("u", "d", 0, tools, 0)];
    assert map[0 := k][0 := k.(toRelay := k.toRelay[1..])] == map[0 := k.(toRelay := k.toRelay[1..])];
  }

  lemma Collects()
    ensures A.Collected([SERVER], [Some([TOOL])]) == [PUBLISHED]
    ensures A.Spawned(["a"], [true]) == [SERVER] && A.Spawned(["a"], [false]) == []
  {
    var servers, listings: seq<A.Listing> := [SERVER], [Some([TOOL])];
    assert servers[..0] == [] && listings[..0] == [];
    assert A.Collected(servers, listings) ==
      A.Collected(servers[..0], listings[..0]) + A.PublishedListing(SERVER, Some([TOOL]));
    assert A.PublishedAll(SERVER, [TOOL]) == [PUBLISHED];
    var entries: seq<string> := ["a"];
    assert entries[..0] == [] && [true][..0] == [] && [false][..0] == [];
  }

  lemma FirstConnection()
    ensures R.AddConnection(R.EMPTY, 0, "u", "d", 0) ==
      R.Registry(map[0 := R.Conn("u", "d", 0, [], 0)], map["u" := [0]])
  {
    var reg := R.AddConnection(R.EMPTY, 0, "u", "d", 0);
    assert Without(R.UserList(R.EMPTY, "u"), R.NamedLinks(R.EMPTY, "d")) == [];
    assert reg.conns == map[0 := R.Conn("u", "d", 0, [], 0)];
    assert reg.connections["u"] == [0];
    assert reg.connections == map["u" := [0]];
  }

  const FIRST := AgentWith([SERVER], [PUBLISHED], 0, 0, map[], 1)

  lemma FirstAgent()
    ensures |A.Spawned(["a"], [true])| == 1 && NewAgent(["a"], [true], [Some([TOOL])]) == FIRST
  {
    Collects();
  }

  lemma Accepted()
    ensures Reachable(World(Link(false, true, true, false, false, [], [], FIRST), []))
  {
    StartReachable(0);
    FirstAgent();
    FirstConnection();
    hide NewAgent, A.Spawned, A.Collected, R.AddConnection;
    var connect := Connect(0, "u", "d", ["a"], [true], [Some([TOOL])]);
    ReachNext(Start(0), connect);
    var k := Link(false, true, true, false, false, [], [], FIRST);
    assert map[][0 := k] == map[0 := k];
    assert Next(Start(0), connect) == World(k, []);
  }

  /** An agent with server "a" connects and its tool list reaches the relay. */
  lemma Connected()
    ensures Reachable(World(Joined([], [], FIRST), [PUBLISHED]))
  {
    Accepted();
    AgentMoves(Link(false, true, true, false, false, [], [], FIRST), [], AgentOpens(0),
               Joined([], [ToolsMsg([PUBLISHED])], FIRST));
    assert [ToolsMsg([PUBLISHED])][1..] == [];
    RelayMoves(Joined([], [ToolsMsg([PUBLISHED])], FIRST), [], [PUBLISHED]);
  }

  function Restarts(restarts: map<nat, Phase>): Agent {
    AgentWith([SERVER], [PUBLISHED], 0, 0, restarts, 3)
  }

  /** The user asks for a restart twice, and the agent takes both requests before either finishes. */
  lemma TwoRestarts()
    ensures Reachable(World(Joined([], [], Restarts(map[1 := Closing, 2 := Closing])), [PUBLISHED]))
  {
    Connected();
    var none: seq<WsMessage> := [];
    assert none + [RestartMsg] == [RestartMsg];
    assert [RestartMsg] + [RestartMsg] == [RestartMsg, RestartMsg];
    RestartMoves(Joined([], [], FIRST), [PUBLISHED]);
    RestartMoves(Joined([RestartMsg], [], FIRST), [PUBLISHED]);
    var one := AgentWith([SERVER], [PUBLISHED], 0, 0, map[1 := Closing], 2);
    assert [RestartMsg, RestartMsg][1..] == [RestartMsg] && [RestartMsg][1..] == [];
    assert map[][1 := Closing] == map[1 := Closing];
    assert map[1 := Closing][2 := Closing] == map[1 := Closing, 2 := Closing];
    AgentMoves(Joined([RestartMsg, RestartMsg], [], FIRST), [PUBLISHED], AgentReceives(0),
               Joined([RestartMsg], [], one));
    AgentMoves(Joined([RestartMsg], [], one), [PUBLISHED], AgentReceives(0),
               Joined([], [], Restarts(map[1 := Closing, 2 := Closing])));
  }

  lemma BothClosed()
    ensures Reachable(World(Joined([], [], Restarts(map[1 := Spawning, 2 := Spawning])), [PUBLISHED]))
  {
    TwoRestarts();
    var k0 := Joined([], [], Restarts(map[1 := Closing, 2 := Closing]));
    var k1 := Joined([], [], Restarts(map[1 := Spawning, 2 := Closing]));
    var k2 := Joined([], [], Restarts(map[1 := Spawning, 2 := Spawning]));
    AgentMoves(k0, [PUBLISHED], ServersClosed(0, 1), k1);
    AgentMoves(k1, [PUBLISHED], ServersClosed(0, 2), k2);
  }

  const FIRST_STARTS := AgentWith([SERVER], [PUBLISHED], 1, 0, map[1 := Collecting([SERVER]), 2 := Spawning], 3)
  const SECOND_FAILS := AgentWith([], [PUBLISHED], 2, 0, map[1 := Collecting([SERVER]), 2 := Collecting([])], 3)
  const SECOND_DONE := AgentWith([], [], 2, 2, map[1 := Collecting([SERVER])], 3)
  const BOTH_DONE := AgentWith([], [PUBLISHED], 2, 1, map[], 3)

  /** The first restart starts server "a" again; then the second fails to start it. */
  lemma BothSpawned()
    ensures Reachable(World(Joined([], [], SECOND_FAILS), [PUBLISHED]))
  {
    BothClosed();
    Collects();
    var k0 := Joined([], [], Restarts(map[1 := Spawning, 2 := Spawning]));
    AgentMoves(k0, [PUBLISHED], ServersSpawned(0, 1, [true]), Joined([], [], FIRST_STARTS));
    AgentMoves(Joined([], [], FIRST_STARTS), [PUBLISHED], ServersSpawned(0, 2, [false]), Joined([], [], SECOND_FAILS));
  }

  lemma SecondFinishes()
    ensures Reachable(World(Joined([], [ToolsMsg([])], SECOND_DONE), [PUBLISHED]))
  {
    BothSpawned();
    assert map[1 := Collecting([SERVER]), 2 := Collecting([])] - {2} == map[1 := Collecting([SERVER])];
    AgentMoves(Joined([], [], SECOND_FAILS), [PUBLISHED], ToolsCollected(0, 2, []),
               Joined([], [ToolsMsg([])], SECOND_DONE));
  }

  /** The second restart finishes first, so the list of the first one is published last. */
  lemma ListOfTheFirst()
    ensures Reachable(World(Joined([], [], BOTH_DONE), [PUBLISHED]))
  {
    SecondFinishes();
    Collects();
    assert map[1 := Collecting([SERVER])] - {1} == map[];
    AgentMoves(Joined([], [ToolsMsg([])], SECOND_DONE), [PUBLISHED], ToolsCollected(0, 1, [Some([TOOL])]),
               Joined([], [ToolsMsg([]), ToolsMsg([PUBLISHED])], BOTH_DONE));
    ListArrivesLast();
  }

  lemma ListArrivesLast()
    requires Reachable(World(Joined([], [ToolsMsg([]), ToolsMsg([PUBLISHED])], BOTH_DONE), [PUBLISHED]))
    ensures Reachable(World(Joined([], [], BOTH_DONE), [PUBLISHED]))
  {
    RelayMoves(Joined([], [ToolsMsg([]), ToolsMsg([PUBLISHED])], BOTH_DONE), [PUBLISHED], []);
    assert [ToolsMsg([]), ToolsMsg([PUBLISHED])][1..] == [ToolsMsg([PUBLISHED])];
    RelayMoves(Joined([], [ToolsMsg([PUBLISHED])], BOTH_DONE), [], [PUBLISHED]);
    assert [ToolsMsg([PUBLISHED])][1..] == [];
  }

  /** A state is reachable in which no restart is under way, nothing is in flight and relay and agent
      agree on the tool list, and yet the call of a listed tool fails at the agent: both restarts
      assigned `servers` and `tools`, and the two assignments that came last are not the same
      restart's. */
  lemma OverlappingRestartsLoseServer() returns (s: State)
    ensures Reachable(s) && 0 in s.links && 0 in s.reg.conns
    ensures var k := s.links[0];
      k.isOpen && k.agentEnd && k.toRelay == [] && k.toAgent == [] && k.agent.restarts == map[]
      && s.reg.conns[0].tools == k.agent.tools == [PUBLISHED]
    ensures R.UserList(s.reg, "u") == [0]
    ensures Mcp.CallTool(Mcp.UserConns(s.reg, "u"), "a__x") == Mcp.Route("d", "a__x")
    ensures R.FindDevice(s.reg, "u", "d") == Some(0)
    ensures A.HandleToolCall(s.links[0].agent.servers, "a__x").Fail?
  {
    ListOfTheFirst();
    s := World(Joined([], [], BOTH_DONE), [PUBLISHED]);
    var conn := R.Conn("u", "d", 0, [PUBLISHED], 0);
    assert Mcp.UserConns(s.reg, "u") == [conn];
    assert PUBLISHED.name == "a__x";
    assert [conn][..0] == [];
    assert Mcp.ListedFrom([conn], false) == Mcp.ListedFrom([], false) + Mcp.ListedAll(conn, false);
    assert Mcp.ToolsForUser([conn]) == [Mcp.Listed(conn, false, PUBLISHED)];
    assert "a__x"[0] == 'a';
  }
}
