/** The agent's `connect()`: the variables its event handlers share, one method per synchronous
    stretch of code, each tied to the agent's step in the tunnel. */
module AgentConnections {
  import opened Base
  import opened Wire
  import opened Tunnel
  import opened TunnelSafety
  import C = Calls
  import A = AgentTools

  class AgentConnection {
    const entries: seq<string>
    var servers: seq<A.LocalServer>
    var tools: seq<ToolDef>

    // The socket: whether it has opened and not closed, and what it carries towards the relay.
    var isOpen: bool
    var alive: bool
    var outgoing: seq<WsMessage>

    // The handler runs that wait at an `await`: restarts, and calls of local tools.
    var restarts: map<nat, Phase>
    var nextRun: nat
    var jobs: map<ReqId, Job>

    ghost var serversBy: nat
    ghost var toolsBy: nat

    ghost function View(): Agent
      reads this
    {
      Agent(entries, servers, tools, serversBy, toolsBy, restarts, nextRun, jobs)
    }

    /** The variables are in step: the invariant of the agent in the tunnel. */
    ghost predicate Valid()
      reads this
    {
      AgentOk(View())
    }

    /** The link `k` of the tunnel, seen from this end, is this connection. */
    ghost predicate Is(k: Link)
      reads this
    {
      k.isOpen == isOpen && k.agentEnd == alive && k.toRelay == outgoing && k.agent == View()
    }

    constructor (entries: seq<string>, started: seq<bool>, listings: seq<A.Listing>)
      requires |entries| == |started| && |listings| == |A.Spawned(entries, started)| && Distinct(entries)
      ensures Valid() && Is(Link(false, true, true, false, false, [], [], NewAgent(entries, started, listings)))
    {
      this.entries := entries;
      var spawned := A.SpawnServers(entries, started);
      var collected := A.CollectTools(spawned, listings);
      servers, tools := spawned, collected;
      isOpen, alive, outgoing := false, true, [];
      restarts, nextRun, jobs := map[], 1, map[];
      serversBy, toolsBy := 0, 0;
      NewAgentOk(entries, started, listings);
    }

    method Send(msg: WsMessage)
      modifies this`outgoing
      ensures outgoing == if alive then old(outgoing) + [msg] else old(outgoing)
    {
      if alive {
        outgoing := outgoing + [msg];
      }
    }

    method OnOpen(ghost k: Link)
      requires Valid() && Is(k)
      modifies this`isOpen, this`outgoing
      ensures Valid() && Is(AgentSends(k.(isOpen := true), ToolsMsg(k.agent.tools)))
    {
      isOpen := true;
      Send(ToolsMsg(tools));
    }

    /** The `message` handler up to its first `await`. */
    method OnMessage(msg: WsMessage, ghost k: Link)
      requires Valid() && Is(k) && k.toAgent != [] && k.toAgent[0] == msg
      modifies this`jobs, this`restarts, this`nextRun
      ensures Valid() && Is(AgentTakes(k))
    {
      hide AgentOk;
      TakeKeepsAgentOk(k);
      match msg
      case RequestMsg(id, tool, params) =>
        jobs := jobs[id := Job(tool, params, A.HandleToolCall(servers, tool))];
      case RestartMsg =>
        restarts, nextRun := restarts[nextRun := Closing], nextRun + 1;
      case _ =>
    }

    /** A tool call has settled: answer it. */
    method OnCallSettled(id: ReqId, outcome: C.Outcome, ghost k: Link)
      requires Valid() && Is(k) && id in jobs
      modifies this`jobs, this`outgoing
      ensures Valid() && Is(FinishCall(k, id, outcome))
    {
      hide AgentOk;
      FinishKeepsAgentOk(k, id, outcome);
      jobs := jobs - {id};
      Send(ReplyMsg(id, outcome));
    }

    /** A restart goes on after closing the old servers. */
    method OnServersClosed(run: nat, ghost k: Link)
      requires Valid() && Is(k) && run in restarts && restarts[run].Closing?
      modifies this`restarts
      ensures Valid() && Is(FinishClosing(k, run))
    {
      hide AgentOk;
      ClosingKeepsAgentOk(k, run);
      restarts := restarts[run := Spawning];
    }

    /** A restart goes on after spawning the servers. */
    method OnServersSpawned(run: nat, started: seq<bool>, ghost k: Link)
      requires Valid() && Is(k) && run in restarts && restarts[run].Spawning? && |started| == |entries|
      modifies this`servers, this`serversBy, this`restarts
      ensures Valid() && Is(FinishSpawning(k, run, started))
    {
      hide AgentOk;
      SpawningKeepsAgentOk(k, run, started);
      servers := A.SpawnServers(entries, started);
      serversBy := run;
      restarts := restarts[run := Collecting(servers)];
    }

    /** A restart goes on after collecting the tools of the servers it spawned. */
    method OnToolsCollected(run: nat, listings: seq<A.Listing>, ghost k: Link)
      requires Valid() && Is(k) && run in restarts && restarts[run].Collecting?
      requires |listings| == |restarts[run].servers|
      modifies this`tools, this`toolsBy, this`restarts, this`outgoing
      ensures Valid() && Is(FinishCollecting(k, run, listings))
    {
      hide AgentOk, A.Collected;
      CollectingKeepsAgentOk(k, run, listings);
      tools := A.CollectTools(restarts[run].servers, listings);
      toolsBy := run;
      restarts := restarts - {run};
      Send(ToolsMsg(tools));
    }

    /** The `close` event. */
    method OnClose(ghost k: Link)
      requires Valid() && Is(k)
      modifies this`alive
      ensures Valid() && !alive && Is(k.(agentEnd := false, toAgent := []))
    {
      alive := false;
    }
  }
}
