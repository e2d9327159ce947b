/** Calls of listed tools, from the list the client saw to the local server that answers. */
module TunnelRouting {
  import opened Base
  import opened Wire
  import opened Names
  import opened Tunnel
  import opened TunnelSafety
  import R = Registries
  import C = Calls
  import A = AgentTools
  import Mcp = RelayMcp
  import Reg = TunnelRegistry
  import Run = TunnelCalls

  // ---- relay and agent in sync ----

  ghost function ListingsOf(tools: seq<ToolDef>, servers: seq<A.LocalServer>): (listings: seq<A.Listing>)
    requires A.CollectedFrom(tools, servers)
    ensures |listings| == |servers| && tools == A.Collected(servers, listings)
  {
    var listings :| |listings| == |servers| && tools == A.Collected(servers, listings);
    listings
  }

  /** Collecting from the agent's `servers` could give the list the relay holds for the connection. */
  ghost predicate Settled(s: State, l: LinkId) {
    l in s.links && l in s.reg.conns && A.CollectedFrom(s.reg.conns[l].tools, s.links[l].agent.servers)
  }

  /** The user's connection of this device name, if there is one, is settled. */
  ghost predicate DeviceSettled(s: State, userId: string, device: string) {
    forall l :: l in R.UserList(s.reg, userId) && l in s.reg.conns ==>
      (s.reg.conns[l].name == device ==> Settled(s, l))
  }

  lemma SettledInSync(s: State, l: LinkId) returns (device: Mcp.Device)
    requires Inv(s) && Settled(s, l)
    ensures device.servers == s.links[l].agent.servers
    ensures Mcp.InSync(s.reg.conns[l], device)
  {
    var agent := s.links[l].agent;
    assert AgentOk(agent);
    device := Mcp.Device(agent.servers, ListingsOf(s.reg.conns[l].tools, agent.servers));
  }

  /** A connected agent whose list comes from its `servers` is settled once the list has arrived. */
  lemma DrainedIsSettled(t: Trace, n: nat, l: LinkId)
    requires IsRun(t) && n < |t.states| && l in t.states[n].links
    requires var k := t.states[n].links[l];
      && k.isOpen && k.agentEnd && !k.relayClosed && Drained(k.toRelay)
      && A.CollectedFrom(k.agent.tools, k.agent.servers)
    ensures Settled(t.states[n], l)
  {
    Reg.ToolListsAgree(t, n, l);
  }

  lemma ListedAreRegistered(s: State, userId: string)
    requires Inv(s)
    ensures R.Ok(s.reg)
    ensures forall l :: l in R.UserList(s.reg, userId) ==>
      l in s.links && l in s.reg.conns && R.Registered(s.reg, l) && s.reg.conns[l].userId == userId
  {
    hide TimersOk, SweepOk, C.Ok, R.Ok;
    R.InListIffRegistered(s.reg, userId);
  }

  // ---- where a call of a listed name goes ----

  /** The user's connections at state `n`, as the handlers of the MCP endpoint see them. */
  ghost function ConnsAt(t: Trace, n: nat, userId: string): seq<R.Conn>
    requires IsRun(t) && n < |t.states|
  {
    InvHolds(t, n);
    ListedAreRegistered(t.states[n], userId);
    Mcp.UserConns(t.states[n].reg, userId)
  }

  /** Server number `a` on the user's connection `l` has the tool `local`, and `tool` shows it. */
  ghost predicate Shows(s: State, userId: string, tool: Mcp.ListedTool, l: LinkId, a: nat, local: A.LocalTool) {
    && l in R.UserList(s.reg, userId) && l in s.reg.conns && l in s.links
    && a < |s.links[l].agent.servers|
    && tool == Mcp.Listed(s.reg.conns[l], |R.UserList(s.reg, userId)| > 1,
                          A.Published(s.links[l].agent.servers[a], local))
  }

  /** The relay routes `call` to connection `l`, under the name server `a` published `local` by. */
  ghost predicate RoutedTo(s: State, userId: string, call: Mcp.Action, l: LinkId, a: nat, local: A.LocalTool) {
    && l in s.reg.conns && l in s.links && a < |s.links[l].agent.servers|
    && call == Mcp.Route(s.reg.conns[l].name, Join(s.links[l].agent.servers[a].name, local.name))
    && R.FindDevice(s.reg, userId, s.reg.conns[l].name) == Some(l)
  }

  lemma ListedToolRouted(s: State, userId: string, conns: seq<R.Conn>, name: string, first: nat)
    returns (l: LinkId, a: nat, local: A.LocalTool)
    requires Inv(s) && (forall l :: l in R.UserList(s.reg, userId) ==> l in s.reg.conns)
    requires conns == Mcp.UserConns(s.reg, userId)
    requires Mcp.FindTool(Mcp.ToolsForUser(conns), name) == Some(first)
    requires DeviceSettled(s, userId, Mcp.ToolsForUser(conns)[first].deviceName)
    ensures Shows(s, userId, Mcp.ToolsForUser(conns)[first], l, a, local)
    ensures RoutedTo(s, userId, Mcp.CallTool(conns, name), l, a, local)
    ensures A.HandleToolCall(s.links[l].agent.servers, Mcp.CallTool(conns, name).toolName) == A.Forward(a, local.name)
      <==> Clean(s.links[l].agent.servers[a].name)
  {
    hide Inv, Settled, R.Ok, R.Registered, R.FindDevice, Mcp.CallTool, Mcp.FindTool, A.HandleToolCall;
    var k, j := Mcp.ListedHasOrigin(conns, |conns| > 1, Mcp.ToolsForUser(conns)[first]);
    hide Mcp.ToolsForUser;
    l := R.UserList(s.reg, userId)[k];
    ListedAreRegistered(s, userId);
    assert l in R.UserList(s.reg, userId);
    var device := SettledInSync(s, l);
    var b: nat;
    a, b := Mcp.CallReachesOriginIff(conns, name, first, k, j, device);
    local := device.listings[a].value[b];
    R.FindDeviceIffRegistered(s.reg, l, userId, conns[k].name);
  }

  /** MAIN RESULT: in any reachable state in which the device of the first entry of a name has
      settled, a call of that name is routed to the registered connection behind the entry, and its
      agent would forward it to the server and original tool behind the entry exactly when this
      server's name is clean. */
  lemma ListedToolIsReachedIff(t: Trace, n: nat, userId: string, name: string, first: nat)
    returns (l: LinkId, a: nat, local: A.LocalTool)
    requires IsRun(t) && n < |t.states|
    requires Mcp.FindTool(Mcp.ToolsForUser(ConnsAt(t, n, userId)), name) == Some(first)
    requires DeviceSettled(t.states[n], userId, Mcp.ToolsForUser(ConnsAt(t, n, userId))[first].deviceName)
    ensures var s, conns := t.states[n], ConnsAt(t, n, userId);
      && Shows(s, userId, Mcp.ToolsForUser(conns)[first], l, a, local)
      && RoutedTo(s, userId, Mcp.CallTool(conns, name), l, a, local)
      && (A.HandleToolCall(s.links[l].agent.servers, Mcp.CallTool(conns, name).toolName) == A.Forward(a, local.name)
          <==> Clean(s.links[l].agent.servers[a].name))
  {
    InvHolds(t, n);
    ListedAreRegistered(t.states[n], userId);
    l, a, local := ListedToolRouted(t.states[n], userId, ConnsAt(t, n, userId), name, first);
  }

  ghost predicate HasConnection(reg: R.Registry, userId: string) {
    exists l :: l in reg.conns && R.Registered(reg, l) && reg.conns[l].userId == userId
  }

  /** In every reachable state, `restart` asks for a restart, and `status` shows the devices, exactly if
      the user has a registered connection. */
  lemma MetaCallsIff(t: Trace, n: nat, userId: string)
    requires IsRun(t) && n < |t.states|
    ensures var conns := ConnsAt(t, n, userId);
      var connected := HasConnection(t.states[n].reg, userId);
      && (Mcp.CallTool(conns, "restart") == if connected then Mcp.RestartAll else Mcp.NothingToRestart)
      && (Mcp.CallTool(conns, "status") == if connected then Mcp.ShowStatus else Mcp.NoAgent)
  {
    var s, conns := t.states[n], ConnsAt(t, n, userId);
    InvHolds(t, n);
    ListedAreRegistered(s, userId);
    R.InListIffRegistered(s.reg, userId);
    Mcp.CallToolPartition(conns, "restart");
    Mcp.CallToolPartition(conns, "status");
    hide Mcp.CallTool, Inv;
    if |conns| > 0 {
      var l := R.UserList(s.reg, userId)[0];
      assert l in R.UserList(s.reg, userId);
    }
  }

  // ---- every listed tool was published by a configured server ----

  ghost predicate IsPublished(entries: seq<string>, tool: ToolDef) {
    exists server, local :: server in entries && tool == A.Published(A.LocalServer(server), local)
  }

  ghost predicate AllPublished(entries: seq<string>, tools: seq<ToolDef>) {
    forall tool :: tool in tools ==> IsPublished(entries, tool)
  }

  /** The agent's list and every list in flight. */
  ghost predicate LinkPublished(k: Link) {
    && AllPublished(k.agent.entries, k.agent.tools)
    && (forall m :: m in k.toRelay && m.ToolsMsg? ==> AllPublished(k.agent.entries, m.tools))
  }

  ghost predicate Published(s: State, l: LinkId) {
    && l in s.links && l in s.reg.conns
    && LinkPublished(s.links[l]) && AllPublished(s.links[l].agent.entries, s.reg.conns[l].tools)
  }

  lemma CollectedIsPublished(entries: seq<string>, servers: seq<A.LocalServer>, listings: seq<A.Listing>)
    requires |servers| == |listings| && forall s :: s in servers ==> s.name in entries
    ensures AllPublished(entries, A.Collected(servers, listings))
  {
    forall tool | tool in A.Collected(servers, listings) ensures IsPublished(entries, tool) {
      var i, j := A.CollectedHasOrigin(servers, listings, tool);
      assert servers[i] in servers && servers[i] == A.LocalServer(servers[i].name);
    }
  }

  lemma CollectingPublishes(a: Agent, run: nat, listings: seq<A.Listing>)
    requires AgentOk(a) && run in a.restarts && a.restarts[run].Collecting?
    requires |listings| == |a.restarts[run].servers|
    ensures AllPublished(a.entries, A.Collected(a.restarts[run].servers, listings))
  {
    assert RestartOk(a, run);
    CollectedIsPublished(a.entries, a.restarts[run].servers, listings);
  }

  lemma AgentStepKeepsLinkPublished(s: State, e: Event)
    requires Enabled(s, e) && AgentStep(e) && AgentOk(s.links[e.link].agent) && LinkPublished(s.links[e.link])
    ensures LinkPublished(AfterAgentStep(s, e))
    ensures AfterAgentStep(s, e).agent.entries == s.links[e.link].agent.entries
  {
    hide AllPublished, AgentOk, A.Collected;
    if e.ToolsCollected? {
      CollectingPublishes(s.links[e.link].agent, e.run, e.listings);
    }
  }

  lemma AgentStepKeepsPublished(s: State, e: Event)
    requires LinksOk(s) && Enabled(s, e) && AgentStep(e) && Published(s, e.link)
    ensures Published(Next(s, e), e.link)
  {
    hide AllPublished, LinkPublished, AfterAgentStep, AgentOk, SyncOk;
    AgentStepKeepsLinkPublished(s, e);
  }

  /** Other steps add no list to a link, and give the relay only the list that arrives. */
  lemma OtherStepKeepsPublished(s: State, e: Event, l: LinkId)
    requires Enabled(s, e) && !(AgentStep(e) && e.link == l) && Published(s, l)
    ensures Published(Next(s, e), l)
  {
    hide AllPublished, AfterAgentStep;
    if e.RelayReceives? {
      assert s.links[e.link].toRelay[0] in s.links[e.link].toRelay;
    }
  }

  lemma ConnectIsPublished(s: State, e: Event)
    requires Enabled(s, e) && e.Connect?
    ensures Published(Next(s, e), e.link)
  {
    A.SpawnedNames(e.entries, e.started);
    CollectedIsPublished(e.entries, A.Spawned(e.entries, e.started), e.listings);
    hide AllPublished, A.Spawned, A.Collected;
  }

  lemma OnlyConnectAddsLinks(s: State, e: Event, l: LinkId)
    requires Enabled(s, e) && l !in s.links && l in Next(s, e).links
    ensures e.Connect? && e.link == l
  {
    hide AfterAgentStep;
  }

  lemma {:induction false} PublishedHolds(t: Trace, n: nat, l: LinkId)
    requires IsRun(t) && n < |t.states| && l in t.states[n].links
    ensures Published(t.states[n], l)
  {
    hide Inv, LinksOk, Enabled, Next, Published;
    if n > 0 {
      var s, e := t.states[n - 1], t.events[n - 1];
      assert StepAt(t, n - 1);
      Reg.LinksOkHolds(t, n - 1);
      if l in s.links {
        PublishedHolds(t, n - 1, l);
        if AgentStep(e) && e.link == l { AgentStepKeepsPublished(s, e); } else { OtherStepKeepsPublished(s, e, l); }
      } else {
        OnlyConnectAddsLinks(s, e, l);
        ConnectIsPublished(s, e);
      }
    }
  }

  // ---- the call itself ----

  /** Event `i` is the request the relay sends for a call of a listed name. */
  ghost predicate CallsListed(t: Trace, i: nat, userId: string, name: string, first: nat, id: ReqId, params: Json)
    requires IsRun(t)
  {
    && i < |t.events|
    && var conns := ConnsAt(t, i, userId);
    && Mcp.FindTool(Mcp.ToolsForUser(conns), name) == Some(first)
    && var call := Mcp.CallTool(conns, name);
    && call.Route? && t.events[i] == SendRequest(userId, call.deviceName, call.toolName, params, id)
  }

  /** The first entry of the name shows tool `local` of the server `server` configured on connection
      `l` of the user, and the call was sent there under the name this server published. */
  ghost predicate CallStandsFor(t: Trace, i: nat, userId: string, name: string, first: nat, id: ReqId, params: Json,
                                l: LinkId, server: string, local: A.LocalTool)
    requires IsRun(t) && CallsListed(t, i, userId, name, first, id, params)
  {
    && var s := t.states[i];
    && l in R.UserList(s.reg, userId) && l in s.reg.conns && l in s.links && server in s.links[l].agent.entries
    && Mcp.ToolsForUser(ConnsAt(t, i, userId))[first] ==
         Mcp.Listed(s.reg.conns[l], |R.UserList(s.reg, userId)| > 1, A.Published(A.LocalServer(server), local))
    && Run.IssuedAt(t, i, l, id, Join(server, local.name), params)
  }

  /** With the `servers` it has at state `r`, the agent on `l` dispatches to the one of this name. */
  ghost predicate DispatchedTo(t: Trace, r: nat, l: LinkId, dispatch: A.Dispatch, server: string, tool: string) {
    && r < |t.states| && l in t.states[r].links
    && A.ForwardsTo(t.states[r].links[l].agent.servers, dispatch, server, tool)
  }

  /** At state `r` the `servers` of the agent on `l` have one of this name. */
  ghost predicate HasServerAt(t: Trace, r: nat, l: LinkId, server: string) {
    r < |t.states| && l in t.states[r].links && A.HasServer(t.states[r].links[l].agent.servers, server)
  }

  lemma ListedCallIssued(t: Trace, i: nat, userId: string, name: string, first: nat, id: ReqId, params: Json)
    returns (l: LinkId, server: string, local: A.LocalTool)
    requires IsRun(t) && CallsListed(t, i, userId, name, first, id, params)
    ensures CallStandsFor(t, i, userId, name, first, id, params, l, server, local)
  {
    var s, conns := t.states[i], ConnsAt(t, i, userId);
    InvHolds(t, i);
    ListedAreRegistered(s, userId);
    hide Inv, R.Ok, R.Registered, R.FindDevice;
    var k, j := Mcp.CallOfRouted(conns, name, first);
    l := R.UserList(s.reg, userId)[k];
    assert l in R.UserList(s.reg, userId);
    PublishedHolds(t, i, l);
    var tool := conns[k].tools[j];
    assert IsPublished(s.links[l].agent.entries, tool);
    server, local :| server in s.links[l].agent.entries && tool == A.Published(A.LocalServer(server), local);
    R.FindDeviceIffRegistered(s.reg, l, userId, conns[k].name);
  }

  /** MAIN RESULT (delivery): in whatever state it is sent and whatever happens in between, the request
      for a listed name is taken by the agent on the connection behind the first entry of that name and
      by no other, and it goes on to the server and original tool behind the entry exactly when that
      server's name is clean and `servers` has a server of this name when the agent takes the request. */
  lemma ListedCallIsDeliveredIff(t: Trace, i: nat, userId: string, name: string, first: nat, id: ReqId, params: Json,
                                 r: nat, taker: LinkId, tool: string, taken: Json)
    returns (l: LinkId, server: string, local: A.LocalTool)
    requires IsRun(t) && CallsListed(t, i, userId, name, first, id, params)
    requires Run.StartedAt(t, r, taker, id, tool, taken)
    ensures CallStandsFor(t, i, userId, name, first, id, params, l, server, local)
    ensures i < r && taker == l && taken == params && tool == Join(server, local.name)
    ensures DispatchedTo(t, r, l, A.HandleToolCall(t.states[r].links[l].agent.servers, tool), server, local.name)
      <==> Clean(server) && HasServerAt(t, r, l, server)
  {
    l, server, local := ListedCallIssued(t, i, userId, name, first, id, params);
    var sender := Run.SentBefore(t, r, taker, id, tool, taken);
    Run.IssuedOnce(t, i, sender, l, taker, id, Join(server, local.name), params, tool, taken);
    A.PublishedNameForwardsIff(t.states[r].links[l].agent.servers, server, local.name);
  }

  /** MAIN RESULT (round trip): if the call of a listed name settles other than by timeout, its outcome
      is that of a dispatch on the connection behind the first entry of the name; it comes from the
      server and original tool behind the entry exactly when that server's name is clean and `servers`
      had a server of this name when the agent took the call. */
  lemma ListedCallIsAnsweredIff(t: Trace, i: nat, userId: string, name: string, first: nat, id: ReqId, params: Json,
                                n: nat, settlement: C.Settlement)
    returns (l: LinkId, server: string, local: A.LocalTool, r: nat, c: nat, dispatch: A.Dispatch)
    requires IsRun(t) && CallsListed(t, i, userId, name, first, id, params)
    requires n < |t.states| && settlement in t.states[n].book.settled
    requires settlement.id == id && !settlement.outcome.TimedOut?
    ensures CallStandsFor(t, i, userId, name, first, id, params, l, server, local)
    ensures c < n && Run.Answers(t, l, id, settlement.outcome, i, r, c, Join(server, local.name), params, dispatch)
    ensures DispatchedTo(t, r, l, dispatch, server, local.name) <==> Clean(server) && HasServerAt(t, r, l, server)
  {
    var sender: nat, taker: LinkId, tool: string, taken: Json;
    taker, sender, r, c, tool, taken, dispatch := Run.SettledByItsOwnRun(t, n, settlement);
    l, server, local := ListedCallIsDeliveredIff(t, i, userId, name, first, id, params, r, taker, tool, taken);
    Run.IssuedOnce(t, i, sender, l, taker, id, tool, params, tool, taken);
  }
}
