/** The relay's MCP endpoint: listing the tools of a user's devices and routing a call by name. */
module RelayMcp {
  import opened Base
  import opened Wire
  import opened Names
  import opened Registries
  import AgentTools

  /** A tool as `getToolsForUser` returns it. */
  datatype ListedTool = ListedTool(
    name: string,
    description: string,
    inputSchema: Json,
    annotations: Option<Json>,
    deviceName: string)

  /** A tool as the MCP client sees it. */
  datatype McpTool = McpTool(name: string, description: string, inputSchema: Json, annotations: Option<Json>)

  function Listed(conn: Conn, multiDevice: bool, tool: ToolDef): ListedTool {
    var description := if tool.description.Some? then tool.description.value else "";
    ListedTool(
      if multiDevice then Join(conn.name, tool.name) else tool.name,
      if multiDevice then "[" + conn.name + "] " + description else description,
      tool.inputSchema,
      tool.annotations,
      conn.name)
  }

  function ListedAll(conn: Conn, multiDevice: bool): seq<ListedTool> {
    seq(|conn.tools|, i requires 0 <= i < |conn.tools| => Listed(conn, multiDevice, conn.tools[i]))
  }

  function ListedFrom(conns: seq<Conn>, multiDevice: bool): seq<ListedTool> {
    if conns == [] then []
    else
      var n := |conns| - 1;
      ListedFrom(conns[..n], multiDevice) + ListedAll(conns[n], multiDevice)
  }

  lemma ListedAllSnoc(conn: Conn, multiDevice: bool, j: nat)
    requires j < |conn.tools|
    ensures |ListedAll(conn, multiDevice)| == |conn.tools|
    ensures ListedAll(conn, multiDevice)[..j + 1] ==
      ListedAll(conn, multiDevice)[..j] + [Listed(conn, multiDevice, conn.tools[j])]
  {
  }

  lemma ListedFromSnoc(conns: seq<Conn>, multiDevice: bool, i: nat)
    requires i < |conns|
    ensures ListedFrom(conns[..i + 1], multiDevice)
      == ListedFrom(conns[..i], multiDevice) + ListedAll(conns[i], multiDevice)
  {
    assert conns[..i + 1][..i] == conns[..i];
  }

  /** The tools of a user's devices, device by device; names are prefixed only if there are several. */
  function ToolsForUser(conns: seq<Conn>): seq<ListedTool> {
    ListedFrom(conns, |conns| > 1)
  }

  function UserConns(reg: Registry, userId: string): (conns: seq<Conn>)
    requires forall l :: l in UserList(reg, userId) ==> l in reg.conns
  {
    var list := UserList(reg, userId);
    seq(|list|, i requires 0 <= i < |list| => reg.conns[list[i]])
  }

  // ---- ListTools ----

  function DeviceNames(conns: seq<Conn>): string {
    if conns == [] then ""
    else if |conns| == 1 then conns[0].name
    else conns[0].name + ", " + DeviceNames(conns[1..])
  }

  const NO_ARGUMENTS: Json := "{\"type\":\"object\",\"properties\":{}}"
  const STATUS_HINTS: Json := "{\"title\":\"Tunnel Status\",\"readOnlyHint\":true,\"openWorldHint\":false}"
  const RESTART_HINTS: Json :=
    "{\"title\":\"Restart Servers\",\"readOnlyHint\":false,\"idempotentHint\":true,\"openWorldHint\":false}"

  function StatusTool(conns: seq<Conn>): McpTool {
    McpTool(
      "status",
      if conns != [] then "Show tunnel status. Currently connected: " + DeviceNames(conns)
      else "Show tunnel status. No agent is currently connected.",
      NO_ARGUMENTS,
      Some(STATUS_HINTS))
  }

  const RESTART_TOOL := McpTool(
    "restart",
    "Restart all local MCP server processes on connected agents. "
    + "Useful if a server is stuck or you've changed its configuration.",
    NO_ARGUMENTS,
    Some(RESTART_HINTS))

  function ListedNames(tools: seq<ListedTool>): seq<string> {
    seq(|tools|, i requires 0 <= i < |tools| => tools[i].name)
  }

  function Shown(tool: ListedTool): McpTool {
    McpTool(tool.name, tool.description, tool.inputSchema, tool.annotations)
  }

  method ListTools(conns: seq<Conn>) returns (tools: seq<McpTool>)
    ensures |tools| == 2 + |ToolsForUser(conns)|
    ensures tools[0] == StatusTool(conns) && tools[1] == RESTART_TOOL
    ensures forall i :: 0 <= i < |tools| ==>
      tools[i].name == (["status", "restart"] + ListedNames(ToolsForUser(conns)))[i]
    ensures forall i :: 0 <= i < |ToolsForUser(conns)| ==>
      && tools[i + 2].name == ToolsForUser(conns)[i].name
      && tools[i + 2].description == ToolsForUser(conns)[i].description
      && tools[i + 2].inputSchema == ToolsForUser(conns)[i].inputSchema
      && tools[i + 2].annotations == ToolsForUser(conns)[i].annotations
  {
    tools := [StatusTool(conns), RESTART_TOOL];
    var agentTools := ToolsForUser(conns);
    for k := 0 to |agentTools|
      invariant |tools| == 2 + k
      invariant tools[0] == StatusTool(conns) && tools[1] == RESTART_TOOL
      invariant forall i :: 0 <= i < k ==> tools[i + 2] == Shown(agentTools[i])
    {
      tools := tools + [Shown(agentTools[k])];
    }
  }

  // ---- CallTool ----

  /** What the CallTool handler decides to do. */
  datatype Action =
    | ShowStatus
    | NoAgent
    | NothingToRestart
    | RestartAll
    | UnknownTool
    | Route(deviceName: string, toolName: string)

  /** `agentTools.find((t) => t.name === name)`. */
  function FindTool(tools: seq<ListedTool>, name: string): (r: Option<nat>)
    ensures r.Some? ==> r.value < |tools| && tools[r.value].name == name
    ensures r.Some? ==> forall i :: 0 <= i < r.value ==> tools[i].name != name
    ensures r.None? ==> forall i :: 0 <= i < |tools| ==> tools[i].name != name
  {
    FirstIndex(tools, (t: ListedTool) => t.name == name)
  }

  function CallTool(conns: seq<Conn>, name: string): Action {
    if name == "status" then
      if conns == [] then NoAgent else ShowStatus
    else if name == "restart" then
      if conns == [] then NothingToRestart else RestartAll
    else
      var tools := ToolsForUser(conns);
      var found := FindTool(tools, name);
      if found.None? then UnknownTool
      else
        var device := tools[found.value].deviceName;
        var prefix := device + "__";
        Route(device, if |conns| > 1 && prefix <= name then name[|device| + 2..] else name)
  }

  /** MAIN RESULT: what the handler does with a name, for every user and every name. A name is unknown
      exactly if `ListTools` did not return it; the meta tools act exactly if some device is connected;
      and exactly the other names that `ListTools` returned are routed. */
  lemma CallToolPartition(conns: seq<Conn>, name: string)
    ensures CallTool(conns, name) == UnknownTool <==>
      name !in ["status", "restart"] + ListedNames(ToolsForUser(conns))
    ensures CallTool(conns, name) == RestartAll <==> name == "restart" && |conns| > 0
    ensures CallTool(conns, name) == NothingToRestart <==> name == "restart" && |conns| == 0
    ensures CallTool(conns, name) == ShowStatus <==> name == "status" && |conns| > 0
    ensures CallTool(conns, name) == NoAgent <==> name == "status" && |conns| == 0
    ensures CallTool(conns, name).Route? <==>
      name in ListedNames(ToolsForUser(conns)) && name != "status" && name != "restart"
  {
    assert "status"[0] != "restart"[0];
    var tools, names := ToolsForUser(conns), ListedNames(ToolsForUser(conns));
    var found := FindTool(tools, name);
    assert found.Some? ==> names[found.value] == name;
    if i :| 0 <= i < |names| && names[i] == name { assert tools[i].name == name; }
  }

  // ---- what the client is shown ----

  /** Entry by entry, what the user is shown of tool `j` of device `k`. */
  ghost predicate ShowsEntry(conns: seq<Conn>, multiDevice: bool, tool: ListedTool, k: nat, j: nat) {
    && k < |conns| && j < |conns[k].tools|
    && var published := conns[k].tools[j];
    && var text := if published.description.Some? then published.description.value else "";
    && tool.name == (if multiDevice then conns[k].name + "__" + published.name else published.name)
    && tool.description == (if multiDevice then "[" + conns[k].name + "] " + text else text)
    && tool.inputSchema == published.inputSchema && tool.annotations == published.annotations
    && tool.deviceName == conns[k].name
  }

  /** `places` are the places of the published tools, each once and in order, and `tools` shows them. */
  ghost predicate ShowsAll(conns: seq<Conn>, multiDevice: bool, tools: seq<ListedTool>, places: seq<(nat, nat)>) {
    && |tools| == |places|
    && InOrder(places)
    && (forall k: nat, j: nat :: (k, j) in places <==> k < |conns| && j < |conns[k].tools|)
    && (forall p :: 0 <= p < |places| ==> ShowsEntry(conns, multiDevice, tools[p], places[p].0, places[p].1))
  }

  lemma {:induction false} ListedFromShowsAll(conns: seq<Conn>, multiDevice: bool) returns (places: seq<(nat, nat)>)
    ensures ShowsAll(conns, multiDevice, ListedFrom(conns, multiDevice), places)
  {
    if conns == [] {
      places := [];
    } else {
      var n := |conns| - 1;
      var before := ListedFromShowsAll(conns[..n], multiDevice);
      places := OneMoreDevice(conns, multiDevice, before);
    }
  }

  lemma OneMoreDevice(conns: seq<Conn>, multiDevice: bool, before: seq<(nat, nat)>) returns (places: seq<(nat, nat)>)
    requires conns != []
    requires ShowsAll(conns[..|conns| - 1], multiDevice, ListedFrom(conns[..|conns| - 1], multiDevice), before)
    ensures ShowsAll(conns, multiDevice, ListedFrom(conns, multiDevice), places)
  {
    var n := |conns| - 1;
    var c := conns[n];
    places := before + Row(n, |c.tools|);
    forall p | p in before ensures p.0 < n {
      assert (p.0, p.1) in before;
    }
    AppendRow(before, n, |c.tools|);
    hide InOrder;
    assert forall k: nat, j: nat :: (k, j) in before <==> k < n && j < |conns[k].tools|;
    var tools := ListedFrom(conns, multiDevice);
    forall p | 0 <= p < |places| ensures ShowsEntry(conns, multiDevice, tools[p], places[p].0, places[p].1) {
      if p < |before| {
        assert ShowsEntry(conns[..n], multiDevice, tools[p], places[p].0, places[p].1);
      }
    }
  }

  /** MAIN RESULT: the user is shown every tool that the connected devices have published, each once,
      device by device in order, and nothing else; schema and annotations as published, name and
      description with the device's name in front exactly if there are several devices. */
  lemma UserIsShownAll(conns: seq<Conn>) returns (places: seq<(nat, nat)>)
    ensures ShowsAll(conns, |conns| > 1, ToolsForUser(conns), places)
  {
    places := ListedFromShowsAll(conns, |conns| > 1);
  }

  /** The description of `status` names the connected devices, in order, with commas between. */
  lemma {:induction false} StatusNamesDevices(conns: seq<Conn>, c: Conn)
    ensures DeviceNames([c]) == c.name
    ensures conns != [] ==> DeviceNames(conns + [c]) == DeviceNames(conns) + ", " + c.name
    ensures StatusTool([]).description == "Show tunnel status. No agent is currently connected."
    ensures StatusTool(conns + [c]).description ==
      "Show tunnel status. Currently connected: " + DeviceNames(conns + [c])
  {
    if |conns| == 1 {
      assert (conns + [c])[1..] == [c];
    } else if |conns| > 1 {
      assert (conns + [c])[1..] == conns[1..] + [c];
      StatusNamesDevices(conns[1..], c);
      assert DeviceNames(conns + [c]) == conns[0].name + ", " + (DeviceNames(conns[1..]) + ", " + c.name);
    }
  }

  // ---- where a listed tool comes from ----

  /** Entry `i` of a listing shows tool `j` of device `k`. */
  ghost predicate ShowsTool(conns: seq<Conn>, multiDevice: bool, tool: ListedTool, k: nat, j: nat) {
    k < |conns| && j < |conns[k].tools| && tool == Listed(conns[k], multiDevice, conns[k].tools[j])
  }

  lemma {:induction false} ListedHasOrigin(conns: seq<Conn>, multiDevice: bool, tool: ListedTool)
    returns (k: nat, j: nat)
    requires tool in ListedFrom(conns, multiDevice)
    ensures ShowsTool(conns, multiDevice, tool, k, j)
  {
    var n := |conns| - 1;
    if tool in ListedFrom(conns[..n], multiDevice) {
      k, j := ListedHasOrigin(conns[..n], multiDevice, tool);
    } else {
      k := n;
      j :| 0 <= j < |ListedAll(conns[n], multiDevice)| && ListedAll(conns[n], multiDevice)[j] == tool;
    }
  }

  lemma RouteNamesPublished(conns: seq<Conn>, name: string, first: nat, k: nat, published: ToolDef)
    requires FindTool(ToolsForUser(conns), name) == Some(first) && k < |conns|
    requires name != "status" && name != "restart"
    requires ToolsForUser(conns)[first] == Listed(conns[k], |conns| > 1, published)
    ensures CallTool(conns, name) == Route(conns[k].name, published.name)
  {
    JoinIndexing(conns[k].name, published.name);
    assert Join(conns[k].name, published.name) == (conns[k].name + "__") + published.name;
  }

  /** The relay's half of the round trip: a call of a listed name is routed to the device whose entry
      comes first, under the name that device published. */
  lemma CallOfListedName(conns: seq<Conn>, name: string, first: nat) returns (k: nat, j: nat)
    requires FindTool(ToolsForUser(conns), name) == Some(first)
    requires name != "status" && name != "restart"
    ensures ShowsTool(conns, |conns| > 1, ToolsForUser(conns)[first], k, j)
    ensures CallTool(conns, name) == Route(conns[k].name, conns[k].tools[j].name)
  {
    k, j := ListedHasOrigin(conns, |conns| > 1, ToolsForUser(conns)[first]);
    RouteNamesPublished(conns, name, first, k, conns[k].tools[j]);
  }

  /** Whatever is routed is a listed name other than the meta names. */
  lemma CallOfRouted(conns: seq<Conn>, name: string, first: nat) returns (k: nat, j: nat)
    requires FindTool(ToolsForUser(conns), name) == Some(first) && CallTool(conns, name).Route?
    ensures ShowsTool(conns, |conns| > 1, ToolsForUser(conns)[first], k, j)
    ensures CallTool(conns, name) == Route(conns[k].name, conns[k].tools[j].name)
  {
    k, j := CallOfListedName(conns, name, first);
  }

  // ---- the whole round trip ----

  /** What one device runs: its servers and what each of them listed. */
  datatype Device = Device(servers: seq<AgentTools.LocalServer>, listings: seq<AgentTools.Listing>)

  /** The relay holds for this connection what collecting from the device's servers gave. */
  ghost predicate InSync(conn: Conn, device: Device) {
    && |device.servers| == |device.listings|
    && conn.tools == AgentTools.Collected(device.servers, device.listings)
    && AgentTools.NamesDistinct(device.servers)
  }

  /** Server `a`'s tool `b` on the device behind connection `k` is what the listed tool stands for. */
  ghost predicate StandsFor(conns: seq<Conn>, device: Device, tool: ListedTool, k: nat, a: nat, b: nat) {
    && k < |conns|
    && |device.servers| == |device.listings| && a < |device.servers|
    && device.listings[a].Some? && b < |device.listings[a].value|
    && tool == Listed(conns[k], |conns| > 1,
                      AgentTools.Published(device.servers[a], device.listings[a].value[b]))
  }

  /** No tool an agent publishes can hide, or be hidden by, the two meta tools. */
  lemma MetaToolsNotShadowed(conns: seq<Conn>, device: Device, tool: ListedTool, k: nat, a: nat, b: nat)
    requires StandsFor(conns, device, tool, k, a, b)
    ensures tool.name != "status" && tool.name != "restart"
  {
    var server, local := device.servers[a], device.listings[a].value[b];
    JoinIndexing(server.name, local.name);
    assert SepAt(AgentTools.Published(server, local).name, |server.name|);
    if |conns| > 1 {
      JoinIndexing(conns[k].name, AgentTools.Published(server, local).name);
      assert SepAt(tool.name, |conns[k].name|);
    }
    assert forall i :: !SepAt("status", i) && !SepAt("restart", i);
  }

  /** The call goes to connection `k`, whose agent forwards it to server `a` under the original name
      of that server's tool `b`. */
  ghost predicate Reaches(conns: seq<Conn>, device: Device, call: Action, k: nat, a: nat, b: nat)
    requires k < |conns| && |device.servers| == |device.listings| && a < |device.servers|
    requires device.listings[a].Some? && b < |device.listings[a].value|
  {
    && call.Route? && call.deviceName == conns[k].name
    && AgentTools.HandleToolCall(device.servers, call.toolName)
       == AgentTools.Forward(a, device.listings[a].value[b].name)
  }

  /** MAIN RESULT: the first list entry of the called name shows tool `j` of connection `k`; if that
      connection is in sync with its device, the call reaches the local server and the original tool
      name that produced the entry exactly when this one server's name is clean. */
  lemma CallReachesOriginIff(conns: seq<Conn>, name: string, first: nat, k: nat, j: nat, device: Device)
    returns (a: nat, b: nat)
    requires FindTool(ToolsForUser(conns), name) == Some(first)
    requires ShowsTool(conns, |conns| > 1, ToolsForUser(conns)[first], k, j) && InSync(conns[k], device)
    ensures StandsFor(conns, device, ToolsForUser(conns)[first], k, a, b)
    ensures CallTool(conns, name) ==
      Route(conns[k].name, Join(device.servers[a].name, device.listings[a].value[b].name))
    ensures Reaches(conns, device, CallTool(conns, name), k, a, b) <==> Clean(device.servers[a].name)
  {
    a, b := AgentTools.CollectedHasOrigin(device.servers, device.listings, conns[k].tools[j]);
    MetaToolsNotShadowed(conns, device, ToolsForUser(conns)[first], k, a, b);
    RouteNamesPublished(conns, name, first, k, conns[k].tools[j]);
    AgentTools.PublishedNameRoutesBackIff(device.servers, a, device.listings[a].value[b].name);
  }
}
