/** The agent's local servers: spawning them, collecting their tools, and routing a call to one. */
module AgentTools {
  import opened Base
  import opened Wire
  import opened Names

  /** A running local MCP server; its client and transport are outside the model. */
  datatype LocalServer = LocalServer(name: string)

  /** One tool as a local server lists it. */
  datatype LocalTool = LocalTool(
    name: string,
    description: Option<string>,
    inputSchema: Json,
    annotations: Option<Json>)

  /** What `listTools()` of one server did: its tools, or `None` if it threw. */
  type Listing = Option<seq<LocalTool>>

  // ---- spawnServers ----

  /** The servers that started, in configuration order; `started[i]` says whether entry `i` did. */
  function Spawned(entries: seq<string>, started: seq<bool>): seq<LocalServer>
    requires |entries| == |started|
  {
    if entries == [] then []
    else
      var n := |entries| - 1;
      Spawned(entries[..n], started[..n]) + (if started[n] then [LocalServer(entries[n])] else [])
  }

  method SpawnServers(entries: seq<string>, started: seq<bool>) returns (servers: seq<LocalServer>)
    requires |entries| == |started|
    ensures servers == Spawned(entries, started)
  {
    servers := [];
    for i := 0 to |entries|
      invariant servers == Spawned(entries[..i], started[..i])
    {
      assert entries[..i + 1][..i] == entries[..i] && started[..i + 1][..i] == started[..i];
      if started[i] {
        servers := servers + [LocalServer(entries[i])];
      }
    }
    assert entries[..|entries|] == entries && started[..|started|] == started;
  }

  ghost predicate NamesDistinct(servers: seq<LocalServer>) {
    forall i, j :: 0 <= i < j < |servers| ==> servers[i].name != servers[j].name
  }

  /** The keys of a configuration object are distinct, so running servers have distinct names. */
  lemma {:induction false} SpawnedNames(entries: seq<string>, started: seq<bool>)
    requires |entries| == |started| && Distinct(entries)
    ensures NamesDistinct(Spawned(entries, started))
    ensures forall s :: s in Spawned(entries, started) ==> s.name in entries
  {
    if entries != [] {
      var n := |entries| - 1;
      SpawnedNames(entries[..n], started[..n]);
      var before := Spawned(entries[..n], started[..n]);
      forall i | 0 <= i < |before| ensures before[i].name != entries[n] {
        assert before[i] in before;
      }
    }
  }

  /** `which` are the indices of the entries that started, each once and in order, and `servers` are
      those entries. */
  ghost predicate AreStarted(entries: seq<string>, started: seq<bool>, servers: seq<LocalServer>, which: seq<nat>)
    requires |entries| == |started|
  {
    && |servers| == |which|
    && (forall p, q :: 0 <= p < q < |which| ==> which[p] < which[q])
    && (forall i: nat :: i in which <==> i < |entries| && started[i])
    && (forall p :: 0 <= p < |which| ==> which[p] < |entries| && servers[p].name == entries[which[p]])
  }

  /** MAIN RESULT: every entry that starts becomes a server, each once and in configuration order, and
      nothing else does. */
  lemma {:induction false} SpawnedExactly(entries: seq<string>, started: seq<bool>) returns (which: seq<nat>)
    requires |entries| == |started|
    ensures AreStarted(entries, started, Spawned(entries, started), which)
  {
    if entries == [] {
      which := [];
    } else {
      var n := |entries| - 1;
      var before := SpawnedExactly(entries[..n], started[..n]);
      which := OneMoreEntry(entries, started, before);
    }
  }

  lemma OneMoreEntry(entries: seq<string>, started: seq<bool>, before: seq<nat>) returns (which: seq<nat>)
    requires |entries| == |started| && entries != []
    requires var n := |entries| - 1; AreStarted(entries[..n], started[..n], Spawned(entries[..n], started[..n]), before)
    ensures AreStarted(entries, started, Spawned(entries, started), which)
  {
    var n := |entries| - 1;
    var earlier := Spawned(entries[..n], started[..n]);
    var servers := Spawned(entries, started);
    assert servers == earlier + (if started[n] then [LocalServer(entries[n])] else []);
    hide Spawned;
    assert forall p :: 0 <= p < |before| ==> before[p] in before && before[p] < n;
    which := before + (if started[n] then [n] else []);
    forall i: nat ensures i in which <==> i < |entries| && started[i] {
      assert i < n ==> started[..n][i] == started[i];
    }
    forall p | 0 <= p < |which| ensures which[p] < |entries| && servers[p].name == entries[which[p]] {
      if p < |before| { assert servers[p] == earlier[p] && entries[..n][before[p]] == entries[before[p]]; }
    }
  }

  // ---- collectTools ----

  function Published(server: LocalServer, tool: LocalTool): ToolDef {
    ToolDef(
      Join(server.name, tool.name),
      Some("[" + server.name + "] " + (if tool.description.Some? then tool.description.value else "")),
      tool.inputSchema,
      tool.annotations)
  }

  function PublishedAll(server: LocalServer, tools: seq<LocalTool>): seq<ToolDef> {
    seq(|tools|, i requires 0 <= i < |tools| => Published(server, tools[i]))
  }

  function PublishedListing(server: LocalServer, listing: Listing): seq<ToolDef> {
    if listing.Some? then PublishedAll(server, listing.value) else []
  }

  /** The published tools, server by server; a server whose listing failed contributes none. */
  function Collected(servers: seq<LocalServer>, listings: seq<Listing>): seq<ToolDef>
    requires |servers| == |listings|
  {
    if servers == [] then []
    else
      var n := |servers| - 1;
      Collected(servers[..n], listings[..n]) + PublishedListing(servers[n], listings[n])
  }

  method CollectTools(servers: seq<LocalServer>, listings: seq<Listing>) returns (tools: seq<ToolDef>)
    requires |servers| == |listings|
    ensures tools == Collected(servers, listings)
  {
    tools := [];
    for i := 0 to |servers|
      invariant tools == Collected(servers[..i], listings[..i])
    {
      assert servers[..i + 1][..i] == servers[..i] && listings[..i + 1][..i] == listings[..i];
      ghost var before := tools;
      if listings[i].Some? {
        var local := listings[i].value;
        for j := 0 to |local|
          invariant tools == before + PublishedAll(servers[i], local)[..j]
        {
          tools := tools + [Published(servers[i], local[j])];
        }
      }
    }
    assert servers[..|servers|] == servers && listings[..|listings|] == listings;
  }

  /** Entry by entry, what is published of tool `j` of server `i`. */
  ghost predicate PublishesEntry(servers: seq<LocalServer>, listings: seq<Listing>, tool: ToolDef, i: nat, j: nat) {
    && |servers| == |listings| && i < |servers| && listings[i].Some? && j < |listings[i].value|
    && var local := listings[i].value[j];
    && tool.name == servers[i].name + "__" + local.name
    && tool.description ==
         Some("[" + servers[i].name + "] " + if local.description.Some? then local.description.value else "")
    && tool.inputSchema == local.inputSchema && tool.annotations == local.annotations
  }

  /** `places` are the places of the listed tools, each once and in order, and `tools` publishes them. */
  ghost predicate PublishesAll(servers: seq<LocalServer>, listings: seq<Listing>, tools: seq<ToolDef>,
                               places: seq<(nat, nat)>)
  {
    && |servers| == |listings| && |tools| == |places|
    && InOrder(places)
    && (forall i: nat, j: nat :: (i, j) in places <==>
          i < |listings| && listings[i].Some? && j < |listings[i].value|)
    && (forall p :: 0 <= p < |places| ==> PublishesEntry(servers, listings, tools[p], places[p].0, places[p].1))
  }

  /** MAIN RESULT: every tool of every server that could be listed is published, each once, server by
      server in order, with its schema and annotations unchanged, and nothing else is. */
  lemma {:induction false} CollectedExactly(servers: seq<LocalServer>, listings: seq<Listing>)
    returns (places: seq<(nat, nat)>)
    requires |servers| == |listings|
    ensures PublishesAll(servers, listings, Collected(servers, listings), places)
  {
    if servers == [] {
      places := [];
    } else {
      var n := |servers| - 1;
      var before := CollectedExactly(servers[..n], listings[..n]);
      places := OneMoreServer(servers, listings, before);
    }
  }

  lemma OneMoreServer(servers: seq<LocalServer>, listings: seq<Listing>, before: seq<(nat, nat)>)
    returns (places: seq<(nat, nat)>)
    requires |servers| == |listings| && servers != []
    requires var n := |servers| - 1;
      PublishesAll(servers[..n], listings[..n], Collected(servers[..n], listings[..n]), before)
    ensures PublishesAll(servers, listings, Collected(servers, listings), places)
  {
    var n := |servers| - 1;
    var local := if listings[n].Some? then listings[n].value else [];
    places := before + Row(n, |local|);
    forall p | p in before ensures p.0 < n {
      assert (p.0, p.1) in before;
    }
    AppendRow(before, n, |local|);
    EarlierEntries(servers, listings, before);
    LastEntries(servers, listings);
    var tools := Collected(servers, listings);
    hide Collected, PublishesEntry, InOrder;
    PlacesOfAll(listings, before, places);
    forall p | 0 <= p < |places| ensures PublishesEntry(servers, listings, tools[p], places[p].0, places[p].1) {
      if p >= |before| { assert places[p] == (n, p - |before|); }
    }
  }

  lemma PlacesOfAll(listings: seq<Listing>, before: seq<(nat, nat)>, places: seq<(nat, nat)>)
    requires listings != []
    requires forall i: nat, j: nat :: (i, j) in before <==>
      i < |listings| - 1 && listings[..|listings| - 1][i].Some? && j < |listings[..|listings| - 1][i].value|
    requires forall i: nat, j: nat :: (i, j) in places <==>
      (i, j) in before || (i == |listings| - 1 && listings[i].Some? && j < |listings[i].value|)
    ensures forall i: nat, j: nat :: (i, j) in places <==>
      i < |listings| && listings[i].Some? && j < |listings[i].value|
  {
    forall i: nat, j: nat
      ensures (i, j) in places <==> i < |listings| && listings[i].Some? && j < |listings[i].value|
    {
      assert i < |listings| - 1 ==> listings[..|listings| - 1][i] == listings[i];
      assert (i, j) in before <==> (i < |listings| - 1 && listings[i].Some? && j < |listings[i].value|);
    }
  }

  lemma EarlierEntries(servers: seq<LocalServer>, listings: seq<Listing>, before: seq<(nat, nat)>)
    requires |servers| == |listings| && servers != []
    requires var n := |servers| - 1;
      PublishesAll(servers[..n], listings[..n], Collected(servers[..n], listings[..n]), before)
    ensures |before| <= |Collected(servers, listings)|
    ensures forall p :: 0 <= p < |before| ==>
      PublishesEntry(servers, listings, Collected(servers, listings)[p], before[p].0, before[p].1)
  {
    var n := |servers| - 1;
    var earlier := Collected(servers[..n], listings[..n]);
    forall p | 0 <= p < |before|
      ensures PublishesEntry(servers, listings, Collected(servers, listings)[p], before[p].0, before[p].1)
    {
      assert PublishesEntry(servers[..n], listings[..n], earlier[p], before[p].0, before[p].1);
    }
  }

  lemma LastEntries(servers: seq<LocalServer>, listings: seq<Listing>)
    requires |servers| == |listings| && servers != []
    ensures var n := |servers| - 1; var local := if listings[n].Some? then listings[n].value else [];
      var earlier := |Collected(servers[..n], listings[..n])|;
      && |Collected(servers, listings)| == earlier + |local|
      && forall p :: earlier <= p < |Collected(servers, listings)| ==>
        PublishesEntry(servers, listings, Collected(servers, listings)[p], n, p - earlier)
  {
    var n := |servers| - 1;
    var local := if listings[n].Some? then listings[n].value else [];
    var earlier, all := Collected(servers[..n], listings[..n]), Collected(servers, listings);
    assert all == earlier + PublishedListing(servers[n], listings[n]);
    hide Collected;
    forall p | |earlier| <= p < |all| ensures PublishesEntry(servers, listings, all[p], n, p - |earlier|) {
      assert all[p] == Published(servers[n], local[p - |earlier|]);
    }
  }

  /** `tools` is what collecting from exactly these servers gives, for some outcome of the listings. */
  ghost predicate CollectedFrom(tools: seq<ToolDef>, servers: seq<LocalServer>) {
    exists listings :: |listings| == |servers| && tools == Collected(servers, listings)
  }

  /** Entry `k` of a collected list is the published form of a tool of one of the servers. */
  ghost predicate Origin(servers: seq<LocalServer>, listings: seq<Listing>, tool: ToolDef, i: nat, j: nat) {
    && |servers| == |listings|
    && i < |servers| && listings[i].Some? && j < |listings[i].value|
    && tool == Published(servers[i], listings[i].value[j])
  }

  lemma {:induction false} CollectedHasOrigin(servers: seq<LocalServer>, listings: seq<Listing>, tool: ToolDef)
    returns (i: nat, j: nat)
    requires |servers| == |listings| && tool in Collected(servers, listings)
    ensures Origin(servers, listings, tool, i, j)
  {
    var n := |servers| - 1;
    if tool in Collected(servers[..n], listings[..n]) {
      i, j := CollectedHasOrigin(servers[..n], listings[..n], tool);
    } else {
      i := n;
      j :| 0 <= j < |PublishedListing(servers[n], listings[n])|
        && PublishedListing(servers[n], listings[n])[j] == tool;
    }
  }

  // ---- handleToolCall ----

  /** What the agent does with a call before it waits for anything. */
  datatype Dispatch = Fail(message: string) | Forward(server: nat, tool: string)

  /** `servers.find((s) => s.name === name)`. */
  function FindServer(servers: seq<LocalServer>, name: string): (r: Option<nat>)
    ensures r.Some? ==> r.value < |servers| && servers[r.value].name == name
    ensures r.Some? ==> forall i :: 0 <= i < r.value ==> servers[i].name != name
    ensures r.None? ==> forall i :: 0 <= i < |servers| ==> servers[i].name != name
  {
    FirstIndex(servers, (s: LocalServer) => s.name == name)
  }

  function HandleToolCall(servers: seq<LocalServer>, toolName: string): Dispatch {
    var i := IndexOfSep(toolName);
    if i == -1 then Fail("Unknown tool: " + toolName)
    else
      var server := FindServer(servers, toolName[..i]);
      if server.None? then Fail("Unknown server: " + toolName[..i])
      else Forward(server.value, toolName[i + 2..])
  }

  /** `name` is `server`, the separator and `tool`, and no separator comes earlier in it. */
  ghost predicate SplitsInto(name: string, server: string, tool: string) {
    name == server + "__" + tool && forall i :: 0 <= i < |server| ==> !SepAt(name, i)
  }

  /** MAIN RESULT: where a call of any name goes. It is forwarded exactly to the first server named by
      what stands before the first separator, for the tool named by what stands after it; without a
      separator the tool is unknown, and without such a server the server is. */
  lemma HandleToolCallIff(servers: seq<LocalServer>, name: string, k: nat, tool: string)
    ensures HandleToolCall(servers, name) == Forward(k, tool) <==>
      && k < |servers| && SplitsInto(name, servers[k].name, tool)
      && forall i :: 0 <= i < k ==> servers[i].name != servers[k].name
    ensures HandleToolCall(servers, name) == Fail("Unknown tool: " + name) <==> forall i :: !SepAt(name, i)
    ensures (exists message :: HandleToolCall(servers, name) == Fail(message)) <==>
      forall server, rest :: SplitsInto(name, server, rest) ==> forall s :: s in servers ==> s.name != server
    ensures forall server, rest :: SplitsInto(name, server, rest) ==>
      (HandleToolCall(servers, name) == Fail("Unknown server: " + server) <==>
        forall s :: s in servers ==> s.name != server)
  {
    var at := IndexOfSep(name);
    forall server, rest | SplitsInto(name, server, rest)
      ensures at == |server| && name[..at] == server && name[at + 2..] == rest
    {
      JoinIndexing(server, rest);
      assert SepAt(name, |server|);
    }
    if at != -1 {
      assert name == name[..at] + "__" + name[at + 2..];
      assert SplitsInto(name, name[..at], name[at + 2..]);
      assert ("Unknown server: " + name[..at])[8] == 's' && ("Unknown tool: " + name)[8] == 't';
    }
  }

  /** A published name reaches the server and tool it was made from, for every tool name, exactly
      when the server's name is clean. */
  lemma PublishedNameRoutesBackIff(servers: seq<LocalServer>, i: nat, tool: string)
    requires NamesDistinct(servers) && i < |servers|
    ensures HandleToolCall(servers, Join(servers[i].name, tool)) == Forward(i, tool) <==> Clean(servers[i].name)
  {
    var name := Join(servers[i].name, tool);
    SplitRecoversIff(servers[i].name, tool);
    JoinIndexing(servers[i].name, tool);
    assert SepAt(name, |servers[i].name|);
    if HandleToolCall(servers, name) == Forward(i, tool) {
      var at := IndexOfSep(name);
      assert name[..at] == servers[i].name;
    }
  }

  ghost predicate HasServer(servers: seq<LocalServer>, name: string) {
    exists s :: s in servers && s.name == name
  }

  /** The call goes on to the server of this name, for this tool. */
  ghost predicate ForwardsTo(servers: seq<LocalServer>, dispatch: Dispatch, name: string, tool: string) {
    && dispatch.Forward? && dispatch.tool == tool
    && dispatch.server < |servers| && servers[dispatch.server].name == name
  }

  /** Whatever `servers` holds when the call arrives, it goes on to the server and tool its name was
      made from exactly when that server's name is clean and `servers` has a server of this name. */
  lemma PublishedNameForwardsIff(servers: seq<LocalServer>, name: string, tool: string)
    ensures ForwardsTo(servers, HandleToolCall(servers, Join(name, tool)), name, tool)
      <==> Clean(name) && HasServer(servers, name)
  {
    SplitRecoversIff(name, tool);
    JoinIndexing(name, tool);
    assert SepAt(Join(name, tool), |name|);
  }
}
