/** The relay's connection manager: mutable connection objects behind per-user lists, and a table of
    pending calls with their timeouts. Every method is tied to the registry and call-book values. */
module ConnectionManagers {
  import opened Base
  import opened Wire
  import R = Registries
  import C = Calls
  import Mcp = RelayMcp

  /** The relay's end of one accepted socket. */
  class WebSocket {
    const link: LinkId
    var sent: seq<WsMessage>
    var terminated: bool

    constructor (link: LinkId)
      ensures this.link == link && sent == [] && !terminated
    {
      this.link := link;
      sent, terminated := [], false;
    }

    method Send(msg: WsMessage)
      modifies this`sent
      ensures sent == old(sent) + [msg]
    {
      sent := sent + [msg];
    }

    method Terminate()
      modifies this`terminated
      ensures terminated
    {
      terminated := true;
    }
  }

  class AgentConnection {
    const ws: WebSocket
    const userId: string
    const name: string
    const connectedAt: int
    var tools: seq<ToolDef>
    var lastPingAt: int

    constructor (ws: WebSocket, userId: string, name: string, now: int)
      ensures this.ws == ws && this.userId == userId && this.name == name && connectedAt == now
      ensures tools == [] && lastPingAt == now
    {
      this.ws, this.userId, this.name, connectedAt := ws, userId, name, now;
      tools, lastPingAt := [], now;
    }

    function Snapshot(): R.Conn
      reads `tools, `lastPingAt
    {
      R.Conn(userId, name, connectedAt, tools, lastPingAt)
    }
  }

  function Links(conns: seq<AgentConnection>): seq<LinkId> {
    seq(|conns|, i requires 0 <= i < |conns| => conns[i].ws.link)
  }

  lemma LinksCons(conns: seq<AgentConnection>)
    requires conns != []
    ensures Links(conns) == [conns[0].ws.link] + Links(conns[1..])
  {
  }

  lemma LinksSnoc(conns: seq<AgentConnection>, conn: AgentConnection)
    ensures Links(conns + [conn]) == Links(conns) + [conn.ws.link]
  {
  }

  /** `existing.filter((c) => c.name !== name)`. */
  function OthersNamed(conns: seq<AgentConnection>, name: string): seq<AgentConnection> {
    if conns == [] then []
    else (if conns[0].name == name then [] else [conns[0]]) + OthersNamed(conns[1..], name)
  }

  /** `existing.filter((c) => c !== conn)`. */
  function OthersThan(conns: seq<AgentConnection>, conn: AgentConnection): seq<AgentConnection> {
    if conns == [] then []
    else (if conns[0] == conn then [] else [conns[0]]) + OthersThan(conns[1..], conn)
  }

  /** `conns.find((c) => c.name === name)`. */
  function FirstNamed(conns: seq<AgentConnection>, name: string): Option<AgentConnection> {
    if conns == [] then None
    else if conns[0].name == name then Some(conns[0])
    else FirstNamed(conns[1..], name)
  }

  function LinkOf(conn: Option<AgentConnection>): Option<LinkId> {
    if conn.Some? then Some(conn.value.ws.link) else None
  }

  function SentIf(sends: bool, msg: WsMessage): seq<WsMessage> {
    if sends then [msg] else []
  }

  /** The connection object is the one made for its socket. */
  ghost predicate Known(accepted: map<LinkId, AgentConnection>, conn: AgentConnection) {
    conn.ws.link in accepted && accepted[conn.ws.link] == conn
  }

  ghost predicate AllKnown(accepted: map<LinkId, AgentConnection>, list: seq<AgentConnection>) {
    forall i :: 0 <= i < |list| ==> Known(accepted, list[i])
  }

  /** `lists` says by link what the users' lists of objects say. */
  ghost predicate ListsMatch(accepted: map<LinkId, AgentConnection>,
                             connections: map<string, seq<AgentConnection>>,
                             lists: map<string, seq<LinkId>>) {
    && (forall u :: u in lists <==> u in connections)
    && (forall u :: u in connections ==> AllKnown(accepted, connections[u]) && lists[u] == Links(connections[u]))
  }

  lemma ListOf(accepted: map<LinkId, AgentConnection>, connections: map<string, seq<AgentConnection>>,
               lists: map<string, seq<LinkId>>, userId: string)
    requires ListsMatch(accepted, connections, lists)
    ensures userId in lists <==> userId in connections
    ensures userId in connections ==> AllKnown(accepted, connections[userId])
    ensures userId in connections ==> lists[userId] == Links(connections[userId])
  {
  }

  lemma ListKeys(accepted: map<LinkId, AgentConnection>, connections: map<string, seq<AgentConnection>>,
                 lists: map<string, seq<LinkId>>)
    requires ListsMatch(accepted, connections, lists)
    ensures lists.Keys == connections.Keys
  {
  }

  lemma ListsMatchAccept(accepted: map<LinkId, AgentConnection>, connections: map<string, seq<AgentConnection>>,
                         lists: map<string, seq<LinkId>>, conn: AgentConnection)
    requires ListsMatch(accepted, connections, lists) && conn.ws.link !in accepted
    ensures ListsMatch(accepted[conn.ws.link := conn], connections, lists)
  {
    forall u | u in connections ensures AllKnown(accepted[conn.ws.link := conn], connections[u]) {
      assert forall i :: 0 <= i < |connections[u]| ==> Known(accepted, connections[u][i]);
    }
  }

  lemma AllKnownSnoc(accepted: map<LinkId, AgentConnection>, list: seq<AgentConnection>, conn: AgentConnection)
    requires AllKnown(accepted, list) && conn.ws.link !in accepted
    ensures AllKnown(accepted[conn.ws.link := conn], list + [conn])
  {
    assert forall i :: 0 <= i < |list| ==> Known(accepted, list[i]);
  }

  lemma ListsMatchSet(accepted: map<LinkId, AgentConnection>, connections: map<string, seq<AgentConnection>>,
                      lists: map<string, seq<LinkId>>, userId: string, list: seq<AgentConnection>)
    requires ListsMatch(accepted, connections, lists) && AllKnown(accepted, list)
    ensures ListsMatch(accepted, connections[userId := list], lists[userId := Links(list)])
    ensures ListsMatch(accepted, connections - {userId}, lists - {userId})
  {
  }

  class ConnectionManager {
    var connections: map<string, seq<AgentConnection>>
    var pending: map<ReqId, C.TimerId>

    // The runtime's timeouts, and the calls of resolve and reject made so far.
    var timers: map<C.TimerId, C.Timer>
    var nextTimer: C.TimerId
    var settled: seq<C.Settlement>

    // Every connection object ever made, by its socket; every id ever handed out; and the registry
    // value these objects and `connections` stand for.
    ghost var accepted: map<LinkId, AgentConnection>
    ghost var issued: set<ReqId>
    ghost var reg: R.Registry

    // The frame: the connection objects and their sockets.
    ghost var objects: set<AgentConnection>
    ghost var sockets: set<WebSocket>

    ghost function Book(): C.Book
      reads `pending, `timers, `nextTimer, `settled, `issued
    {
      C.Book(pending, timers, nextTimer, settled, issued)
    }

    /** `conns` says what the connection objects say. */
    ghost predicate ObjectsMatch(conns: map<LinkId, R.Conn>)
      reads `accepted, `objects, `sockets, objects
    {
      && (forall l :: l in conns <==> l in accepted)
      && (forall l :: l in accepted ==> accepted[l] in objects && accepted[l].ws in sockets)
      && (forall l :: l in accepted ==> accepted[l].ws.link == l && conns[l] == accepted[l].Snapshot())
    }

    ghost predicate Valid()
      reads this, objects
    {
      ObjectsMatch(reg.conns) && ListsMatch(accepted, connections, reg.connections) && R.Ok(reg) && C.Ok(Book())
    }

    constructor ()
      ensures Valid() && reg == R.EMPTY && Book() == C.NO_CALLS && accepted == map[]
    {
      connections, pending, timers, nextTimer, settled := map[], map[], map[], 0, [];
      accepted, issued, reg := map[], {}, R.EMPTY;
      objects, sockets := {}, {};
    }

    lemma {:induction false} FilteredByName(list: seq<AgentConnection>, name: string)
      requires ObjectsMatch(reg.conns) && AllKnown(accepted, list)
      ensures Links(OthersNamed(list, name)) == Without(Links(list), R.NamedLinks(reg, name))
      ensures AllKnown(accepted, OthersNamed(list, name))
    {
      if list != [] {
        var rest := OthersNamed(list[1..], name);
        FilteredByName(list[1..], name);
        LinksCons(list);
        assert Known(accepted, list[0]);
        if list[0].name != name {
          LinksCons([list[0]] + rest);
        }
      }
    }

    lemma {:induction false} FilteredByIdentity(list: seq<AgentConnection>, conn: AgentConnection)
      requires ObjectsMatch(reg.conns) && AllKnown(accepted, list) && Known(accepted, conn)
      ensures Links(OthersThan(list, conn)) == Without(Links(list), {conn.ws.link})
      ensures AllKnown(accepted, OthersThan(list, conn))
    {
      if list != [] {
        var rest := OthersThan(list[1..], conn);
        FilteredByIdentity(list[1..], conn);
        LinksCons(list);
        assert Known(accepted, list[0]);
        if list[0] != conn {
          LinksCons([list[0]] + rest);
        }
      }
    }

    lemma FoundByName(list: seq<AgentConnection>, name: string)
      requires ObjectsMatch(reg.conns) && AllKnown(accepted, list)
      ensures FirstNamed(list, name).Some? ==> Known(accepted, FirstNamed(list, name).value)
      ensures R.FindNamed(reg, Links(list), name) == LinkOf(FirstNamed(list, name))
    {
      if list != [] {
        FoundByName(list[1..], name);
        assert Links(list)[1..] == Links(list[1..]);
        assert Known(accepted, list[0]);
      }
    }

    /** The first half of `addConnection`: the connection object exists and its handlers are
        installed, but no list refers to it yet. */
    method Accept(ws: WebSocket, userId: string, name: string, now: int) returns (conn: AgentConnection)
      requires ObjectsMatch(reg.conns) && ws.link !in accepted
      modifies `accepted, `reg, `objects, `sockets
      ensures ObjectsMatch(reg.conns) && fresh(conn) && conn.ws == ws && accepted == old(accepted)[ws.link := conn]
      ensures reg == old(reg).(conns := old(reg).conns[ws.link := R.Conn(userId, name, now, [], now)])
    {
      conn := new AgentConnection(ws, userId, name, now);
      accepted := accepted[ws.link := conn];
      objects, sockets := objects + {conn}, sockets + {ws};
      reg := reg.(conns := reg.conns[ws.link := R.Conn(userId, name, now, [], now)]);
    }

    lemma FilteredList(userId: string, name: string)
      requires Valid()
      ensures var filtered := OthersNamed(GetConnectionsForUser(userId), name);
        Links(filtered) == Without(R.UserList(reg, userId), R.NamedLinks(reg, name)) && AllKnown(accepted, filtered)
      ensures forall l :: l in reg.conns <==> l in accepted
    {
      hide R.Ok, C.Ok, ListsMatch;
      ListOf(accepted, connections, reg.connections, userId);
      FilteredByName(GetConnectionsForUser(userId), name);
    }

    method AddConnection(ws: WebSocket, userId: string, name: string, now: int) returns (conn: AgentConnection)
      requires Valid() && ws.link !in accepted
      modifies `connections, `accepted, `reg, `objects, `sockets
      ensures Valid() && fresh(conn) && conn.ws == ws && accepted == old(accepted)[ws.link := conn]
      ensures reg == R.AddConnection(old(reg), ws.link, userId, name, now)
    {
      hide R.Ok, C.Ok, ListsMatch, ObjectsMatch, AllKnown;
      var existing := GetConnectionsForUser(userId);
      var filtered := OthersNamed(existing, name);
      FilteredList(userId, name);
      R.AddConnectionKeepsOk(reg, ws.link, userId, name, now);
      conn := Accept(ws, userId, name, now);
      ListsMatchAccept(old(accepted), connections, reg.connections, conn);
      LinksSnoc(filtered, conn);
      AllKnownSnoc(old(accepted), filtered, conn);
      ListsMatchSet(accepted, connections, reg.connections, userId, filtered + [conn]);
      connections := connections[userId := filtered + [conn]];
      reg := R.AddConnection(old(reg), ws.link, userId, name, now);
    }

    method RemoveConnection(conn: AgentConnection)
      requires Valid() && Known(accepted, conn)
      modifies this`connections, this`reg
      ensures Valid()
      ensures reg == R.RemoveConnection(old(reg), conn.ws.link)
    {
      hide R.Ok, C.Ok, ListsMatch;
      R.RemoveConnectionKeepsOk(reg, conn.ws.link);
      ListOf(accepted, connections, reg.connections, conn.userId);
      if conn.userId !in connections {
        return;
      }
      var filtered := OthersThan(connections[conn.userId], conn);
      FilteredByIdentity(connections[conn.userId], conn);
      ListsMatchSet(accepted, connections, reg.connections, conn.userId, filtered);
      reg := R.RemoveConnection(reg, conn.ws.link);
      if |filtered| == 0 {
        connections := connections - {conn.userId};
      } else {
        connections := connections[conn.userId := filtered];
      }
    }

    /** The `ping` handler of the connection's socket. */
    method OnPing(conn: AgentConnection, now: int)
      requires Valid() && Known(accepted, conn)
      modifies conn`lastPingAt, this`reg
      ensures Valid()
      ensures reg == R.ReceivePing(old(reg), conn.ws.link, now)
    {
      hide R.Ok, C.Ok, ListsMatch;
      R.ReceiveKeepsOk(reg, conn.ws.link, [], now);
      conn.lastPingAt := now;
      reg := R.ReceivePing(reg, conn.ws.link, now);
      assert ObjectsMatch(reg.conns);
      hide ObjectsMatch;
    }

    method HandleMessage(conn: AgentConnection, msg: WsMessage)
      requires Valid() && Known(accepted, conn)
      modifies `pending, `timers, `settled, `reg, conn`tools
      ensures Valid()
      ensures reg == R.ReceiveMessage(old(reg), conn.ws.link, msg)
      ensures Book() == C.ReceiveMessage(old(Book()), msg)
    {
      hide R.Ok, C.Ok, ListsMatch, ObjectsMatch;
      if msg.ToolsMsg? {
        ReplaceTools(conn, msg.tools);
        return;
      }
      if msg.ResponseMsg? {
        Settle(msg.id, C.Resolved(msg.result));
      } else if msg.ErrorMsg? {
        Settle(msg.id, C.Rejected(msg.message));
      }
    }

    method ReplaceTools(conn: AgentConnection, tools: seq<ToolDef>)
      requires Valid() && Known(accepted, conn)
      modifies `reg, conn`tools
      ensures Valid()
      ensures reg == R.ReceiveTools(old(reg), conn.ws.link, tools)
    {
      hide R.Ok, C.Ok, ListsMatch;
      R.ReceiveKeepsOk(reg, conn.ws.link, tools, 0);
      conn.tools := tools;
      reg := R.ReceiveTools(reg, conn.ws.link, tools);
      assert ObjectsMatch(reg.conns);
      hide ObjectsMatch;
    }

    method Settle(id: ReqId, outcome: C.Outcome)
      requires C.Ok(Book())
      modifies `pending, `timers, `settled
      ensures C.Ok(Book())
      ensures Book() == C.Reply(old(Book()), id, outcome)
    {
      hide C.Ok;
      if id in pending {
        C.SettleKeepsOk(Book(), id, outcome);
        var timer := pending[id];
        pending := pending - {id};
        timers := timers - {timer};
        settled := settled + [C.Settlement(id, outcome)];
      }
    }

    function GetConnectionsForUser(userId: string): seq<AgentConnection>
      reads this
    {
      if userId in connections then connections[userId] else []
    }

    lemma UserSnapshots(userId: string)
      requires Valid()
      ensures R.UserList(reg, userId) == Links(GetConnectionsForUser(userId))
      ensures forall l :: l in R.UserList(reg, userId) ==> l in reg.conns
      ensures |Mcp.UserConns(reg, userId)| == |GetConnectionsForUser(userId)|
      ensures forall i :: 0 <= i < |GetConnectionsForUser(userId)| ==>
        Mcp.UserConns(reg, userId)[i] == GetConnectionsForUser(userId)[i].Snapshot()
    {
      hide R.Ok, C.Ok, ListsMatch;
      var conns := GetConnectionsForUser(userId);
      ListOf(accepted, connections, reg.connections, userId);
      assert forall i :: 0 <= i < |conns| ==> Known(accepted, conns[i]);
    }

    method GetToolsForUser(userId: string) returns (tools: seq<Mcp.ListedTool>)
      requires Valid()
      ensures forall l :: l in R.UserList(reg, userId) ==> l in reg.conns
      ensures tools == Mcp.ToolsForUser(Mcp.UserConns(reg, userId))
    {
      hide Valid, R.UserList, Mcp.UserConns, Mcp.Listed;
      UserSnapshots(userId);
      var conns := GetConnectionsForUser(userId);
      ghost var values := Mcp.UserConns(reg, userId);
      tools := [];
      var multiDevice := |conns| > 1;
      for i := 0 to |conns|
        invariant tools == Mcp.ListedFrom(values[..i], multiDevice)
      {
        var conn := conns[i];
        ghost var before, all := tools, Mcp.ListedAll(values[i], multiDevice);
        assert values[i] == conn.Snapshot() && |all| == |conn.tools| && before + all[..0] == before;
        hide Mcp.ListedFrom, Mcp.ListedAll, Mcp.Listed;
        for j := 0 to |conn.tools|
          invariant tools == before + all[..j]
        {
          Mcp.ListedAllSnoc(values[i], multiDevice, j);
          tools := tools + [Mcp.Listed(conn.Snapshot(), multiDevice, conn.tools[j])];
        }
        Mcp.ListedFromSnoc(values, multiDevice, i);
      }
      assert values[..|conns|] == values;
    }

    lemma FoundDevice(userId: string, deviceName: string)
      requires Valid()
      ensures var conn := FirstNamed(GetConnectionsForUser(userId), deviceName);
        && R.FindDevice(reg, userId, deviceName) == LinkOf(conn)
        && (conn.Some? ==> Known(accepted, conn.value) && conn.value.ws in sockets)
    {
      hide R.Ok, C.Ok, ListsMatch;
      ListOf(accepted, connections, reg.connections, userId);
      FoundByName(GetConnectionsForUser(userId), deviceName);
      assert R.UserList(reg, userId) == Links(GetConnectionsForUser(userId));
    }

    /** The synchronous part of `sendRequest`: `false` if it throws because the device is not
        connected. `id` is the random id drawn for the call. */
    method SendRequest(userId: string, deviceName: string, toolName: string, params: Json, id: ReqId, now: int)
      returns (found: bool)
      requires Valid() && id !in issued
      modifies this`pending, this`timers, this`nextTimer, this`issued
      modifies sockets`sent
      ensures Valid()
      ensures found <==> R.FindDevice(reg, userId, deviceName).Some?
      ensures Book() == if found then C.Issue(old(Book()), id, now) else old(Book())
      ensures forall l :: l in accepted ==>
        accepted[l].ws.sent == old(accepted[l].ws.sent) +
          SentIf(R.FindDevice(reg, userId, deviceName) == Some(l), RequestMsg(id, toolName, params))
    {
      hide R.Ok, C.Ok, ListsMatch, R.FindDevice;
      var conns := GetConnectionsForUser(userId);
      var conn := FirstNamed(conns, deviceName);
      FoundDevice(userId, deviceName);
      if conn.None? {
        return false;
      }
      Arm(id, now);
      conn.value.ws.Send(RequestMsg(id, toolName, params));
      found := true;
    }

    /** Enter a new call: a pending entry and its timeout. */
    method Arm(id: ReqId, now: int)
      requires C.Ok(Book()) && id !in issued
      modifies `pending, `timers, `nextTimer, `issued
      ensures C.Ok(Book()) && Book() == C.Issue(old(Book()), id, now)
    {
      hide C.Ok;
      C.IssueKeepsOk(Book(), id, now);
      var timer := nextTimer;
      timers, nextTimer := timers[timer := C.Timer(now + C.REQUEST_TIMEOUT_MS, id)], nextTimer + 1;
      pending := pending[id := timer];
      issued := issued + {id};
    }

    /** The runtime runs a request timeout. */
    method RequestTimedOut(timer: C.TimerId)
      requires Valid() && timer in timers
      modifies this`pending, this`timers, this`settled
      ensures Valid()
      ensures Book() == C.TimeOut(old(Book()), timer)
    {
      hide R.Ok, C.Ok, ListsMatch, ObjectsMatch;
      C.TimeOutKeepsOk(Book(), timer);
      var id := timers[timer].id;
      timers := timers - {timer};
      pending := pending - {id};
      settled := settled + [C.Settlement(id, C.TimedOut)];
    }

    method SendRestart(userId: string)
      requires Valid()
      modifies sockets`sent
      ensures Valid()
      ensures forall l :: l in accepted ==>
        accepted[l].ws.sent == old(accepted[l].ws.sent) + SentIf(l in R.UserList(reg, userId), RestartMsg)
    {
      hide R.Ok, C.Ok, ListsMatch;
      var conns := GetConnectionsForUser(userId);
      ListOf(accepted, connections, reg.connections, userId);
      var links := Links(conns);
      assert R.UserList(reg, userId) == links;
      ListedOnce(userId);
      for i := 0 to |conns|
        invariant forall l :: l in accepted ==>
          accepted[l].ws.sent == old(accepted[l].ws.sent) + SentIf(l in links[..i], RestartMsg)
      {
        assert links[..i + 1] == links[..i] + [links[i]];
        assert links[i] !in links[..i];
        assert Known(accepted, conns[i]);
        conns[i].ws.Send(RestartMsg);
      }
      assert links[..|conns|] == links;
    }

    /** No connection is in a user's list twice. */
    lemma ListedOnce(userId: string)
      requires Valid()
      ensures Distinct(R.UserList(reg, userId))
    {
      if userId in connections {
        assert R.ListOk(reg, userId, reg.connections[userId]);
      }
    }

    /** The periodic check: terminate every registered connection not heard from recently. */
    method TerminateStale(now: int)
      requires Valid()
      modifies sockets`terminated
      ensures Valid()
      ensures forall l :: l in accepted ==> (accepted[l].ws.terminated <==>
        old(accepted[l].ws.terminated) || l in R.StaleLinks(reg, now))
    {
      hide R.Ok, C.Ok, ListsMatch;
      var users := connections.Keys;
      ListKeys(accepted, connections, reg.connections);
      while users != {}
        invariant users <= connections.Keys
        invariant forall l :: l in accepted ==> (accepted[l].ws.terminated <==>
          old(accepted[l].ws.terminated) || (l in R.StaleLinks(reg, now) && reg.conns[l].userId !in users))
        decreases users
      {
        var u :| u in users;
        ListOf(accepted, connections, reg.connections, u);
        R.InListIffRegistered(reg, u);
        TerminateStaleOf(connections[u], now);
        users := users - {u};
      }
    }

    /** The inner loop of the periodic check. */
    method TerminateStaleOf(conns: seq<AgentConnection>, now: int)
      requires Valid() && AllKnown(accepted, conns)
      modifies sockets`terminated
      ensures Valid()
      ensures forall l :: l in accepted ==> (accepted[l].ws.terminated <==>
        old(accepted[l].ws.terminated) || (l in Links(conns) && reg.conns[l].lastPingAt < now - R.STALE_THRESHOLD_MS))
    {
      hide R.Ok, C.Ok, ListsMatch;
      var threshold := now - R.STALE_THRESHOLD_MS;
      var links := Links(conns);
      for i := 0 to |conns|
        invariant forall l :: l in accepted ==> (accepted[l].ws.terminated <==>
          old(accepted[l].ws.terminated) || (l in links[..i] && reg.conns[l].lastPingAt < threshold))
      {
        assert links[..i + 1] == links[..i] + [links[i]];
        assert Known(accepted, conns[i]);
        if conns[i].lastPingAt < threshold {
          conns[i].ws.Terminate();
        }
      }
      assert links[..|conns|] == links;
    }
  }
}
