/** The connection registry of the relay as a value: what every `AgentConnection` object holds,
    and which of them each user's list refers to. */
module Registries {
  import opened Base
  import opened Wire

  /** The fields of one `AgentConnection`. */
  datatype Conn = Conn(userId: string, name: string, connectedAt: int, tools: seq<ToolDef>, lastPingAt: int)

  /** `conns` holds every connection object ever made: a superseded one is still reached by its
      socket's event handlers. `connections` is the map of the same name. */
  datatype Registry = Registry(conns: map<LinkId, Conn>, connections: map<string, seq<LinkId>>)

  const EMPTY := Registry(map[], map[])

  const STALE_THRESHOLD_MS := 90_000
  const STALE_CHECK_INTERVAL_MS := 60_000

  function UserList(reg: Registry, userId: string): seq<LinkId> {
    if userId in reg.connections then reg.connections[userId] else []
  }

  function NamedLinks(reg: Registry, name: string): set<LinkId> {
    set l | l in reg.conns && reg.conns[l].name == name
  }

  function AddConnection(reg: Registry, link: LinkId, userId: string, name: string, now: int): Registry {
    var filtered := Without(UserList(reg, userId), NamedLinks(reg, name));
    Registry(reg.conns[link := Conn(userId, name, now, [], now)],
             reg.connections[userId := filtered + [link]])
  }

  function RemoveConnection(reg: Registry, link: LinkId): Registry
    requires link in reg.conns
  {
    var userId := reg.conns[link].userId;
    if userId !in reg.connections then reg
    else
      var filtered := Without(reg.connections[userId], {link});
      if filtered == [] then reg.(connections := reg.connections - {userId})
      else reg.(connections := reg.connections[userId := filtered])
  }

  function ReceiveTools(reg: Registry, link: LinkId, tools: seq<ToolDef>): Registry
    requires link in reg.conns
  {
    reg.(conns := reg.conns[link := reg.conns[link].(tools := tools)])
  }

  /** The part of `handleMessage` that concerns the registry. */
  function ReceiveMessage(reg: Registry, link: LinkId, msg: WsMessage): Registry
    requires link in reg.conns
  {
    if msg.ToolsMsg? then ReceiveTools(reg, link, msg.tools) else reg
  }

  function ReceivePing(reg: Registry, link: LinkId, now: int): Registry
    requires link in reg.conns
  {
    reg.(conns := reg.conns[link := reg.conns[link].(lastPingAt := now)])
  }

  predicate Registered(reg: Registry, link: LinkId) {
    link in reg.conns && link in UserList(reg, reg.conns[link].userId)
  }

  /** The connections one run of the stale check terminates. */
  function StaleLinks(reg: Registry, now: int): set<LinkId> {
    set l | l in reg.conns && Registered(reg, l) && reg.conns[l].lastPingAt < now - STALE_THRESHOLD_MS
  }

  /** `conns.find((c) => c.name === name)`. */
  function FindNamed(reg: Registry, list: seq<LinkId>, name: string): (r: Option<LinkId>)
    ensures r.Some? ==> r.value in list && r.value in reg.conns && reg.conns[r.value].name == name
    ensures r.None? ==> forall l :: l in list && l in reg.conns ==> reg.conns[l].name != name
  {
    if list == [] then None
    else if list[0] in reg.conns && reg.conns[list[0]].name == name then Some(list[0])
    else FindNamed(reg, list[1..], name)
  }

  function FindDevice(reg: Registry, userId: string, name: string): Option<LinkId> {
    FindNamed(reg, UserList(reg, userId), name)
  }

  // ---- what every operation keeps ----

  ghost predicate ListOk(reg: Registry, userId: string, list: seq<LinkId>) {
    && list != []
    && NamesDistinct(reg, list)
    && (forall l :: l in list ==> reg.conns[l].userId == userId)
  }

  /** No stored list is empty, every entry belongs to its key, and a user's device names are distinct. */
  ghost predicate Ok(reg: Registry) {
    forall u :: u in reg.connections ==> ListOk(reg, u, reg.connections[u])
  }

  ghost predicate NamesDistinct(reg: Registry, list: seq<LinkId>) {
    && (forall l :: l in list ==> l in reg.conns)
    && (forall i, j :: 0 <= i < j < |list| ==> reg.conns[list[i]].name != reg.conns[list[j]].name)
  }

  lemma {:induction false} WithoutKeepsNamesDistinct(reg: Registry, s: seq<LinkId>, gone: set<LinkId>)
    requires NamesDistinct(reg, s)
    ensures NamesDistinct(reg, Without(s, gone))
  {
    if s != [] {
      WithoutKeepsNamesDistinct(reg, s[1..], gone);
      var r := Without(s[1..], gone);
      forall j | 0 <= j < |r| ensures reg.conns[r[j]].name != reg.conns[s[0]].name {
        assert r[j] in r;
        var k :| 0 <= k < |s[1..]| && s[1..][k] == r[j];
        assert s[k + 1] == r[j];
      }
      if s[0] !in gone {
        var w := [s[0]] + r;
        forall i, j | 0 <= i < j < |w| ensures reg.conns[w[i]].name != reg.conns[w[j]].name {
          if i > 0 { assert w[i] == r[i - 1] && w[j] == r[j - 1]; }
        }
      }
    }
  }

  lemma AddConnectionKeepsOk(reg: Registry, link: LinkId, userId: string, name: string, now: int)
    requires Ok(reg) && link !in reg.conns
    ensures Ok(AddConnection(reg, link, userId, name, now))
  {
    var reg' := AddConnection(reg, link, userId, name, now);
    var old_ := UserList(reg, userId);
    WithoutKeepsNamesDistinct(reg, old_, NamedLinks(reg, name));
    var filtered := Without(old_, NamedLinks(reg, name));
    forall u | u in reg'.connections ensures ListOk(reg', u, reg'.connections[u]) {
      if u == userId {
        var list := filtered + [link];
        forall i, j | 0 <= i < j < |list| ensures reg'.conns[list[i]].name != reg'.conns[list[j]].name {
          assert list[i] == filtered[i] && list[i] in filtered;
          if j < |filtered| { assert list[j] in filtered; }
        }
      } else {
        assert ListOk(reg, u, reg.connections[u]);
      }
    }
  }

  lemma RemoveConnectionKeepsOk(reg: Registry, link: LinkId)
    requires Ok(reg) && link in reg.conns
    ensures Ok(RemoveConnection(reg, link))
  {
    var userId := reg.conns[link].userId;
    if userId in reg.connections {
      assert ListOk(reg, userId, reg.connections[userId]);
      WithoutKeepsNamesDistinct(reg, reg.connections[userId], {link});
    }
  }

  lemma ReceiveKeepsOk(reg: Registry, link: LinkId, tools: seq<ToolDef>, now: int)
    requires Ok(reg) && link in reg.conns
    ensures Ok(ReceiveTools(reg, link, tools)) && Ok(ReceivePing(reg, link, now))
  {
    forall u | u in reg.connections
      ensures ListOk(ReceiveTools(reg, link, tools), u, reg.connections[u])
      ensures ListOk(ReceivePing(reg, link, now), u, reg.connections[u])
    {
      assert ListOk(reg, u, reg.connections[u]);
    }
  }

  /** A user's list holds exactly the registered connections of that user. */
  lemma InListIffRegistered(reg: Registry, userId: string)
    requires Ok(reg)
    ensures forall l :: l in UserList(reg, userId) <==>
      l in reg.conns && Registered(reg, l) && reg.conns[l].userId == userId
  {
    assert userId in reg.connections ==> ListOk(reg, userId, reg.connections[userId]);
  }

  /** The device lookup of a request finds exactly the registered connection of that user and name. */
  lemma FindDeviceIffRegistered(reg: Registry, link: LinkId, userId: string, name: string)
    requires Ok(reg)
    ensures FindDevice(reg, userId, name) == Some(link) <==>
            Registered(reg, link) && reg.conns[link].userId == userId && reg.conns[link].name == name
  {
    var list := UserList(reg, userId);
    if userId in reg.connections { assert ListOk(reg, userId, list); }
    var found := FindDevice(reg, userId, name);
    if link in reg.conns && link in list && reg.conns[link].name == name {
      assert found.Some?;
      var i :| 0 <= i < |list| && list[i] == link;
      var j :| 0 <= j < |list| && list[j] == found.value;
      assert i == j;
    }
  }
}
