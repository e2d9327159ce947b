/** The registry refines its event log: what the handlers computed one event at a time is what can
    be read off the whole history at once. */
module RegistryLog {
  import opened Base
  import opened Wire
  import opened Registries

  datatype RegEvent =
    | Connected(link: LinkId, userId: string, name: string, at: int)
    | Closed(link: LinkId)
    | Received(link: LinkId, msg: WsMessage)
    | Pinged(link: LinkId, at: int)

  function Apply(reg: Registry, e: RegEvent): Registry
    requires !e.Connected? ==> e.link in reg.conns
  {
    match e
    case Connected(link, userId, name, at) => AddConnection(reg, link, userId, name, at)
    case Closed(link) => RemoveConnection(reg, link)
    case Received(link, msg) => ReceiveMessage(reg, link, msg)
    case Pinged(link, at) => ReceivePing(reg, link, at)
  }

  function Front(log: seq<RegEvent>): seq<RegEvent>
    requires log != []
  {
    log[..|log| - 1]
  }

  function Last(log: seq<RegEvent>): RegEvent
    requires log != []
  {
    log[|log| - 1]
  }

  /** The sockets that have connected. */
  function Opened(log: seq<RegEvent>): set<LinkId> {
    if log == [] then {}
    else Opened(Front(log)) + (if Last(log).Connected? then {Last(log).link} else {})
  }

  /** Every socket connects once, and only sockets that have connected raise other events. */
  ghost predicate WellFormed(log: seq<RegEvent>) {
    log == [] || (WellFormed(Front(log)) && (Last(log).Connected? <==> Last(log).link !in Opened(Front(log))))
  }

  /** The registry after the handlers have run for every event of the log, in order. */
  ghost function Replay(log: seq<RegEvent>): (reg: Registry)
    requires WellFormed(log)
    ensures Ok(reg) && reg.conns.Keys == Opened(log)
  {
    if log == [] then EMPTY
    else
      var reg := Replay(Front(log));
      ApplyKeeps(reg, Last(log));
      Apply(reg, Last(log))
  }

  lemma ApplyKeeps(reg: Registry, e: RegEvent)
    requires Ok(reg) && (e.Connected? <==> e.link !in reg.conns)
    ensures Ok(Apply(reg, e))
    ensures Apply(reg, e).conns.Keys == reg.conns.Keys + {e.link}
  {
    match e
    case Connected(link, userId, name, at) => AddConnectionKeepsOk(reg, link, userId, name, at);
    case Closed(link) => RemoveConnectionKeepsOk(reg, link);
    case Received(link, msg) => if msg.ToolsMsg? { ReceiveKeepsOk(reg, link, msg.tools, 0); }
    case Pinged(link, at) => ReceiveKeepsOk(reg, link, [], at);
  }

  // ---- reading the answer off the log ----

  /** `e` ends the registration of the connection `link` of that user and name. */
  predicate Ends(e: RegEvent, link: LinkId, userId: string, name: string) {
    e == Closed(link) || (e.Connected? && e.userId == userId && e.name == name)
  }

  predicate Ended(later: seq<RegEvent>, link: LinkId, userId: string, name: string) {
    later != [] && (Ends(later[0], link, userId, name) || Ended(later[1..], link, userId, name))
  }

  predicate Survives(c: RegEvent, later: seq<RegEvent>, userId: string) {
    c.Connected? && c.userId == userId && !Ended(later, c.link, userId, c.name)
  }

  /** The connections of `userId` that were opened and neither closed nor superseded later, in
      connect order. */
  function Survivors(log: seq<RegEvent>, userId: string): seq<LinkId> {
    if log == [] then []
    else Kept(log[0], log[1..], userId) + Survivors(log[1..], userId)
  }

  function Kept(c: RegEvent, later: seq<RegEvent>, userId: string): seq<LinkId> {
    if Survives(c, later, userId) then [c.link] else []
  }

  /** The last tool list received on `link`. */
  function LastTools(log: seq<RegEvent>, link: LinkId): seq<ToolDef> {
    if log == [] then []
    else
      var e := Last(log);
      if e.Received? && e.link == link && e.msg.ToolsMsg? then e.msg.tools
      else LastTools(Front(log), link)
  }

  /** The time of the last ping on `link`, or of its connect. */
  function LastHeard(log: seq<RegEvent>, link: LinkId): int {
    if log == [] then 0
    else
      var e := Last(log);
      if (e.Pinged? || e.Connected?) && e.link == link then e.at
      else LastHeard(Front(log), link)
  }

  lemma {:induction false} EndedSnoc(later: seq<RegEvent>, e: RegEvent, link: LinkId, userId: string, name: string)
    ensures Ended(later + [e], link, userId, name) <==>
      Ended(later, link, userId, name) || Ends(e, link, userId, name)
  {
    if later == [] {
      assert later + [e] == [e];
    } else {
      assert (later + [e])[1..] == later[1..] + [e];
      EndedSnoc(later[1..], e, link, userId, name);
    }
  }

  /** `gone` holds exactly the links of `userId`'s connects in `log` that `e` ends. */
  ghost predicate EndsExactly(log: seq<RegEvent>, e: RegEvent, userId: string, gone: set<LinkId>) {
    forall c :: c in log && c.Connected? && c.userId == userId ==>
      (c.link in gone <==> Ends(e, c.link, userId, c.name))
  }

  function NewLink(e: RegEvent, userId: string): seq<LinkId> {
    if e.Connected? && e.userId == userId then [e.link] else []
  }

  /** One more event drops the connections it ends and appends the one it opens. */
  lemma {:induction false} SurvivorsSnoc(log: seq<RegEvent>, e: RegEvent, userId: string, gone: set<LinkId>)
    requires EndsExactly(log, e, userId, gone)
    ensures Survivors(log + [e], userId) == Without(Survivors(log, userId), gone) + NewLink(e, userId)
  {
    if log == [] {
      assert log + [e] == [e];
      assert Survivors([e][1..], userId) == [];
    } else {
      var c, rest := log[0], log[1..];
      assert (log + [e])[1..] == rest + [e] && (log + [e])[0] == c;
      assert EndsExactly(rest, e, userId, gone) by {
        assert forall x :: x in rest ==> x in log;
      }
      SurvivorsSnoc(rest, e, userId, gone);
      SurvivesSnoc(c, rest, e, userId, gone) by { assert c in log; }
      WithoutAppend(Kept(c, rest, userId), Survivors(rest, userId), gone);
      SurvivorsUnfold(log + [e], userId);
      SurvivorsUnfold(log, userId);
    }
  }

  lemma SurvivorsUnfold(log: seq<RegEvent>, userId: string)
    requires log != []
    ensures Survivors(log, userId) == Kept(log[0], log[1..], userId) + Survivors(log[1..], userId)
  {
  }

  lemma SurvivesSnoc(c: RegEvent, rest: seq<RegEvent>, e: RegEvent, userId: string, gone: set<LinkId>)
    requires c.Connected? && c.userId == userId ==> (c.link in gone <==> Ends(e, c.link, userId, c.name))
    ensures Kept(c, rest + [e], userId) == Without(Kept(c, rest, userId), gone)
  {
    if c.Connected? && c.userId == userId {
      EndedSnoc(rest, e, c.link, userId, c.name);
    }
  }

  ghost predicate SaysConnect(reg: Registry, c: RegEvent)
    requires c.Connected?
  {
    && c.link in reg.conns
    && reg.conns[c.link].userId == c.userId
    && reg.conns[c.link].name == c.name
    && reg.conns[c.link].connectedAt == c.at
  }

  lemma InFrontOrLast(log: seq<RegEvent>, c: RegEvent)
    requires c in log
    ensures c in Front(log) || c == Last(log)
  {
    var i :| 0 <= i < |log| && log[i] == c;
    if i < |log| - 1 { assert Front(log)[i] == c; }
  }

  /** Every connection object still says what its connect event said. */
  lemma {:induction false} ReplayIdentity(log: seq<RegEvent>, c: RegEvent)
    requires WellFormed(log) && c in log && c.Connected?
    ensures SaysConnect(Replay(log), c)
  {
    InFrontOrLast(log, c);
    if c in Front(log) {
      ReplayIdentity(Front(log), c);
    }
  }

  /** MAIN RESULT: a user's list is exactly the connections that were opened, not closed and not
      superseded, in connect order; and the user has an entry only if there is one. */
  lemma {:induction false} RegistryRefinesLog(log: seq<RegEvent>, userId: string)
    requires WellFormed(log)
    ensures UserList(Replay(log), userId) == Survivors(log, userId)
    ensures userId in Replay(log).connections <==> Survivors(log, userId) != []
  {
    if log != [] {
      var before, e := Front(log), Last(log);
      assert log == before + [e];
      RegistryRefinesLog(before, userId);
      var reg := Replay(before);
      ReplayStep(reg, e, userId);
      var gone := GoneBy(reg, e, userId);
      forall c | c in before && c.Connected? && c.userId == userId
        ensures c.link in gone <==> Ends(e, c.link, userId, c.name)
      {
        ReplayIdentity(before, c);
      }
      SurvivorsSnoc(before, e, userId, gone);
      assert userId in Replay(log).connections ==> ListOk(Replay(log), userId, Replay(log).connections[userId]);
    }
  }

  function GoneBy(reg: Registry, e: RegEvent, userId: string): set<LinkId> {
    if e.Connected? then (if e.userId == userId then NamedLinks(reg, e.name) else {})
    else if e.Closed? then {e.link} else {}
  }

  /** What one event does to one user's list. */
  lemma ReplayStep(reg: Registry, e: RegEvent, userId: string)
    requires Ok(reg) && (e.Connected? <==> e.link !in reg.conns)
    ensures UserList(Apply(reg, e), userId) ==
      Without(UserList(reg, userId), GoneBy(reg, e, userId)) + NewLink(e, userId)
  {
    var list := UserList(reg, userId);
    var gone := GoneBy(reg, e, userId);
    assert userId in reg.connections ==> ListOk(reg, userId, reg.connections[userId]);
    if !(e.Connected? && e.userId == userId) && !(e.Closed? && reg.conns[e.link].userId == userId) {
      WithoutNone(list, gone);
    }
  }

  /** Each connection holds the last tool list and the last sign of life received on it. */
  lemma {:induction false} ReplayHoldsLastValues(log: seq<RegEvent>, link: LinkId)
    requires WellFormed(log) && link in Opened(log)
    ensures Replay(log).conns[link].tools == LastTools(log, link)
    ensures Replay(log).conns[link].lastPingAt == LastHeard(log, link)
  {
    if link in Opened(Front(log)) {
      ReplayHoldsLastValues(Front(log), link);
    } else {
      NothingBeforeConnect(Front(log), link);
    }
  }

  lemma {:induction false} NothingBeforeConnect(log: seq<RegEvent>, link: LinkId)
    requires WellFormed(log) && link !in Opened(log)
    ensures LastTools(log, link) == []
  {
    if log != [] {
      NothingBeforeConnect(Front(log), link);
    }
  }

  /** The log without the events of one connection. */
  function Others(log: seq<RegEvent>, link: LinkId): seq<RegEvent> {
    if log == [] then []
    else Others(Front(log), link) + (if Last(log).link == link then [] else [Last(log)])
  }

  /** The two registries differ at most in what an unregistered connection holds. */
  ghost predicate SameBut(reg: Registry, reg': Registry, link: LinkId) {
    && Ok(reg) && Ok(reg') && link in reg.conns && !Registered(reg, link)
    && reg.connections == reg'.connections && reg.conns.Keys == reg'.conns.Keys
    && reg.conns[link].userId == reg'.conns[link].userId
    && (forall l :: l in reg.conns && l != link ==> reg.conns[l] == reg'.conns[l])
  }

  /** MAIN RESULT: once a connection has lost its place, nothing it does later (closing, messages,
      pings), however interleaved with the events of others, changes any list or any other connection:
      the registry is the one its events had not been in the log. */
  lemma {:induction false} SupersededIsInert(log: seq<RegEvent>, tail: seq<RegEvent>, link: LinkId)
    requires WellFormed(log) && WellFormed(log + tail)
    requires link in Opened(log) && !Registered(Replay(log), link)
    ensures WellFormed(log + Others(tail, link)) && Opened(log + Others(tail, link)) == Opened(log + tail)
    ensures SameBut(Replay(log + tail), Replay(log + Others(tail, link)), link)
    decreases |tail|
  {
    hide Ok, Registered, Apply, WellFormed, Replay;
    if tail == [] {
      assert log + tail == log;
      SameButItself(log, link);
    } else {
      var front, e := Front(tail), Last(tail);
      assert tail == front + [e];
      LongerIsWellFormed(log, front, e);
      SupersededIsInert(log, front, link);
      OpenedStay(log, front);
      OneMoreEvent(log, front, e, link);
    }
  }

  lemma SameButItself(log: seq<RegEvent>, link: LinkId)
    requires WellFormed(log) && link in Opened(log) && !Registered(Replay(log), link)
    ensures SameBut(Replay(log), Replay(log), link)
  {
  }

  lemma LongerIsWellFormed(log: seq<RegEvent>, front: seq<RegEvent>, e: RegEvent)
    requires WellFormed(log + (front + [e]))
    ensures WellFormed(log + front) && (e.Connected? <==> e.link !in Opened(log + front))
  {
    var all := log + (front + [e]);
    assert Front(all) == log + front && Last(all) == e;
  }

  lemma {:induction false} OpenedStay(log: seq<RegEvent>, tail: seq<RegEvent>)
    ensures Opened(log) <= Opened(log + tail)
  {
    if tail == [] {
      assert log + tail == log;
    } else {
      assert Front(log + tail) == log + Front(tail);
      OpenedStay(log, Front(tail));
    }
  }

  lemma OthersSnoc(tail: seq<RegEvent>, e: RegEvent, link: LinkId)
    ensures Others(tail + [e], link) == if e.link == link then Others(tail, link) else Others(tail, link) + [e]
  {
    assert Front(tail + [e]) == tail && Last(tail + [e]) == e;
  }

  lemma LogSnoc(log: seq<RegEvent>, e: RegEvent)
    requires WellFormed(log) && (e.Connected? <==> e.link !in Opened(log))
    ensures WellFormed(log + [e]) && Replay(log + [e]) == Apply(Replay(log), e)
    ensures Opened(log + [e]) == Opened(log) + (if e.Connected? then {e.link} else {})
  {
    assert Front(log + [e]) == log && Last(log + [e]) == e;
  }

  lemma OneMoreEvent(log: seq<RegEvent>, front: seq<RegEvent>, e: RegEvent, link: LinkId)
    requires WellFormed(log + front) && (e.Connected? <==> e.link !in Opened(log + front))
    requires WellFormed(log + Others(front, link)) && Opened(log + Others(front, link)) == Opened(log + front)
    requires link in Opened(log + front)
    requires SameBut(Replay(log + front), Replay(log + Others(front, link)), link)
    ensures var tail := front + [e];
      && WellFormed(log + tail)
      && WellFormed(log + Others(tail, link)) && Opened(log + Others(tail, link)) == Opened(log + tail)
      && SameBut(Replay(log + tail), Replay(log + Others(tail, link)), link)
  {
    hide SameBut, Others, Apply, Replay, Ok, WellFormed, Opened;
    var x, y := log + front, log + Others(front, link);
    assert log + (front + [e]) == x + [e];
    LogSnoc(x, e);
    OthersSnoc(front, e, link);
    if e.link == link {
      InertStep(Replay(x), Replay(y), e);
    } else {
      assert log + (Others(front, link) + [e]) == y + [e];
      LogSnoc(y, e);
      OtherStep(Replay(x), Replay(y), e, link);
    }
  }

  lemma InertStep(reg: Registry, reg': Registry, e: RegEvent)
    requires SameBut(reg, reg', e.link) && !e.Connected?
    ensures SameBut(Apply(reg, e), reg', e.link)
  {
    var u := reg.conns[e.link].userId;
    ApplyKeeps(reg, e);
    if u in reg.connections {
      assert ListOk(reg, u, reg.connections[u]);
      WithoutNone(reg.connections[u], {e.link});
    }
  }

  lemma OtherStep(reg: Registry, reg': Registry, e: RegEvent, link: LinkId)
    requires SameBut(reg, reg', link) && e.link != link && (e.Connected? <==> e.link !in reg.conns)
    ensures SameBut(Apply(reg, e), Apply(reg', e), link)
  {
    hide Ok;
    ApplyKeeps(reg, e);
    ApplyKeeps(reg', e);
    if e.Connected? {
      OtherConnects(reg, reg', e, link);
    }
  }

  lemma OtherConnects(reg: Registry, reg': Registry, e: RegEvent, link: LinkId)
    requires SameBut(reg, reg', link) && e.link != link && e.Connected? && e.link !in reg.conns
    ensures Apply(reg, e).connections == Apply(reg', e).connections
    ensures !Registered(Apply(reg, e), link)
  {
    var list := UserList(reg, e.userId);
    assert e.userId in reg.connections ==> ListOk(reg, e.userId, list);
    assert link !in list;
    WithoutAgrees(list, NamedLinks(reg, e.name), NamedLinks(reg', e.name));
  }
}
