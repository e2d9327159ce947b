/** No call gets lost: as long as both ends of its link work, a pending call is on its way, being
    worked on, or answered. */
module TunnelConservation {
  import opened Wire
  import opened Tunnel
  import opened TunnelSafety
  import opened TunnelCalls
  import opened TunnelOnce
  import opened TunnelRestarts
  import R = Registries
  import C = Calls
  import A = AgentTools

  ghost predicate Replied(queue: seq<WsMessage>, id: ReqId) {
    exists i :: 0 <= i < |queue| && C.IsReply(queue[i]) && queue[i].id == id
  }

  function One(b: bool): nat {
    if b then 1 else 0
  }

  /** In how many of three places the call is: requested in the queue to the agent, under way there,
      answered in the queue to the relay. */
  ghost function Places(k: Link, id: ReqId): nat {
    One(Queued(k.toAgent, id)) + One(id in k.agent.jobs) + One(Replied(k.toRelay, id))
  }

  /** The agent has not seen its link close, and the relay has not seen it close. */
  predicate Up(s: State, l: LinkId) {
    l in s.links && s.links[l].agentEnd && !s.links[l].relayClosed
  }

  // ---- queues ----

  lemma QueuedAppend(queue: seq<WsMessage>, m: WsMessage, id: ReqId)
    ensures Queued(queue + [m], id) <==> Queued(queue, id) || (m.RequestMsg? && m.id == id)
  {
    var q := queue + [m];
    if i :| 0 <= i < |queue| && queue[i].RequestMsg? && queue[i].id == id { assert q[i] == queue[i]; }
    assert q[|queue|] == m;
  }

  lemma QueuedPop(queue: seq<WsMessage>, id: ReqId)
    requires queue != []
    ensures Queued(queue, id) <==> Queued(queue[1..], id) || (queue[0].RequestMsg? && queue[0].id == id)
  {
    if i :| 0 <= i < |queue| && queue[i].RequestMsg? && queue[i].id == id {
      if i > 0 { assert queue[1..][i - 1] == queue[i]; }
    }
    if i :| 0 <= i < |queue[1..]| && queue[1..][i].RequestMsg? && queue[1..][i].id == id {
      assert queue[i + 1] == queue[1..][i];
    }
  }

  lemma RepliedAppend(queue: seq<WsMessage>, m: WsMessage, id: ReqId)
    ensures Replied(queue + [m], id) <==> Replied(queue, id) || (C.IsReply(m) && m.id == id)
  {
    var q := queue + [m];
    if i :| 0 <= i < |queue| && C.IsReply(queue[i]) && queue[i].id == id { assert q[i] == queue[i]; }
    assert q[|queue|] == m;
  }

  lemma RepliedPop(queue: seq<WsMessage>, id: ReqId)
    requires queue != []
    ensures Replied(queue, id) <==> Replied(queue[1..], id) || (C.IsReply(queue[0]) && queue[0].id == id)
  {
    if i :| 0 <= i < |queue| && C.IsReply(queue[i]) && queue[i].id == id {
      if i > 0 { assert queue[1..][i - 1] == queue[i]; }
    }
    if i :| 0 <= i < |queue[1..]| && C.IsReply(queue[1..][i]) && queue[1..][i].id == id {
      assert queue[i + 1] == queue[1..][i];
    }
  }

  // ---- what one step does to the three places ----

  lemma TakingKeepsPlaces(k: Link, id: ReqId)
    requires k.toAgent != [] && NoRepeats(k.toAgent) && Places(k, id) == 1
    ensures Places(AgentTakes(k), id) == 1
  {
    QueuedPop(k.toAgent, id);
    if k.toAgent[0].RequestMsg? && k.toAgent[0].id == id {
      if Queued(k.toAgent[1..], id) { HeadLeaves(k.toAgent, id); }
    }
  }

  lemma FinishingKeepsPlaces(k: Link, id: ReqId, finished: ReqId, outcome: C.Outcome)
    requires k.agentEnd && finished in k.agent.jobs && CanYield(k.agent.jobs[finished].dispatch, outcome)
    requires Places(k, id) == 1
    ensures Places(FinishCall(k, finished, outcome), id) == 1
  {
    RepliedAppend(k.toRelay, ReplyMsg(finished, outcome), id);
  }

  lemma AgentStepKeepsPlaces(s: State, e: Event, id: ReqId)
    requires Enabled(s, e) && AgentStep(e) && NoRepeats(s.links[e.link].toAgent)
    requires s.links[e.link].agentEnd && AfterAgentStep(s, e).agentEnd && Places(s.links[e.link], id) == 1
    ensures Places(AfterAgentStep(s, e), id) == 1
  {
    hide Queued, Replied, NoRepeats;
    var k := s.links[e.link];
    match e
    case AgentReceives(_) => TakingKeepsPlaces(k, id);
    case CallFinishes(_, finished, outcome) => FinishingKeepsPlaces(k, id, finished, outcome);
    case AgentOpens(_) => RepliedAppend(k.toRelay, ToolsMsg(k.agent.tools), id);
    case ToolsCollected(_, run, listings) =>
      RepliedAppend(k.toRelay, ToolsMsg(A.Collected(k.agent.restarts[run].servers, listings)), id);
    case ServersClosed(_, _) =>
    case ServersSpawned(_, _, _) =>
    case AgentEndCloses(_) =>
  }

  /** A reply to the call that arrives settles it. */
  lemma ArrivalSettles(s: State, l: LinkId, id: ReqId)
    requires Enabled(s, RelayReceives(l)) && id in Next(s, RelayReceives(l)).book.pending
    ensures !(C.IsReply(s.links[l].toRelay[0]) && s.links[l].toRelay[0].id == id)
  {
  }

  /** Between the relay's steps and a link there are only the two queues. */
  datatype RelayChange = Nothing | Pushes(msg: WsMessage) | Pops

  ghost predicate RelayChanges(k: Link, k': Link, change: RelayChange) {
    && k'.agent == k.agent
    && match change
       case Nothing => k'.toAgent == k.toAgent && k'.toRelay == k.toRelay
       case Pushes(msg) => k'.toAgent == k.toAgent + [msg] && k'.toRelay == k.toRelay
       case Pops => k.toRelay != [] && k'.toAgent == k.toAgent && k'.toRelay == k.toRelay[1..]
  }

  lemma RelayStepChanges(s: State, e: Event, l: LinkId) returns (change: RelayChange)
    requires Enabled(s, e) && !(AgentStep(e) && e.link == l) && l in s.links
    requires l in Next(s, e).links && !Next(s, e).links[l].relayClosed
    ensures RelayChanges(s.links[l], Next(s, e).links[l], change)
    ensures change.Pops? <==> e == RelayReceives(l)
    ensures change.Pushes? ==>
      || (e.SendRequest? && change.msg == RequestMsg(e.id, e.tool, e.params))
      || (e.RestartAll? && change.msg == RestartMsg)
  {
    hide AfterAgentStep, R.FindNamed, R.UserList, R.StaleLinks, R.AddConnection, R.RemoveConnection, C.ReceiveMessage,
      C.TimeOut;
    var k, k' := s.links[l], Next(s, e).links[l];
    change := Nothing;
    if e == RelayReceives(l) {
      change := Pops;
    } else if e.SendRequest? && k'.toAgent != k.toAgent {
      change := Pushes(RequestMsg(e.id, e.tool, e.params));
    } else if e.RestartAll? && k'.toAgent != k.toAgent {
      change := Pushes(RestartMsg);
    }
  }

  lemma RelayStepKeepsPlaces(s: State, e: Event, l: LinkId, id: ReqId)
    requires Enabled(s, e) && !(AgentStep(e) && e.link == l) && Up(s, l) && Up(Next(s, e), l)
    requires id in s.book.issued && id in Next(s, e).book.pending && Places(s.links[l], id) == 1
    ensures Places(Next(s, e).links[l], id) == 1
  {
    hide Queued, Replied, Next;
    var k := s.links[l];
    var change := RelayStepChanges(s, e, l);
    if change.Pushes? {
      QueuedAppend(k.toAgent, change.msg, id);
    } else if change.Pops? {
      RepliedPop(k.toRelay, id);
      ArrivalSettles(s, l, id);
    }
  }

  // ---- runs ----

  lemma UpBefore(s: State, e: Event, l: LinkId)
    requires Enabled(s, e) && l in s.links && Up(Next(s, e), l)
    ensures Up(s, l)
  {
    hide R.FindNamed, R.UserList, R.StaleLinks, R.AddConnection, R.RemoveConnection, C.ReceiveMessage, C.TimeOut;
  }

  lemma PendingBefore(s: State, e: Event, id: ReqId)
    requires Enabled(s, e) && id in s.book.issued && id in Next(s, e).book.pending
    ensures id in s.book.pending
  {
  }

  lemma StepKeepsPlaces(t: Trace, n: nat, l: LinkId, id: ReqId)
    requires IsRun(t) && n < |t.events| && l in t.states[n].links && Up(t.states[n + 1], l)
    requires id in t.states[n].book.issued && id in t.states[n + 1].book.pending
    requires Places(t.states[n].links[l], id) == 1
    ensures Places(t.states[n + 1].links[l], id) == 1
  {
    var s, e := t.states[n], t.events[n];
    assert StepAt(t, n);
    UpBefore(s, e, l);
    UntakenHolds(t, n, l);
    hide IsRun, Places, WasTaken;
    if AgentStep(e) && e.link == l {
      AgentStepKeepsPlaces(s, e, id);
    } else {
      RelayStepKeepsPlaces(s, e, l, id);
    }
  }

  /** Before it is issued, a call is nowhere. */
  lemma NowhereYet(t: Trace, n: nat, l: LinkId, id: ReqId)
    requires IsRun(t) && n < |t.states| && l in t.states[n].links && id !in t.states[n].book.issued
    ensures Places(t.states[n].links[l], id) == 0
  {
    var k := t.states[n].links[l];
    AllExplained(t, n, l);
    if Queued(k.toAgent, id) { QueuedIsIssued(t, n, l, id); }
    if id in k.agent.jobs { UnderWayIsIssued(t, n, l, id); }
    if Replied(k.toRelay, id) { RepliedIsIssued(t, n, l, id); }
  }

  lemma UnderWayIsIssued(t: Trace, n: nat, l: LinkId, id: ReqId)
    requires IsRun(t) && n < |t.states| && l in t.states[n].links && id in t.states[n].links[l].agent.jobs
    ensures id in t.states[n].book.issued
  {
    AllExplained(t, n, l);
    var job := t.states[n].links[l].agent.jobs[id];
    assert WasStarted(t, n, l, id, job);
    var r: nat :| r < n && StartedAt(t, r, l, id, job.tool, job.params)
      && WasSent(t, r, l, id, job.tool, job.params) && DispatchedAt(t, r, l, job.tool, job.dispatch);
    assert TakenAt(t, r, l, id);
    TakenIsIssued(t, n, l, id);
  }

  lemma RepliedIsIssued(t: Trace, n: nat, l: LinkId, id: ReqId)
    requires IsRun(t) && n < |t.states| && l in t.states[n].links && Replied(t.states[n].links[l].toRelay, id)
    ensures id in t.states[n].book.issued
  {
    AllExplained(t, n, l);
    var queue := t.states[n].links[l].toRelay;
    var i :| 0 <= i < |queue| && C.IsReply(queue[i]) && queue[i].id == id;
    assert queue[i] in queue;
    assert WasAnswered(t, n, l, id, C.OutcomeOf(queue[i]));
    var j, r, c, tool, params, dispatch := AnsweredMeansAnswers(t, n, l, id, C.OutcomeOf(queue[i]));
    DeadlineIsFixed(t, j, n, l, id, tool, params);
  }

  lemma IssuedIsQueued(t: Trace, i: nat, l: LinkId, id: ReqId, tool: string, params: Json)
    requires IsRun(t) && IssuedAt(t, i, l, id, tool, params) && l in t.states[i].links && t.states[i].links[l].relayEnd
    ensures l in t.states[i + 1].links
    ensures t.states[i + 1].links[l].toAgent == t.states[i].links[l].toAgent + [RequestMsg(id, tool, params)]
    ensures t.states[i + 1].links[l].agent == t.states[i].links[l].agent
    ensures t.states[i + 1].links[l].toRelay == t.states[i].links[l].toRelay
    ensures id !in t.states[i].book.issued
  {
    assert StepAt(t, i);
  }

  /** A restart asked for by a user reaches the queues of exactly that user's registered connections
      whose relay end works, and does nothing else. */
  lemma RestartIsQueued(t: Trace, i: nat, l: LinkId, userId: string)
    requires IsRun(t) && i < |t.events| && t.events[i] == RestartAll(userId) && l in t.states[i].links
    ensures l in t.states[i + 1].links && t.states[i + 1].reg == t.states[i].reg
    ensures t.states[i + 1].links[l].agent == t.states[i].links[l].agent
    ensures t.states[i + 1].links[l].toRelay == t.states[i].links[l].toRelay
    ensures t.states[i + 1].links[l].toAgent == t.states[i].links[l].toAgent +
      (if R.Registered(t.states[i].reg, l) && t.states[i].reg.conns[l].userId == userId && t.states[i].links[l].relayEnd
       then [RestartMsg] else [])
  {
    assert StepAt(t, i);
    InvHolds(t, i);
    R.InListIffRegistered(t.states[i].reg, userId);
    assert t.states[i].links[l].toAgent + [] == t.states[i].links[l].toAgent;
  }

  /** MAIN RESULT (conservation): a call sent over a working link is, as long as it is pending and
      neither end has seen the link close, in exactly one of three places: requested in the queue to
      the agent, under way on the agent, or answered in the queue to the relay. */
  lemma {:induction false} PendingCallIsSomewhere(t: Trace, i: nat, n: nat, l: LinkId, id: ReqId,
                                                  tool: string, params: Json)
    requires IsRun(t) && IssuedAt(t, i, l, id, tool, params) && i < n < |t.states|
    requires l in t.states[i].links && t.states[i].links[l].relayEnd
    requires id in t.states[n].book.pending && Up(t.states[n], l)
    ensures Places(t.states[n].links[l], id) == 1
    decreases n
  {
    hide Places, Up;
    IssuedIsQueued(t, i, l, id, tool, params);
    if n == i + 1 {
      NowhereYet(t, i, l, id);
      QueuedFirst(t.states[i].links[l], t.states[n].links[l], id, tool, params);
    } else {
      assert StepAt(t, n - 1);
      LinkStays(t, i, n - 1, l);
      DeadlineIsFixed(t, i, n - 1, l, id, tool, params);
      UpBefore(t.states[n - 1], t.events[n - 1], l);
      PendingBefore(t.states[n - 1], t.events[n - 1], id);
      PendingCallIsSomewhere(t, i, n - 1, l, id, tool, params);
      StepKeepsPlaces(t, n - 1, l, id);
    }
  }

  lemma QueuedFirst(k: Link, k': Link, id: ReqId, tool: string, params: Json)
    requires Places(k, id) == 0 && k'.toAgent == k.toAgent + [RequestMsg(id, tool, params)]
    requires k'.agent == k.agent && k'.toRelay == k.toRelay
    ensures Places(k', id) == 1
  {
    QueuedAppend(k.toAgent, RequestMsg(id, tool, params), id);
  }

  lemma {:induction false} LinkStays(t: Trace, m: nat, n: nat, l: LinkId)
    requires IsRun(t) && m <= n < |t.states| && l in t.states[m].links
    ensures l in t.states[n].links
    decreases n
  {
    if m < n {
      LinkStays(t, m, n - 1, l);
      assert StepAt(t, n - 1);
      hide AfterAgentStep;
    }
  }

  /** An end that is down stays down: a closed agent sends and takes nothing more, a broken or
      terminated relay socket sends nothing more, and what a closed connection sent is dropped. */
  lemma EndsStayDown(t: Trace, i: nat, l: LinkId)
    requires IsRun(t) && i < |t.events| && l in t.states[i].links
    ensures l in t.states[i + 1].links
    ensures var k, k' := t.states[i].links[l], t.states[i + 1].links[l];
      && (t.events[i] == AgentEndCloses(l) ==> !k'.agentEnd && k'.toAgent == [])
      && (!k.agentEnd ==> !k'.agentEnd && |k'.toRelay| <= |k.toRelay| && t.events[i] != AgentReceives(l))
      && (t.events[i] == RelayEndBreaks(l) ==> !k'.relayEnd)
      && (!k.relayEnd ==> !k'.relayEnd && |k'.toAgent| <= |k.toAgent|)
      && (t.events[i] == RelayCloses(l) ==> k'.relayClosed && k'.toRelay == [])
      && (k.relayClosed ==> k'.relayClosed && t.events[i] != RelayReceives(l))
  {
    assert StepAt(t, i);
    EndsStayDownInStep(t.states[i], t.events[i], l);
  }

  lemma EndsStayDownInStep(s: State, e: Event, l: LinkId)
    requires Enabled(s, e) && l in s.links
    ensures l in Next(s, e).links
    ensures var k, k' := s.links[l], Next(s, e).links[l];
      && (e == AgentEndCloses(l) ==> !k'.agentEnd && k'.toAgent == [])
      && (!k.agentEnd ==> !k'.agentEnd && |k'.toRelay| <= |k.toRelay| && e != AgentReceives(l))
      && (e == RelayEndBreaks(l) ==> !k'.relayEnd)
      && (!k.relayEnd ==> !k'.relayEnd && |k'.toAgent| <= |k.toAgent|)
      && (e == RelayCloses(l) ==> k'.relayClosed && k'.toRelay == [])
      && (k.relayClosed ==> k'.relayClosed && e != RelayReceives(l))
  {
    hide R.FindNamed, R.UserList, R.StaleLinks, R.AddConnection, R.RemoveConnection, C.ReceiveMessage, C.TimeOut,
      A.Spawned, A.Collected, AfterAgentStep;
    if AgentStep(e) && e.link == l { AgentEndStaysDown(s, e); }
  }

  lemma AgentEndStaysDown(s: State, e: Event)
    requires Enabled(s, e) && AgentStep(e)
    ensures var k, k' := s.links[e.link], AfterAgentStep(s, e);
      && (e.AgentEndCloses? ==> !k'.agentEnd && k'.toAgent == [])
      && (!k.agentEnd ==> !k'.agentEnd && |k'.toRelay| <= |k.toRelay| && !e.AgentReceives?)
      && k'.relayEnd == k.relayEnd && k'.relayClosed == k.relayClosed && |k'.toAgent| <= |k.toAgent|
  {
    hide A.Spawned, A.Collected;
  }

  // ---- taken calls are dispatched, finished calls answered ----

  lemma TakenStarts(t: Trace, r: nat, l: LinkId, id: ReqId, tool: string, params: Json)
    requires IsRun(t) && StartedAt(t, r, l, id, tool, params)
    ensures l in t.states[r + 1].links && id in t.states[r + 1].links[l].agent.jobs
    ensures t.states[r + 1].links[l].agent.jobs[id] ==
      Job(tool, params, A.HandleToolCall(t.states[r].links[l].agent.servers, tool))
  {
    assert StepAt(t, r);
  }

  lemma AgentStepKeepsJob(s: State, e: Event, id: ReqId)
    requires Enabled(s, e) && AgentStep(e) && id in s.links[e.link].agent.jobs
    requires e.AgentReceives? && s.links[e.link].toAgent[0].RequestMsg? ==> s.links[e.link].toAgent[0].id != id
    requires e.CallFinishes? ==> e.id != id
    ensures id in AfterAgentStep(s, e).agent.jobs
    ensures AfterAgentStep(s, e).agent.jobs[id] == s.links[e.link].agent.jobs[id]
  {
    hide A.Spawned, A.Collected, A.HandleToolCall, ReplyMsg;
    if e.AgentReceives? { TakingKeepsJob(s.links[e.link], id); }
  }

  lemma TakingKeepsJob(k: Link, id: ReqId)
    requires k.toAgent != [] && id in k.agent.jobs
    requires k.toAgent[0].RequestMsg? ==> k.toAgent[0].id != id
    ensures id in AgentTakes(k).agent.jobs && AgentTakes(k).agent.jobs[id] == k.agent.jobs[id]
  {
  }

  lemma FinishesHere(t: Trace, c: nat)
    requires c < |t.events|
    ensures t.events[c].CallFinishes? ==> FinishedAt(t, c, t.events[c].link, t.events[c].id, t.events[c].outcome)
  {
  }

  /** MAIN RESULT (dispatch): once an agent has taken a call, and until it finishes it, the call is
      under way with its own tool and arguments, dispatched against the `servers` of that moment. */
  lemma {:induction false} TakenCallIsUnderWay(t: Trace, r: nat, n: nat, l: LinkId, id: ReqId,
                                               tool: string, params: Json)
    requires IsRun(t) && StartedAt(t, r, l, id, tool, params) && r < n < |t.states|
    requires forall c, outcome :: r < c < n ==> !FinishedAt(t, c, l, id, outcome)
    ensures l in t.states[n].links && id in t.states[n].links[l].agent.jobs
    ensures t.states[n].links[l].agent.jobs[id] ==
      Job(tool, params, A.HandleToolCall(t.states[r].links[l].agent.servers, tool))
    decreases n
  {
    if n == r + 1 {
      TakenStarts(t, r, l, id, tool, params);
    } else {
      TakenCallIsUnderWay(t, r, n - 1, l, id, tool, params);
      assert StepAt(t, n - 1);
      var s, e := t.states[n - 1], t.events[n - 1];
      hide IsRun;
      if AgentStep(e) && e.link == l {
        assert TakenAt(t, r, l, id);
        TakenOnceThere(t, r, n - 1, l, id);
        if e.AgentReceives? { HeadIsTaken(t, n - 1, l); }
        FinishesHere(t, n - 1);
        AgentStepKeepsJob(s, e, id);
      } else {
        OtherStepKeepsAgent(s, e, l);
      }
    }
  }

  /** MAIN RESULT (answer): when a call finishes while the agent's end is up, the queue to the relay
      ends in its answer: the result, or the error's message, under the call's own id. */
  lemma FinishedCallIsAnswered(t: Trace, c: nat, l: LinkId, id: ReqId, outcome: C.Outcome)
    requires IsRun(t) && FinishedAt(t, c, l, id, outcome)
    requires l in t.states[c].links && t.states[c].links[l].agentEnd
    ensures l in t.states[c + 1].links && id !in t.states[c + 1].links[l].agent.jobs
    ensures outcome.Resolved? || outcome.Rejected?
    ensures t.states[c + 1].links[l].toRelay == t.states[c].links[l].toRelay +
      [if outcome.Resolved? then ResponseMsg(id, outcome.result) else ErrorMsg(id, outcome.message)]
  {
    assert StepAt(t, c);
  }

  /** A call the agent has dispatched to no server can only finish with that error. */
  lemma FailedDispatchIsReported(t: Trace, r: nat, c: nat, l: LinkId, id: ReqId, tool: string, params: Json,
                                 outcome: C.Outcome, message: string)
    requires IsRun(t) && StartedAt(t, r, l, id, tool, params) && FinishedAt(t, c, l, id, outcome)
    requires A.HandleToolCall(t.states[r].links[l].agent.servers, tool) == A.Fail(message)
    ensures outcome == C.Rejected(message)
  {
    var r', tool', params' := TakenBeforeFinished(t, c, l, id, outcome);
    TakenOnce(t, r, l, tool, params, r', l, tool', params', id);
    forall x, other | r < x < c ensures !FinishedAt(t, x, l, id, other) {
      if FinishedAt(t, x, l, id, other) { NotFinishedAgain(t, x, c, l, id, other, outcome); }
    }
    TakenCallIsUnderWay(t, r, c, l, id, tool, params);
    assert StepAt(t, c);
  }
}
