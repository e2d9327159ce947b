/** Calls have side effects: none is taken, or finished, more than once. */
module TunnelOnce {
  import opened Wire
  import opened Tunnel
  import opened TunnelCalls
  import opened TunnelRestarts
  import R = Registries
  import C = Calls

  /** No two requests in the queue are for the same call. */
  ghost predicate NoRepeats(queue: seq<WsMessage>) {
    forall i, j :: 0 <= i < j < |queue| && queue[i].RequestMsg? && queue[j].RequestMsg? ==> queue[i].id != queue[j].id
  }

  ghost predicate Queued(queue: seq<WsMessage>, id: ReqId) {
    exists i :: 0 <= i < |queue| && queue[i].RequestMsg? && queue[i].id == id
  }

  /** Event `r` is some agent's `message` event for the call. */
  ghost predicate TakenAt(t: Trace, r: nat, l: LinkId, id: ReqId) {
    exists tool, params :: StartedAt(t, r, l, id, tool, params)
  }

  ghost predicate WasTaken(t: Trace, n: nat, l: LinkId, id: ReqId) {
    exists r: nat :: r < n && TakenAt(t, r, l, id)
  }

  /** Nothing in the queue towards the agent on `l` repeats, or has been taken there before. */
  ghost predicate Untaken(t: Trace, n: nat, l: LinkId)
    requires n < |t.states| && l in t.states[n].links
  {
    var queue := t.states[n].links[l].toAgent;
    NoRepeats(queue) && forall id :: Queued(queue, id) ==> !WasTaken(t, n, l, id)
  }

  // ---- one agent takes a call at most once ----

  /** What a step does to the queue towards an agent. */
  datatype Change = Same | Sends(msg: WsMessage) | Takes | Drops

  ghost predicate Changes(queue: seq<WsMessage>, queue': seq<WsMessage>, change: Change) {
    match change
    case Same => queue' == queue
    case Sends(msg) => queue' == queue + [msg]
    case Takes => queue != [] && queue' == queue[1..]
    case Drops => queue' == []
  }

  lemma StepChanges(s: State, e: Event, l: LinkId) returns (change: Change)
    requires Enabled(s, e) && l in s.links
    ensures l in Next(s, e).links
    ensures Changes(s.links[l].toAgent, Next(s, e).links[l].toAgent, change)
    ensures change.Takes? <==> e == AgentReceives(l)
    ensures change.Sends? ==> e.SendRequest? || e.RestartAll?
    ensures change.Sends? && change.msg.RequestMsg? ==> e.SendRequest? && change.msg.id == e.id
  {
    hide R.FindNamed, R.UserList, R.StaleLinks, R.AddConnection, R.RemoveConnection, C.ReceiveMessage, C.TimeOut;
    var queue, queue' := s.links[l].toAgent, Next(s, e).links[l].toAgent;
    change := Same;
    if e == AgentReceives(l) {
      change := Takes;
    } else if e == AgentEndCloses(l) {
      change := Drops;
    } else if e.SendRequest? && queue' != queue {
      change := Sends(RequestMsg(e.id, e.tool, e.params));
    } else if e.RestartAll? && queue' != queue {
      change := Sends(RestartMsg);
    }
  }

  lemma QueuedChanges(queue: seq<WsMessage>, queue': seq<WsMessage>, change: Change, id: ReqId)
    requires Changes(queue, queue', change) && Queued(queue', id)
    ensures Queued(queue, id) || (change.Sends? && change.msg.RequestMsg? && change.msg.id == id)
  {
    var i :| 0 <= i < |queue'| && queue'[i].RequestMsg? && queue'[i].id == id;
    if change.Takes? {
      assert queue[i + 1] == queue'[i];
    } else if i < |queue| {
      assert queue[i] == queue'[i];
    }
  }

  lemma HeadLeaves(queue: seq<WsMessage>, id: ReqId)
    requires NoRepeats(queue) && queue != [] && queue[0].RequestMsg? && Queued(queue[1..], id)
    ensures queue[0].id != id
  {
    var i :| 0 <= i < |queue[1..]| && queue[1..][i].RequestMsg? && queue[1..][i].id == id;
    assert queue[i + 1] == queue[1..][i];
  }

  lemma NoRepeatsChanges(queue: seq<WsMessage>, queue': seq<WsMessage>, change: Change)
    requires NoRepeats(queue) && Changes(queue, queue', change)
    requires change.Sends? && change.msg.RequestMsg? ==> !Queued(queue, change.msg.id)
    ensures NoRepeats(queue')
  {
  }

  /** A call that was queued, or taken, has been issued. */
  lemma QueuedIsIssued(t: Trace, n: nat, l: LinkId, id: ReqId)
    requires IsRun(t) && n < |t.states| && l in t.states[n].links && Queued(t.states[n].links[l].toAgent, id)
    ensures id in t.states[n].book.issued
  {
    var queue := t.states[n].links[l].toAgent;
    var i :| 0 <= i < |queue| && queue[i].RequestMsg? && queue[i].id == id;
    AllExplained(t, n, l);
    assert queue[i] in queue;
    assert WasSent(t, n, l, id, queue[i].methodName, queue[i].params);
    var sender: nat :| sender < n && IssuedAt(t, sender, l, id, queue[i].methodName, queue[i].params);
    DeadlineIsFixed(t, sender, n, l, id, queue[i].methodName, queue[i].params);
  }

  lemma TakenIsIssued(t: Trace, n: nat, l: LinkId, id: ReqId)
    requires IsRun(t) && n < |t.states| && WasTaken(t, n, l, id)
    ensures id in t.states[n].book.issued
  {
    var r: nat :| r < n && TakenAt(t, r, l, id);
    var tool, params :| StartedAt(t, r, l, id, tool, params);
    var sender := SentBefore(t, r, l, id, tool, params);
    DeadlineIsFixed(t, sender, n, l, id, tool, params);
  }

  /** A call taken before state `n + 1` was taken before state `n`, or at the head of the queue then. */
  lemma TakenLately(t: Trace, n: nat, l: LinkId, id: ReqId)
    requires n < |t.events| && |t.states| == |t.events| + 1 && WasTaken(t, n + 1, l, id)
    ensures WasTaken(t, n, l, id) || (t.events[n] == AgentReceives(l) && l in t.states[n].links
      && var queue := t.states[n].links[l].toAgent; queue != [] && queue[0].RequestMsg? && queue[0].id == id)
  {
    var r: nat :| r < n + 1 && TakenAt(t, r, l, id);
    if r == n {
      var tool, params :| StartedAt(t, n, l, id, tool, params);
    }
  }

  lemma StepKeepsUntaken(t: Trace, n: nat, l: LinkId)
    requires IsRun(t) && n < |t.events| && l in t.states[n].links && Untaken(t, n, l)
    ensures l in t.states[n + 1].links && Untaken(t, n + 1, l)
  {
    assert StepAt(t, n);
    var s, e := t.states[n], t.events[n];
    var change := StepChanges(s, e, l);
    var queue, queue' := s.links[l].toAgent, t.states[n + 1].links[l].toAgent;
    FreshWhenSent(t, n, l);
    hide Enabled, Next, IsRun, WasTaken, Queued, NoRepeats;
    NoRepeatsChanges(queue, queue', change);
    forall id | Queued(queue', id) ensures !WasTaken(t, n + 1, l, id) {
      QueuedChanges(queue, queue', change, id);
      if WasTaken(t, n + 1, l, id) {
        TakenLately(t, n, l, id);
        if !WasTaken(t, n, l, id) { HeadLeaves(queue, id); }
      }
    }
  }

  lemma FreshWhenSent(t: Trace, n: nat, l: LinkId)
    requires IsRun(t) && n < |t.events| && l in t.states[n].links
    ensures t.events[n].SendRequest? ==>
      !Queued(t.states[n].links[l].toAgent, t.events[n].id) && !WasTaken(t, n, l, t.events[n].id)
  {
    if t.events[n].SendRequest? {
      assert StepAt(t, n);
      var id := t.events[n].id;
      hide IsRun, Next, WasTaken, Queued;
      assert id !in t.states[n].book.issued;
      if Queued(t.states[n].links[l].toAgent, id) { QueuedIsIssued(t, n, l, id); }
      if WasTaken(t, n, l, id) { TakenIsIssued(t, n, l, id); }
    }
  }

  lemma NewLinkUntaken(t: Trace, n: nat, l: LinkId)
    requires IsRun(t) && n < |t.events| && l !in t.states[n].links && l in t.states[n + 1].links
    ensures t.states[n + 1].links[l].toAgent == []
  {
    assert StepAt(t, n);
    hide AfterAgentStep;
  }

  lemma {:induction false} UntakenHolds(t: Trace, n: nat, l: LinkId)
    requires IsRun(t) && n < |t.states| && l in t.states[n].links
    ensures Untaken(t, n, l)
  {
    hide WasTaken;
    if n > 0 {
      if l in t.states[n - 1].links {
        UntakenHolds(t, n - 1, l);
        StepKeepsUntaken(t, n - 1, l);
      } else {
        NewLinkUntaken(t, n - 1, l);
      }
    }
  }

  // ---- results ----

  lemma TakenOnceThere(t: Trace, r: nat, r': nat, l: LinkId, id: ReqId)
    requires IsRun(t) && r < r' && TakenAt(t, r, l, id)
    ensures !TakenAt(t, r', l, id)
  {
    if tool, params :| StartedAt(t, r', l, id, tool, params) {
      UntakenHolds(t, r', l);
      assert t.states[r'].links[l].toAgent[0].id == id;
      assert Queued(t.states[r'].links[l].toAgent, id);
      assert WasTaken(t, r', l, id);
    }
  }

  /** MAIN RESULT (at most once): in any run, at most one event is an agent's taking of a call,
      whichever agent it is. */
  lemma TakenOnce(t: Trace, r: nat, l: LinkId, tool: string, params: Json,
                  r': nat, l': LinkId, tool': string, params': Json, id: ReqId)
    requires IsRun(t) && StartedAt(t, r, l, id, tool, params) && StartedAt(t, r', l', id, tool', params')
    ensures r == r' && l == l' && tool == tool' && params == params'
  {
    var i := SentBefore(t, r, l, id, tool, params);
    var j := SentBefore(t, r', l', id, tool', params');
    IssuedOnce(t, i, j, l, l', id, tool, params, tool', params');
    assert l == l';
    assert TakenAt(t, r, l, id) && TakenAt(t, r', l, id);
    if r < r' { TakenOnceThere(t, r, r', l, id); } else if r' < r { TakenOnceThere(t, r', r, l, id); }
  }

  /** A call that has finished is not under way again unless it is taken again. */
  lemma {:induction false} StaysFinished(t: Trace, c: nat, n: nat, l: LinkId, id: ReqId)
    requires IsRun(t) && c < n < |t.states|
    requires t.events[c].CallFinishes? && t.events[c].link == l && t.events[c].id == id
    requires forall r :: c <= r < n ==> !TakenAt(t, r, l, id)
    ensures l in t.states[n].links && id !in t.states[n].links[l].agent.jobs
    decreases n
  {
    assert StepAt(t, n - 1);
    if c < n - 1 {
      StaysFinished(t, c, n - 1, l, id);
      assert !TakenAt(t, n - 1, l, id);
      NotTakenNotStarted(t, n - 1, l, id);
    }
  }

  lemma NotTakenNotStarted(t: Trace, n: nat, l: LinkId, id: ReqId)
    requires n < |t.events| && |t.states| == |t.events| + 1 && StepAt(t, n) && !TakenAt(t, n, l, id)
    requires l in t.states[n].links && id !in t.states[n].links[l].agent.jobs
    ensures l in t.states[n + 1].links && id !in t.states[n + 1].links[l].agent.jobs
  {
    var s, e := t.states[n], t.events[n];
    if e == AgentReceives(l) {
      HeadIsTaken(t, n, l);
      TakingStarts(s.links[l], id);
    } else if AgentStep(e) && e.link == l {
      OnlyTakingStarts(s, e, id);
    } else {
      OtherStepKeepsAgent(s, e, l);
    }
  }

  lemma HeadIsTaken(t: Trace, n: nat, l: LinkId)
    requires n < |t.events| && |t.states| == |t.events| + 1 && StepAt(t, n) && t.events[n] == AgentReceives(l)
    ensures var m := t.states[n].links[l].toAgent[0]; m.RequestMsg? ==> TakenAt(t, n, l, m.id)
  {
    var m := t.states[n].links[l].toAgent[0];
    if m.RequestMsg? { assert StartedAt(t, n, l, m.id, m.methodName, m.params); }
  }

  lemma TakingStarts(k: Link, id: ReqId)
    requires k.toAgent != [] && id !in k.agent.jobs
    ensures id in AgentTakes(k).agent.jobs ==> k.toAgent[0].RequestMsg? && k.toAgent[0].id == id
  {
  }

  lemma OnlyTakingStarts(s: State, e: Event, id: ReqId)
    requires Enabled(s, e) && AgentStep(e) && !e.AgentReceives? && id !in s.links[e.link].agent.jobs
    ensures id !in AfterAgentStep(s, e).agent.jobs
  {
  }

  lemma TakenBeforeFinished(t: Trace, c: nat, l: LinkId, id: ReqId, outcome: C.Outcome)
    returns (r: nat, tool: string, params: Json)
    requires IsRun(t) && FinishedAt(t, c, l, id, outcome)
    ensures r < c && StartedAt(t, r, l, id, tool, params)
  {
    assert StepAt(t, c);
    AllExplained(t, c, l);
    var job := t.states[c].links[l].agent.jobs[id];
    assert WasStarted(t, c, l, id, job);
    r :| r < c && StartedAt(t, r, l, id, job.tool, job.params)
      && WasSent(t, r, l, id, job.tool, job.params) && DispatchedAt(t, r, l, job.tool, job.dispatch);
    tool, params := job.tool, job.params;
  }

  lemma NotFinishedAgain(t: Trace, c: nat, c': nat, l: LinkId, id: ReqId, outcome: C.Outcome, outcome': C.Outcome)
    requires IsRun(t) && c < c' && FinishedAt(t, c, l, id, outcome)
    ensures !FinishedAt(t, c', l, id, outcome')
  {
    var r, tool, params := TakenBeforeFinished(t, c, l, id, outcome);
    forall n | c <= n < c' ensures !TakenAt(t, n, l, id) {
      assert TakenAt(t, r, l, id);
      TakenOnceThere(t, r, n, l, id);
    }
    assert c' < |t.events| ==> StepAt(t, c');
    if FinishedAt(t, c', l, id, outcome') { StaysFinished(t, c, c', l, id); }
  }

  /** MAIN RESULT (at most once): in any run, a call finishes at most once, on one agent, with one
      outcome. */
  lemma FinishedOnce(t: Trace, c: nat, l: LinkId, outcome: C.Outcome,
                     c': nat, l': LinkId, outcome': C.Outcome, id: ReqId)
    requires IsRun(t) && FinishedAt(t, c, l, id, outcome) && FinishedAt(t, c', l', id, outcome')
    ensures c == c' && l == l' && outcome == outcome'
  {
    var r, tool, params := TakenBeforeFinished(t, c, l, id, outcome);
    var r', tool', params' := TakenBeforeFinished(t, c', l', id, outcome');
    TakenOnce(t, r, l, tool, params, r', l', tool', params', id);
    if c < c' {
      NotFinishedAgain(t, c, c', l, id, outcome, outcome');
    } else if c' < c {
      NotFinishedAgain(t, c', c, l, id, outcome', outcome);
    }
  }
}
