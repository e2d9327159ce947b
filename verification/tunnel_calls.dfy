/** What every run of the tunnel does with the calls it carries. */
module TunnelCalls {
  import opened Base
  import opened Wire
  import opened Tunnel
  import opened TunnelSafety
  import R = Registries
  import C = Calls
  import A = AgentTools

  // ---- settled exactly once, and in time ----

  /** How often `resolve` or `reject` was called for `id`. */
  function SettleCount(settled: seq<C.Settlement>, id: ReqId): nat {
    if settled == [] then 0
    else (if settled[0].id == id then 1 else 0) + SettleCount(settled[1..], id)
  }

  lemma {:induction false} SettleCountOfDistinct(settled: seq<C.Settlement>, id: ReqId)
    requires forall i, j :: 0 <= i < j < |settled| ==> settled[i].id != settled[j].id
    ensures SettleCount(settled, id) == if id in C.SettledIds(settled) then 1 else 0
  {
    if settled != [] {
      SettleCountOfDistinct(settled[1..], id);
      assert forall s :: s in settled <==> s == settled[0] || s in settled[1..];
    }
  }

  /** MAIN RESULT (conservation): at any time each issued call is pending or has been settled exactly
      once, never both; ids that were not issued are neither. */
  lemma SettledExactlyOnce(t: Trace, n: nat, id: ReqId)
    requires IsRun(t) && n < |t.states|
    ensures var b := t.states[n].book;
      SettleCount(b.settled, id) + (if id in b.pending then 1 else 0) == if id in b.issued then 1 else 0
  {
    InvHolds(t, n);
    SettleCountOfDistinct(t.states[n].book.settled, id);
  }

  /** Pending calls and live timeouts correspond one to one in every reachable state. */
  lemma PendingIffTimer(t: Trace, n: nat)
    requires IsRun(t) && n < |t.states|
    ensures var b := t.states[n].book;
      forall id :: id in b.pending <==> exists timer :: timer in b.timers && b.timers[timer].id == id
  {
    InvHolds(t, n);
    var b := t.states[n].book;
    forall id ensures id in b.pending <==> exists timer :: timer in b.timers && b.timers[timer].id == id {
      if id in b.pending { assert b.pending[id] in b.timers && b.timers[b.pending[id]].id == id; }
    }
  }

  lemma StepGrowsBook(s: State, e: Event)
    requires Inv(s) && Enabled(s, e)
    ensures s.book.issued <= Next(s, e).book.issued
    ensures s.book.settled <= Next(s, e).book.settled
    ensures s.now <= Next(s, e).now
  {
  }

  /** A settlement is final: what was settled stays, in order, and time does not run backwards. */
  lemma {:induction false} SettlementsAreFinal(t: Trace, m: nat, n: nat)
    requires IsRun(t) && m <= n < |t.states|
    ensures t.states[m].book.settled <= t.states[n].book.settled
    ensures t.states[m].book.issued <= t.states[n].book.issued
    ensures t.states[m].now <= t.states[n].now
    decreases n
  {
    if m < n {
      SettlementsAreFinal(t, m, n - 1);
      InvHolds(t, n - 1);
      assert StepAt(t, n - 1);
      StepGrowsBook(t.states[n - 1], t.events[n - 1]);
    }
  }

  /** Event `i` sends the call to the connection `l`, found registered under the caller's user and
      the requested device name. */
  ghost predicate IssuedAt(t: Trace, i: nat, l: LinkId, id: ReqId, tool: string, params: Json) {
    && i < |t.events| < |t.states| && t.events[i].SendRequest?
    && t.events[i].id == id && t.events[i].tool == tool && t.events[i].params == params
    && R.FindDevice(t.states[i].reg, t.events[i].userId, t.events[i].deviceName) == Some(l)
  }

  ghost predicate ArmedFor(b: C.Book, id: ReqId, due: int) {
    id in b.pending && b.pending[id] in b.timers && b.timers[b.pending[id]].due == due
  }

  lemma StepKeepsDeadline(s: State, e: Event, id: ReqId, due: int)
    requires C.Ok(s.book) && Enabled(s, e) && id in s.book.issued
    requires id in s.book.pending ==> ArmedFor(s.book, id, due)
    ensures id in Next(s, e).book.pending ==> ArmedFor(Next(s, e).book, id, due)
  {
  }

  lemma {:induction false} DeadlineIsFixed(t: Trace, i: nat, n: nat, l: LinkId, id: ReqId, tool: string, params: Json)
    requires IsRun(t) && IssuedAt(t, i, l, id, tool, params) && i < n < |t.states|
    ensures id in t.states[n].book.issued
    ensures id in t.states[n].book.pending ==>
      ArmedFor(t.states[n].book, id, t.states[i].now + C.REQUEST_TIMEOUT_MS)
    decreases n
  {
    assert StepAt(t, n - 1);
    if i < n - 1 {
      InvHolds(t, n - 1);
      assert C.Ok(t.states[n - 1].book);
      hide Inv, Enabled, Next, C.Ok;
      DeadlineIsFixed(t, i, n - 1, l, id, tool, params);
      StepKeepsDeadline(t.states[n - 1], t.events[n - 1], id, t.states[i].now + C.REQUEST_TIMEOUT_MS);
      StepGrowsBook(t.states[n - 1], t.events[n - 1]);
    }
  }

  /** MAIN RESULT: no call is pending for more than two minutes, whatever happens to its agent. */
  lemma NoCallOverstays(t: Trace, i: nat, n: nat, l: LinkId, id: ReqId, tool: string, params: Json)
    requires IsRun(t) && IssuedAt(t, i, l, id, tool, params) && i < n < |t.states|
    requires id in t.states[n].book.pending
    ensures t.states[n].now <= t.states[i].now + 120_000
  {
    DeadlineIsFixed(t, i, n, l, id, tool, params);
    InvHolds(t, n);
  }

  /** Ids are fresh, so an id names one call. */
  lemma IssuedOnce(t: Trace, i: nat, j: nat, k: LinkId, l: LinkId, id: ReqId,
                   tool: string, params: Json, tool': string, params': Json)
    requires IsRun(t) && IssuedAt(t, i, k, id, tool, params) && IssuedAt(t, j, l, id, tool', params')
    ensures i == j
  {
    assert StepAt(t, i) && StepAt(t, j);
    if i < j {
      DeadlineIsFixed(t, i, j, k, id, tool, params);
    } else if j < i {
      DeadlineIsFixed(t, j, i, l, id, tool', params');
    }
  }

  // ---- timeouts ----

  /** Every issued id was handed out by a request that found its device. */
  lemma {:induction false} IssuedSomewhere(t: Trace, n: nat, id: ReqId)
    returns (i: nat, l: LinkId, tool: string, params: Json)
    requires IsRun(t) && n < |t.states| && id in t.states[n].book.issued
    ensures i < n && IssuedAt(t, i, l, id, tool, params)
  {
    assert StepAt(t, n - 1);
    if id in t.states[n - 1].book.issued {
      i, l, tool, params := IssuedSomewhere(t, n - 1, id);
    } else {
      OnlyRequestsIssue(t.states[n - 1], t.events[n - 1], id);
      var e := t.events[n - 1];
      i, l, tool, params := n - 1, R.FindDevice(t.states[n - 1].reg, e.userId, e.deviceName).value, e.tool, e.params;
    }
  }

  lemma OnlyRequestsIssue(s: State, e: Event, id: ReqId)
    requires Enabled(s, e) && id in Next(s, e).book.issued && id !in s.book.issued
    ensures e.SendRequest? && e.id == id && R.FindDevice(s.reg, e.userId, e.deviceName).Some?
  {
    hide AfterAgentStep;
  }

  /** MAIN RESULT (timeout): a call is timed out exactly 120 seconds after it was sent: its timer can
      run then and not earlier, and when it runs it rejects this call as timed out and nothing else. */
  lemma TimeoutIff(t: Trace, i: nat, n: nat, l: LinkId, id: ReqId, tool: string, params: Json)
    requires IsRun(t) && IssuedAt(t, i, l, id, tool, params) && i < n < |t.states| && id in t.states[n].book.pending
    ensures var s, timer := t.states[n], t.states[n].book.pending[id];
      && (Enabled(s, RequestTimesOut(timer)) <==> s.now == t.states[i].now + 120_000)
      && (Enabled(s, RequestTimesOut(timer)) ==>
            var s' := Next(s, RequestTimesOut(timer));
            && s'.book.settled == s.book.settled + [C.Settlement(id, C.TimedOut)]
            && s'.book.pending == s.book.pending - {id}
            && s'.reg == s.reg && s'.links == s.links)
  {
    DeadlineIsFixed(t, i, n, l, id, tool, params);
    InvHolds(t, n);
  }

  lemma TimedOutByStep(s: State, e: Event, x: C.Settlement)
    requires C.Ok(s.book) && Enabled(s, e) && x in Next(s, e).book.settled && x !in s.book.settled
    requires x.outcome.TimedOut?
    ensures e.RequestTimesOut? && s.book.timers[e.timer].id == x.id && x.id in s.book.pending
    ensures s.book.pending[x.id] == e.timer
  {
    hide AfterAgentStep;
  }

  /** Every timeout in the record came exactly 120 seconds after its call was sent. */
  lemma {:induction false} TimedOutOnTime(t: Trace, n: nat, x: C.Settlement)
    returns (i: nat, k: nat, l: LinkId, tool: string, params: Json)
    requires IsRun(t) && n < |t.states| && x in t.states[n].book.settled && x.outcome.TimedOut?
    ensures i < k < n && IssuedAt(t, i, l, x.id, tool, params) && t.events[k].RequestTimesOut?
    ensures t.states[k].now == t.states[i].now + 120_000
  {
    assert StepAt(t, n - 1);
    if x in t.states[n - 1].book.settled {
      i, k, l, tool, params := TimedOutOnTime(t, n - 1, x);
    } else {
      InvHolds(t, n - 1);
      TimedOutByStep(t.states[n - 1], t.events[n - 1], x);
      i, l, tool, params := IssuedSomewhere(t, n - 1, x.id);
      k := n - 1;
      TimeoutIff(t, i, k, l, x.id, tool, params);
    }
  }

  // ---- every reply answers its call ----

  /** Event `r` is the agent's `message` event for the call. */
  ghost predicate StartedAt(t: Trace, r: nat, l: LinkId, id: ReqId, tool: string, params: Json) {
    && r < |t.events| < |t.states| && t.events[r] == AgentReceives(l) && l in t.states[r].links
    && t.states[r].links[l].toAgent != [] && t.states[r].links[l].toAgent[0] == RequestMsg(id, tool, params)
  }

  /** What `handleToolCall` decides for the tool with the servers the agent has in state `r`. */
  ghost predicate DispatchedAt(t: Trace, r: nat, l: LinkId, tool: string, dispatch: A.Dispatch) {
    && r < |t.states| && l in t.states[r].links
    && dispatch == A.HandleToolCall(t.states[r].links[l].agent.servers, tool)
  }

  /** Event `c` is the end of the agent's run of the call, with this outcome. */
  ghost predicate FinishedAt(t: Trace, c: nat, l: LinkId, id: ReqId, outcome: C.Outcome) {
    c < |t.events| && t.events[c] == CallFinishes(l, id, outcome)
  }

  ghost predicate WasSent(t: Trace, n: nat, l: LinkId, id: ReqId, tool: string, params: Json) {
    exists i: nat :: i < n && IssuedAt(t, i, l, id, tool, params)
  }

  ghost predicate WasStarted(t: Trace, n: nat, l: LinkId, id: ReqId, job: Job) {
    exists r: nat :: r < n && StartedAt(t, r, l, id, job.tool, job.params)
      && WasSent(t, r, l, id, job.tool, job.params) && DispatchedAt(t, r, l, job.tool, job.dispatch)
  }

  ghost predicate WasAnswered(t: Trace, n: nat, l: LinkId, id: ReqId, outcome: C.Outcome) {
    exists c: nat, job :: c < n && FinishedAt(t, c, l, id, outcome)
      && WasStarted(t, c, l, id, job) && CanYield(job.dispatch, outcome)
  }

  ghost predicate RequestsExplained(t: Trace, n: nat, l: LinkId, queue: seq<WsMessage>) {
    forall m :: m in queue && m.RequestMsg? ==> WasSent(t, n, l, m.id, m.methodName, m.params)
  }

  ghost predicate JobsExplained(t: Trace, n: nat, l: LinkId, jobs: map<ReqId, Job>) {
    forall id :: id in jobs ==> WasStarted(t, n, l, id, jobs[id])
  }

  ghost predicate RepliesExplained(t: Trace, n: nat, l: LinkId, queue: seq<WsMessage>) {
    forall m :: m in queue && C.IsReply(m) ==> WasAnswered(t, n, l, m.id, C.OutcomeOf(m))
  }

  ghost predicate LinkExplained(t: Trace, n: nat, l: LinkId, k: Link) {
    && RequestsExplained(t, n, l, k.toAgent)
    && JobsExplained(t, n, l, k.agent.jobs)
    && RepliesExplained(t, n, l, k.toRelay)
  }

  lemma ExplainedLater(t: Trace, n: nat, n': nat, l: LinkId, k: Link)
    requires LinkExplained(t, n, l, k) && n <= n'
    ensures LinkExplained(t, n', l, k)
  {
    forall m | m in k.toAgent && m.RequestMsg? ensures WasSent(t, n', l, m.id, m.methodName, m.params) {
      var i: nat :| i < n && IssuedAt(t, i, l, m.id, m.methodName, m.params);
    }
    forall id | id in k.agent.jobs ensures WasStarted(t, n', l, id, k.agent.jobs[id]) {
      assert WasStarted(t, n, l, id, k.agent.jobs[id]);
    }
    forall m | m in k.toRelay && C.IsReply(m) ensures WasAnswered(t, n', l, m.id, C.OutcomeOf(m)) {
      assert WasAnswered(t, n, l, m.id, C.OutcomeOf(m));
    }
  }

  lemma IssueExplained(t: Trace, n: nat, l: LinkId)
    requires n < |t.events| && |t.states| == |t.events| + 1 && StepAt(t, n) && t.events[n].SendRequest?
    requires l in t.states[n].links && LinkExplained(t, n, l, t.states[n].links[l])
    ensures l in t.states[n + 1].links && LinkExplained(t, n + 1, l, t.states[n + 1].links[l])
  {
    var e, k, k' := t.events[n], t.states[n].links[l], t.states[n + 1].links[l];
    ExplainedLater(t, n, n + 1, l, k);
    forall m | m in k'.toAgent && m.RequestMsg? ensures WasSent(t, n + 1, l, m.id, m.methodName, m.params) {
      if m !in k.toAgent { assert IssuedAt(t, n, l, e.id, e.tool, e.params); }
    }
  }

  lemma TakeExplained(t: Trace, n: nat)
    requires n < |t.events| && |t.states| == |t.events| + 1 && StepAt(t, n) && t.events[n].AgentReceives?
    requires LinkExplained(t, n, t.events[n].link, t.states[n].links[t.events[n].link])
    ensures LinkExplained(t, n + 1, t.events[n].link, t.states[n + 1].links[t.events[n].link])
  {
    var l := t.events[n].link;
    var k, k' := t.states[n].links[l], t.states[n + 1].links[l];
    assert k' == AgentTakes(k);
    ExplainedLater(t, n, n + 1, l, k);
    var m := k.toAgent[0];
    forall id | id in k'.agent.jobs ensures WasStarted(t, n + 1, l, id, k'.agent.jobs[id]) {
      if m.RequestMsg? && id == m.id {
        assert WasSent(t, n, l, m.id, m.methodName, m.params);
        assert StartedAt(t, n, l, id, m.methodName, m.params);
        assert DispatchedAt(t, n, l, m.methodName, k'.agent.jobs[id].dispatch);
      }
    }
  }

  lemma ReplyMsgCarriesOutcome(dispatch: A.Dispatch, id: ReqId, outcome: C.Outcome)
    requires CanYield(dispatch, outcome)
    ensures var m := ReplyMsg(id, outcome); C.IsReply(m) && m.id == id && C.OutcomeOf(m) == outcome
  {
  }

  lemma FinishExplained(t: Trace, n: nat)
    requires n < |t.events| && |t.states| == |t.events| + 1 && StepAt(t, n) && t.events[n].CallFinishes?
    requires LinkExplained(t, n, t.events[n].link, t.states[n].links[t.events[n].link])
    ensures LinkExplained(t, n + 1, t.events[n].link, t.states[n + 1].links[t.events[n].link])
  {
    var e := t.events[n];
    var k := t.states[n].links[e.link];
    assert t.states[n + 1].links[e.link] == FinishCall(k, e.id, e.outcome);
    assert FinishedAt(t, n, e.link, e.id, e.outcome);
    FinishCallExplained(t, n, e.link, k, e.id, e.outcome);
  }

  lemma AnsweredNow(t: Trace, n: nat, l: LinkId, id: ReqId, job: Job, outcome: C.Outcome)
    requires FinishedAt(t, n, l, id, outcome) && WasStarted(t, n, l, id, job) && CanYield(job.dispatch, outcome)
    ensures WasAnswered(t, n + 1, l, id, outcome)
  {
  }

  lemma FinishCallExplained(t: Trace, n: nat, l: LinkId, k: Link, id: ReqId, outcome: C.Outcome)
    requires LinkExplained(t, n, l, k) && FinishedAt(t, n, l, id, outcome)
    requires id in k.agent.jobs && CanYield(k.agent.jobs[id].dispatch, outcome)
    ensures LinkExplained(t, n + 1, l, FinishCall(k, id, outcome))
  {
    hide WasAnswered, WasStarted, WasSent;
    ReplyMsgCarriesOutcome(k.agent.jobs[id].dispatch, id, outcome);
    AnsweredNow(t, n, l, id, k.agent.jobs[id], outcome);
    ExplainedLater(t, n, n + 1, l, k);
    AppendExplained(t, n + 1, l, k.toRelay, ReplyMsg(id, outcome));
    hide RepliesExplained, RequestsExplained, ReplyMsg;
  }

  lemma AppendExplained(t: Trace, n: nat, l: LinkId, queue: seq<WsMessage>, m: WsMessage)
    requires RepliesExplained(t, n, l, queue)
    requires C.IsReply(m) ==> WasAnswered(t, n, l, m.id, C.OutcomeOf(m))
    ensures RepliesExplained(t, n, l, queue + [m])
  {
  }

  /** The link carries and works on nothing that it did not before, tool lists and restarts apart. */
  ghost predicate NothingNew(k: Link, k': Link) {
    && (forall m :: m in k'.toAgent && m.RequestMsg? ==> m in k.toAgent)
    && k'.agent.jobs == k.agent.jobs
    && (forall m :: m in k'.toRelay && C.IsReply(m) ==> m in k.toRelay)
  }

  lemma AgentStepAddsNothing(s: State, e: Event)
    requires Enabled(s, e) && AgentStep(e) && !e.AgentReceives? && !e.CallFinishes?
    ensures NothingNew(s.links[e.link], AfterAgentStep(s, e))
  {
  }

  lemma TakeAddsNothing(k: Link)
    requires k.toRelay != []
    ensures NothingNew(k, k.(toRelay := k.toRelay[1..]))
  {
  }

  lemma RelayStepAddsNothing(s: State, e: Event, l: LinkId)
    requires Enabled(s, e) && !AgentStep(e) && !e.SendRequest? && l in s.links
    ensures l in Next(s, e).links && NothingNew(s.links[l], Next(s, e).links[l])
  {
    hide AfterAgentStep, R.UserList, R.StaleLinks, R.AddConnection, R.RemoveConnection, C.ReceiveMessage, C.TimeOut;
    if e.RelayReceives? {
      TakeAddsNothing(s.links[e.link]);
    }
  }

  /** Every other step leaves no more to explain on any link. */
  lemma OtherStepAddsNothing(s: State, e: Event, l: LinkId)
    requires Enabled(s, e) && l in s.links
    requires !e.SendRequest? && !(e.AgentReceives? && e.link == l) && !(e.CallFinishes? && e.link == l)
    ensures l in Next(s, e).links && NothingNew(s.links[l], Next(s, e).links[l])
  {
    hide NothingNew, AfterAgentStep;
    if !AgentStep(e) {
      RelayStepAddsNothing(s, e, l);
    } else if e.link == l {
      AgentStepAddsNothing(s, e);
    } else {
      NothingNewInItself(s.links[l]);
    }
  }

  lemma NothingNewInItself(k: Link)
    ensures NothingNew(k, k)
  {
  }

  lemma StepExplained(t: Trace, n: nat, l: LinkId)
    requires n < |t.events| && |t.states| == |t.events| + 1 && StepAt(t, n)
    requires l in t.states[n].links && LinkExplained(t, n, l, t.states[n].links[l])
    ensures l in t.states[n + 1].links && LinkExplained(t, n + 1, l, t.states[n + 1].links[l])
  {
    var e := t.events[n];
    if e.SendRequest? {
      IssueExplained(t, n, l);
    } else if e.AgentReceives? && e.link == l {
      TakeExplained(t, n);
    } else if e.CallFinishes? && e.link == l {
      FinishExplained(t, n);
    } else {
      OtherStepAddsNothing(t.states[n], e, l);
      ExplainedLater(t, n, n + 1, l, t.states[n].links[l]);
    }
  }

  lemma {:induction false} AllExplained(t: Trace, n: nat, l: LinkId)
    requires IsRun(t) && n < |t.states| && l in t.states[n].links
    ensures LinkExplained(t, n, l, t.states[n].links[l])
  {
    if n > 0 {
      assert StepAt(t, n - 1);
      if l in t.states[n - 1].links {
        AllExplained(t, n - 1, l);
        StepExplained(t, n - 1, l);
      }
    }
  }

  /** What an agent takes was sent to it before. */
  lemma SentBefore(t: Trace, r: nat, l: LinkId, id: ReqId, tool: string, params: Json) returns (i: nat)
    requires IsRun(t) && StartedAt(t, r, l, id, tool, params)
    ensures i < r && IssuedAt(t, i, l, id, tool, params)
  {
    AllExplained(t, r, l);
    var queue := t.states[r].links[l].toAgent;
    assert queue[0] in queue;
    assert WasSent(t, r, l, id, tool, params);
    i :| i < r && IssuedAt(t, i, l, id, tool, params);
  }

  /** Steps `i < r < c` send, start and finish one call on connection `l` with this outcome. */
  ghost predicate Answers(t: Trace, l: LinkId, id: ReqId, outcome: C.Outcome,
                          i: nat, r: nat, c: nat, tool: string, params: Json, dispatch: A.Dispatch) {
    && i < r < c
    && IssuedAt(t, i, l, id, tool, params)
    && StartedAt(t, r, l, id, tool, params)
    && DispatchedAt(t, r, l, tool, dispatch)
    && FinishedAt(t, c, l, id, outcome)
    && CanYield(dispatch, outcome)
  }

  lemma AnsweredMeansAnswers(t: Trace, k: nat, l: LinkId, id: ReqId, outcome: C.Outcome)
    returns (i: nat, r: nat, c: nat, tool: string, params: Json, dispatch: A.Dispatch)
    requires WasAnswered(t, k, l, id, outcome)
    ensures c < k && Answers(t, l, id, outcome, i, r, c, tool, params, dispatch)
  {
    var c': nat, job :| c' < k && FinishedAt(t, c', l, id, outcome)
      && WasStarted(t, c', l, id, job) && CanYield(job.dispatch, outcome);
    var r': nat :| r' < c' && StartedAt(t, r', l, id, job.tool, job.params)
      && WasSent(t, r', l, id, job.tool, job.params) && DispatchedAt(t, r', l, job.tool, job.dispatch);
    var i': nat :| i' < r' && IssuedAt(t, i', l, id, job.tool, job.params);
    i, r, c, tool, params, dispatch := i', r', c', job.tool, job.params, job.dispatch;
  }

  /** MAIN RESULT (correlation): a reply the relay receives for `id` on connection `l` is the outcome
      of `handleToolCall` run for exactly that call, by the agent at the other end of `l`, which was
      the connection registered under the caller's user and the requested device name when the call
      was sent. If the call is still pending, this outcome settles it. */
  lemma ReplyAnswersItsCall(t: Trace, k: nat, l: LinkId, m: WsMessage)
    returns (i: nat, r: nat, c: nat, tool: string, params: Json, dispatch: A.Dispatch)
    requires IsRun(t) && k < |t.events| && t.events[k] == RelayReceives(l)
    requires l in t.states[k].links && t.states[k].links[l].toRelay != [] && t.states[k].links[l].toRelay[0] == m
    requires C.IsReply(m)
    ensures c < k && Answers(t, l, m.id, C.OutcomeOf(m), i, r, c, tool, params, dispatch)
    ensures m.id in t.states[k].book.pending ==>
      t.states[k + 1].book.settled == t.states[k].book.settled + [C.Settlement(m.id, C.OutcomeOf(m))]
  {
    AllExplained(t, k, l);
    i, r, c, tool, params, dispatch := AnsweredMeansAnswers(t, k, l, m.id, C.OutcomeOf(m));
    assert StepAt(t, k);
  }

  /** Every settlement that is not a timeout is the outcome of its own call's run on the agent. */
  lemma {:induction false} SettledByItsOwnRun(t: Trace, n: nat, s: C.Settlement)
    returns (l: LinkId, i: nat, r: nat, c: nat, tool: string, params: Json, dispatch: A.Dispatch)
    requires IsRun(t) && n < |t.states| && s in t.states[n].book.settled && !s.outcome.TimedOut?
    ensures c < n && Answers(t, l, s.id, s.outcome, i, r, c, tool, params, dispatch)
  {
    var e, before := t.events[n - 1], t.states[n - 1];
    assert StepAt(t, n - 1);
    if s in before.book.settled {
      l, i, r, c, tool, params, dispatch := SettledByItsOwnRun(t, n - 1, s);
    } else {
      InvHolds(t, n - 1);
      SettledByStep(before, e, s);
      l := e.link;
      i, r, c, tool, params, dispatch := ReplyAnswersItsCall(t, n - 1, l, before.links[l].toRelay[0]);
    }
  }

  lemma SettledByStep(s: State, e: Event, x: C.Settlement)
    requires Enabled(s, e) && x in Next(s, e).book.settled && x !in s.book.settled && !x.outcome.TimedOut?
    ensures e.RelayReceives? && C.IsReply(s.links[e.link].toRelay[0])
    ensures x == C.Settlement(s.links[e.link].toRelay[0].id, C.OutcomeOf(s.links[e.link].toRelay[0]))
  {
  }
}
