/** Restarts of one agent: when its published list ends up coming from the servers it runs. */
module TunnelRestarts {
  import opened Base
  import opened Wire
  import opened Tunnel
  import opened TunnelSafety
  import opened ToolOrigins
  import A = AgentTools

  /** Event `i` is the agent's `message` event for a restart. */
  ghost predicate RestartArrives(t: Trace, i: nat, l: LinkId)
    requires i < |t.events| && i < |t.states|
  {
    && t.events[i] == AgentReceives(l) && l in t.states[i].links
    && t.states[i].links[l].toAgent != [] && t.states[i].links[l].toAgent[0].RestartMsg?
  }

  // ---- continuations ----

  /** `t` goes on from state `s`. */
  ghost predicate Follows(t: Trace, s: State) {
    && |t.states| == |t.events| + 1 && t.states[0] == s
    && forall i :: 0 <= i < |t.events| ==> StepAt(t, i)
  }

  ghost predicate NoRestartArrives(t: Trace, l: LinkId)
    requires |t.states| == |t.events| + 1
  {
    forall i :: 0 <= i < |t.events| ==> !RestartArrives(t, i, l)
  }

  /** No restart of the agent on `l` is under way. */
  predicate Quiet(s: State, l: LinkId) {
    l in s.links && s.links[l].agent.restarts == map[]
  }

  /** What is asked of an agent between restarts: that one run assigned both its list and its servers;
      or that collecting from its servers could have given its list. */
  datatype Goal = SameRun | Matching

  ghost predicate Met(goal: Goal, a: Agent) {
    match goal
    case SameRun => a.toolsBy == a.serversBy
    case Matching => A.CollectedFrom(a.tools, a.servers)
  }

  /** However the run goes on from `s`, if the agent takes no further restart and finishes those under
      way, it ends up meeting the goal. */
  ghost predicate AlwaysEnds(s: State, l: LinkId, goal: Goal) {
    forall t :: Follows(t, s) && NoRestartArrives(t, l) && Quiet(t.states[|t.events|], l) ==>
      Met(goal, t.states[|t.events|].links[l].agent)
  }

  // ---- when that is certain ----

  /** At most one restart is under way; if it is collecting, it collects from the servers assigned
      last; if none is under way, one run assigned both list and servers. */
  ghost predicate Serial(a: Agent) {
    && (forall j, k :: j in a.restarts && k in a.restarts ==> j == k)
    && (a.restarts == map[] ==> a.toolsBy == a.serversBy)
    && (forall j :: j in a.restarts && a.restarts[j].Collecting? ==> a.serversBy == j)
  }

  predicate Unspawned(a: Agent, j: nat) {
    j in a.restarts && !a.restarts[j].Collecting?
  }

  /** A run that has spawned collects from some of the servers assigned now, if no other is still to
      assign them, and from none otherwise; two runs that have not spawned have nothing to spawn; and
      if none is under way, the list could come from the servers. */
  ghost predicate Sound(a: Agent) {
    && (a.restarts == map[] ==> A.CollectedFrom(a.tools, a.servers))
    && (forall j :: j in a.restarts && a.restarts[j].Collecting? ==>
          (Within(a.restarts[j].servers, a.servers) || exists k :: Unspawned(a, k)))
    && (forall j, k :: j in a.restarts && a.restarts[j].Collecting? && Unspawned(a, k) ==>
          a.restarts[j].servers == [])
    && (forall j, k :: Unspawned(a, j) && Unspawned(a, k) && j != k ==> a.entries == [])
  }

  /** What the run numbers, or the lists, have to be for the goal to be certain. */
  ghost predicate Certain(goal: Goal, a: Agent) {
    match goal
    case SameRun => Serial(a)
    case Matching => Sound(a)
  }

  lemma StepKeepsCertain(s: State, e: Event, l: LinkId, goal: Goal)
    requires Enabled(s, e) && l in s.links && Certain(goal, s.links[l].agent)
    requires e == AgentReceives(l) && s.links[l].toAgent[0].RestartMsg? ==>
      goal.SameRun? && s.links[l].agent.restarts == map[]
    ensures l in Next(s, e).links && Certain(goal, Next(s, e).links[l].agent)
  {
    hide Serial, Sound, Enabled, AfterAgentStep;
    if AgentStep(e) && e.link == l {
      if goal.SameRun? { AgentStepKeepsSerial(s, e); } else { AgentStepKeepsSound(s, e); }
    } else {
      OtherStepKeepsAgent(s, e, l);
    }
  }

  lemma AgentStepKeepsSerial(s: State, e: Event)
    requires Enabled(s, e) && AgentStep(e) && Serial(s.links[e.link].agent)
    requires e.AgentReceives? && s.links[e.link].toAgent[0].RestartMsg? ==> s.links[e.link].agent.restarts == map[]
    ensures Serial(AfterAgentStep(s, e).agent)
  {
    var a, a' := s.links[e.link].agent, AfterAgentStep(s, e).agent;
    if e.ToolsCollected? {
      assert a'.restarts == map[] by {
        assert forall j :: j in a.restarts ==> j == e.run;
      }
    } else if e.ServersClosed? || e.ServersSpawned? {
      assert e.run in a'.restarts;
    } else if e.AgentReceives? && s.links[e.link].toAgent[0].RestartMsg? {
      assert a.nextRun in a'.restarts;
    }
  }

  lemma AgentStepKeepsSound(s: State, e: Event)
    requires Enabled(s, e) && AgentStep(e) && Sound(s.links[e.link].agent)
    requires e.AgentReceives? ==> !s.links[e.link].toAgent[0].RestartMsg?
    ensures Sound(AfterAgentStep(s, e).agent)
  {
    var k := s.links[e.link];
    if e.ServersClosed? {
      ClosingKeepsSound(k.agent, e.run);
    } else if e.ServersSpawned? {
      SpawningKeepsSound(k.agent, e.run, e.started);
    } else if e.ToolsCollected? {
      CollectingKeepsSound(k.agent, e.run, e.listings);
    } else {
      CallsKeepSound(k.agent, AfterAgentStep(s, e).agent);
    }
  }

  lemma CallsKeepSound(a: Agent, a': Agent)
    requires Sound(a) && a'.restarts == a.restarts && a'.entries == a.entries
    requires a'.tools == a.tools && a'.servers == a.servers
    ensures Sound(a')
  {
    assert forall j :: Unspawned(a', j) <==> Unspawned(a, j);
  }

  lemma ClosingKeepsSound(a: Agent, run: nat)
    requires Sound(a) && run in a.restarts && a.restarts[run].Closing?
    ensures Sound(a.(restarts := a.restarts[run := Spawning]))
  {
    var a' := a.(restarts := a.restarts[run := Spawning]);
    assert forall j :: Unspawned(a', j) <==> Unspawned(a, j);
    assert run in a'.restarts;
  }

  lemma SpawningKeepsSound(a: Agent, run: nat, started: seq<bool>)
    requires Sound(a) && run in a.restarts && a.restarts[run].Spawning? && |started| == |a.entries|
    ensures var servers := A.Spawned(a.entries, started);
      Sound(a.(servers := servers, serversBy := run, restarts := a.restarts[run := Collecting(servers)]))
  {
    var servers := A.Spawned(a.entries, started);
    var a' := a.(servers := servers, serversBy := run, restarts := a.restarts[run := Collecting(servers)]);
    WithinItself(servers);
    assert run in a'.restarts && Unspawned(a, run);
    assert forall j :: Unspawned(a', j) <==> Unspawned(a, j) && j != run;
    if k :| Unspawned(a', k) { assert a.entries == [] && servers == []; }
  }

  lemma CollectingKeepsSound(a: Agent, run: nat, listings: seq<A.Listing>)
    requires Sound(a) && run in a.restarts && a.restarts[run].Collecting?
    requires |listings| == |a.restarts[run].servers|
    ensures var tools := A.Collected(a.restarts[run].servers, listings);
      Sound(a.(tools := tools, toolsBy := run, restarts := a.restarts - {run}))
  {
    var servers := a.restarts[run].servers;
    var a' := a.(tools := A.Collected(servers, listings), toolsBy := run, restarts := a.restarts - {run});
    assert forall j :: Unspawned(a', j) <==> Unspawned(a, j);
    if a'.restarts == map[] {
      assert forall j :: j in a.restarts ==> j == run by {
        assert forall j :: j in a.restarts && j != run ==> j in a'.restarts;
      }
      CollectedWithin(servers, listings, a.servers);
    }
  }

  lemma OtherStepKeepsAgent(s: State, e: Event, l: LinkId)
    requires Enabled(s, e) && l in s.links && !(AgentStep(e) && e.link == l)
    ensures l in Next(s, e).links && Next(s, e).links[l].agent == s.links[l].agent
  {
    hide AfterAgentStep;
  }

  lemma {:induction false} StaysCertain(t: Trace, s: State, n: nat, l: LinkId, goal: Goal)
    requires Follows(t, s) && NoRestartArrives(t, l) && n < |t.states|
    requires l in s.links && Certain(goal, s.links[l].agent)
    ensures l in t.states[n].links && Certain(goal, t.states[n].links[l].agent)
  {
    hide Certain;
    if n > 0 {
      StaysCertain(t, s, n - 1, l, goal);
      assert StepAt(t, n - 1) && !RestartArrives(t, n - 1, l);
      StepKeepsCertain(t.states[n - 1], t.events[n - 1], l, goal);
    }
  }

  lemma CertainMeansAlways(s: State, l: LinkId, goal: Goal)
    requires l in s.links && Certain(goal, s.links[l].agent)
    ensures AlwaysEnds(s, l, goal)
  {
    forall t | Follows(t, s) && NoRestartArrives(t, l) && Quiet(t.states[|t.events|], l)
      ensures Met(goal, t.states[|t.events|].links[l].agent)
    {
      StaysCertain(t, s, |t.events|, l, goal);
    }
  }

  // ---- when it is not ----

  lemma NotMetNow(s: State, l: LinkId, goal: Goal)
    requires Quiet(s, l) && !Met(goal, s.links[l].agent)
    ensures !AlwaysEnds(s, l, goal)
  {
    var t := Trace([s], []);
    assert Follows(t, s) && NoRestartArrives(t, l) && Quiet(t.states[|t.events|], l);
  }

  /** What can go wrong after one step can go wrong before it. */
  lemma StepBefore(s: State, e: Event, l: LinkId, goal: Goal)
    requires Enabled(s, e) && !e.AgentReceives? && !AlwaysEnds(Next(s, e), l, goal)
    ensures !AlwaysEnds(s, l, goal)
  {
    hide Enabled, Next, Met;
    var t :| Follows(t, Next(s, e)) && NoRestartArrives(t, l) && Quiet(t.states[|t.events|], l)
      && !Met(goal, t.states[|t.events|].links[l].agent);
    var t' := Trace([s] + t.states, [e] + t.events);
    forall i | 0 <= i < |t'.events| ensures StepAt(t', i) && !RestartArrives(t', i, l) {
      if i > 0 { assert StepAt(t, i - 1) && !RestartArrives(t, i - 1, l); }
    }
    assert Follows(t', s) && t'.states[|t'.events|] == t.states[|t.events|];
  }

  function AllAre(entries: seq<string>, start: bool): (started: seq<bool>)
    ensures |started| == |entries|
  {
    seq(|entries|, _ => start)
  }

  lemma {:induction false} NoneStarts(entries: seq<string>)
    ensures A.Spawned(entries, AllAre(entries, false)) == []
  {
    if entries != [] {
      var n := |entries| - 1;
      assert AllAre(entries, false)[..n] == AllAre(entries[..n], false);
      NoneStarts(entries[..n]);
    }
  }

  /** The next event of the restart `j`, with all servers starting or none, and each listing a tool. */
  function Advance(a: Agent, l: LinkId, j: nat, start: bool): Event
    requires j in a.restarts
  {
    match a.restarts[j]
    case Closing => ServersClosed(l, j)
    case Spawning => ServersSpawned(l, j, AllAre(a.entries, start))
    case Collecting(servers) => ToolsCollected(l, j, OneEach(servers))
  }

  function Advanced(a: Agent, j: nat, start: bool): Agent
    requires j in a.restarts
  {
    match a.restarts[j]
    case Closing => a.(restarts := a.restarts[j := Spawning])
    case Spawning =>
      var servers := A.Spawned(a.entries, AllAre(a.entries, start));
      a.(servers := servers, serversBy := j, restarts := a.restarts[j := Collecting(servers)])
    case Collecting(servers) =>
      a.(tools := A.Collected(servers, OneEach(servers)), toolsBy := j, restarts := a.restarts - {j})
  }

  lemma AdvanceMoves(s: State, l: LinkId, j: nat, start: bool)
    requires l in s.links && j in s.links[l].agent.restarts
    ensures var e := Advance(s.links[l].agent, l, j, start);
      && Enabled(s, e) && !e.AgentReceives?
      && l in Next(s, e).links && Next(s, e).links[l].agent == Advanced(s.links[l].agent, j, start)
  {
    hide A.Spawned, A.Collected, OneEach, AllAre;
  }

  lemma AdvanceAndStay(s: State, l: LinkId, j: nat, start: bool, goal: Goal) returns (s': State)
    requires l in s.links && j in s.links[l].agent.restarts
    ensures l in s'.links && s'.links[l].agent == Advanced(s.links[l].agent, j, start)
    ensures !AlwaysEnds(s', l, goal) ==> !AlwaysEnds(s, l, goal)
  {
    var e := Advance(s.links[l].agent, l, j, start);
    AdvanceMoves(s, l, j, start);
    s' := Next(s, e);
    if !AlwaysEnds(s', l, goal) { StepBefore(s, e, l, goal); }
  }

  /** `x` collects, and would miss the goal if it finished now. */
  ghost predicate Stale(a: Agent, x: nat, goal: Goal) {
    && x in a.restarts && a.restarts[x].Collecting?
    && match goal
       case SameRun => a.serversBy != x
       case Matching => A.NamesDistinct(a.restarts[x].servers) && !Within(a.restarts[x].servers, a.servers)
  }

  lemma OthersKeepStale(a: Agent, x: nat, y: nat, goal: Goal)
    requires Stale(a, x, goal) && y in a.restarts && y != x
    ensures Stale(Advanced(a, y, false), x, goal)
  {
    NoneStarts(a.entries);
  }

  lemma StaleMisses(a: Agent, x: nat, goal: Goal)
    requires Stale(a, x, goal)
    ensures !Met(goal, Advanced(a, x, false))
  {
    if goal.Matching? { OneEachIsTelling(a.restarts[x].servers, a.servers); }
  }

  function Left(phase: Phase): nat {
    match phase
    case Closing => 3
    case Spawning => 2
    case Collecting(_) => 1
  }

  /** A stale run can finish last, after `y` and all others. */
  lemma {:induction false} StaleFinishesLast(s: State, l: LinkId, x: nat, y: nat, goal: Goal)
    requires l in s.links && Stale(s.links[l].agent, x, goal) && y in s.links[l].agent.restarts
    requires y == x ==> forall j :: j in s.links[l].agent.restarts ==> j == x
    ensures !AlwaysEnds(s, l, goal)
    decreases |s.links[l].agent.restarts|, Left(s.links[l].agent.restarts[y])
  {
    hide AlwaysEnds, Met;
    var a := s.links[l].agent;
    var s' := AdvanceAndStay(s, l, y, false, goal);
    var a' := s'.links[l].agent;
    if y == x {
      StaleMisses(a, x, goal);
      assert a'.restarts == map[];
      NotMetNow(s', l, goal);
    } else {
      OthersKeepStale(a, x, y, goal);
      hide Stale;
      if a.restarts[y].Collecting? {
        assert |a'.restarts| < |a.restarts| by { assert a'.restarts.Keys == a.restarts.Keys - {y}; }
        if z :| z in a'.restarts && z != x {
          StaleFinishesLast(s', l, x, z, goal);
        } else {
          StaleFinishesLast(s', l, x, x, goal);
        }
      } else {
        assert a'.restarts.Keys == a.restarts.Keys;
        StaleFinishesLast(s', l, x, y, goal);
      }
    }
  }

  /** `x` has spawned something to collect from. */
  ghost predicate HasSpawned(a: Agent, x: nat, goal: Goal) {
    && x in a.restarts && a.restarts[x].Collecting?
    && (goal.Matching? ==> a.restarts[x].servers != [] && A.NamesDistinct(a.restarts[x].servers))
  }

  /** Once `x` has spawned, a run that has not can spawn nothing after it. */
  lemma {:induction false} LaterRunSpawns(s: State, l: LinkId, x: nat, y: nat, goal: Goal)
    requires l in s.links && HasSpawned(s.links[l].agent, x, goal) && Unspawned(s.links[l].agent, y)
    ensures !AlwaysEnds(s, l, goal)
    decreases Left(s.links[l].agent.restarts[y])
  {
    hide AlwaysEnds;
    var a := s.links[l].agent;
    var s' := AdvanceAndStay(s, l, y, false, goal);
    if a.restarts[y].Closing? {
      LaterRunSpawns(s', l, x, y, goal);
    } else {
      NoneStarts(a.entries);
      StaleFinishesLast(s', l, x, y, goal);
    }
  }

  lemma AllStart(entries: seq<string>)
    requires entries != [] && Distinct(entries)
    ensures var servers := A.Spawned(entries, AllAre(entries, true)); servers != [] && A.NamesDistinct(servers)
  {
    A.SpawnedNames(entries, AllAre(entries, true));
  }

  /** Of two runs that have not spawned, one can spawn everything and the other nothing after it. */
  lemma {:induction false} BothStillSpawn(s: State, l: LinkId, x: nat, y: nat, goal: Goal)
    requires l in s.links && x != y && Unspawned(s.links[l].agent, x) && Unspawned(s.links[l].agent, y)
    requires goal.Matching? ==> s.links[l].agent.entries != [] && Distinct(s.links[l].agent.entries)
    ensures !AlwaysEnds(s, l, goal)
    decreases Left(s.links[l].agent.restarts[x])
  {
    hide AlwaysEnds;
    var a := s.links[l].agent;
    var s' := AdvanceAndStay(s, l, x, true, goal);
    if a.restarts[x].Closing? {
      BothStillSpawn(s', l, x, y, goal);
    } else {
      if goal.Matching? { AllStart(a.entries); }
      LaterRunSpawns(s', l, x, y, goal);
    }
  }

  // ---- the exact conditions ----

  /** Of two runs one can be made to finish last although the other assigned `servers` last. */
  lemma TwoRunsFallOut(s: State, l: LinkId, x: nat, y: nat)
    requires l in s.links && x != y && x in s.links[l].agent.restarts && y in s.links[l].agent.restarts
    ensures !AlwaysEnds(s, l, SameRun)
  {
    var a := s.links[l].agent;
    if a.restarts[x].Collecting? && a.restarts[y].Collecting? {
      if a.serversBy != x { StaleFinishesLast(s, l, x, y, SameRun); } else { StaleFinishesLast(s, l, y, x, SameRun); }
    } else if a.restarts[x].Collecting? {
      LaterRunSpawns(s, l, x, y, SameRun);
    } else if a.restarts[y].Collecting? {
      LaterRunSpawns(s, l, y, x, SameRun);
    } else {
      BothStillSpawn(s, l, x, y, SameRun);
    }
  }

  /** From any state, every way of finishing the restarts under way ends with list and servers of one
      run, exactly if at most one restart is under way and, once it has spawned, nobody has assigned
      `servers` after it. */
  lemma EndsInStepIff(s: State, l: LinkId)
    requires l in s.links
    ensures AlwaysEnds(s, l, SameRun) <==> Serial(s.links[l].agent)
  {
    hide AlwaysEnds;
    var a := s.links[l].agent;
    if Serial(a) {
      CertainMeansAlways(s, l, SameRun);
    } else if a.restarts == map[] {
      NotMetNow(s, l, SameRun);
    } else if j, k :| j in a.restarts && k in a.restarts && j != k {
      TwoRunsFallOut(s, l, j, k);
    } else {
      var j :| j in a.restarts && a.restarts[j].Collecting? && a.serversBy != j;
      StaleFinishesLast(s, l, j, j, SameRun);
    }
  }

  lemma UnsoundCanMismatch(s: State, l: LinkId)
    requires l in s.links && AgentOk(s.links[l].agent) && !Sound(s.links[l].agent)
    ensures !AlwaysEnds(s, l, Matching)
  {
    hide AlwaysEnds;
    var a := s.links[l].agent;
    assert forall j :: j in a.restarts ==> RestartOk(a, j);
    if a.restarts == map[] {
      NotMetNow(s, l, Matching);
    } else if j, k :| j in a.restarts && a.restarts[j].Collecting? && Unspawned(a, k) && a.restarts[j].servers != [] {
      LaterRunSpawns(s, l, j, k, Matching);
    } else if j, k :| Unspawned(a, j) && Unspawned(a, k) && j != k && a.entries != [] {
      BothStillSpawn(s, l, j, k, Matching);
    } else {
      var j :| j in a.restarts && a.restarts[j].Collecting? && !Within(a.restarts[j].servers, a.servers)
        && forall k :: !Unspawned(a, k);
      if k :| k in a.restarts && k != j {
        StaleFinishesLast(s, l, j, k, Matching);
      } else {
        StaleFinishesLast(s, l, j, j, Matching);
      }
    }
  }

  /** MAIN RESULT: from any reachable state, every way of finishing the restarts under way leaves the
      agent with a list its servers could have given, exactly if the state is sound. */
  lemma EndsMatchingIff(t: Trace, n: nat, l: LinkId)
    requires IsRun(t) && n < |t.states| && l in t.states[n].links
    ensures AlwaysEnds(t.states[n], l, Matching) <==> Sound(t.states[n].links[l].agent)
  {
    InvHolds(t, n);
    assert AgentOk(t.states[n].links[l].agent);
    hide AlwaysEnds, Sound;
    if Sound(t.states[n].links[l].agent) {
      CertainMeansAlways(t.states[n], l, Matching);
    } else {
      UnsoundCanMismatch(t.states[n], l);
    }
  }

  lemma RestartTaken(t: Trace, i: nat, l: LinkId)
    requires IsRun(t) && i < |t.events| && RestartArrives(t, i, l)
    ensures AgentOk(t.states[i].links[l].agent) && l in t.states[i + 1].links
    ensures var a := t.states[i].links[l].agent;
      t.states[i + 1].links[l].agent == a.(restarts := a.restarts[a.nextRun := Closing], nextRun := a.nextRun + 1)
  {
    InvHolds(t, i);
    assert StepAt(t, i);
  }

  /** Every restart under way has spawned, and nothing came of it. */
  predicate NothingPending(a: Agent) {
    forall j :: j in a.restarts ==> a.restarts[j] == Collecting([])
  }

  lemma NothingConfigured(entries: seq<string>, servers: seq<A.LocalServer>)
    requires entries == [] && forall s :: s in servers ==> s.name in entries
    ensures servers == []
  {
    assert servers != [] ==> servers[0] in servers && servers[0].name in entries;
  }

  lemma TakenMakesSound(a: Agent, a': Agent)
    requires AgentOk(a) && a'.entries == a.entries && a'.restarts == a.restarts[a.nextRun := Closing]
    requires a.entries == [] || NothingPending(a)
    ensures Sound(a')
  {
    assert Unspawned(a', a.nextRun);
    forall j | j in a'.restarts && a'.restarts[j].Collecting? ensures a'.restarts[j].servers == [] {
      assert RestartOk(a, j);
      if a.entries == [] { NothingConfigured(a.entries, a.restarts[j].servers); }
    }
    assert forall j :: Unspawned(a', j) && j != a.nextRun ==> j in a.restarts && !a.restarts[j].Collecting?;
  }

  lemma SoundWasTakenSafely(a: Agent, a': Agent)
    requires AgentOk(a) && a'.entries == a.entries && a'.restarts == a.restarts[a.nextRun := Closing]
    requires Sound(a') && a.entries != []
    ensures NothingPending(a)
  {
    assert Unspawned(a', a.nextRun);
    forall j | j in a.restarts ensures a.restarts[j] == Collecting([]) {
      assert RestartOk(a, j) && j in a'.restarts && a'.restarts[j] == a.restarts[j];
      assert !Unspawned(a', j);
    }
  }

  lemma SerialWasAlone(a: Agent, a': Agent)
    requires AgentOk(a) && a'.restarts == a.restarts[a.nextRun := Closing]
    ensures Serial(a') <==> a.restarts == map[]
  {
    assert a.nextRun in a'.restarts;
    if j :| j in a.restarts {
      assert RestartOk(a, j);
      assert j in a'.restarts && j != a.nextRun;
    } else {
      assert a.restarts == map[];
    }
  }

  /** MAIN RESULT: in any run, taking a restart is safe (once all restarts have finished, however they
      interleave, the agent's list is one its servers could have given) exactly if the agent has no
      server configured, or no other restart is under way that has yet to spawn or has spawned some
      server. */
  lemma TakingRestartIsSafeIff(t: Trace, i: nat, l: LinkId)
    requires IsRun(t) && i < |t.events| && RestartArrives(t, i, l)
    ensures var a := t.states[i].links[l].agent;
      AlwaysEnds(t.states[i + 1], l, Matching) <==> a.entries == [] || NothingPending(a)
  {
    hide AlwaysEnds, Sound;
    RestartTaken(t, i, l);
    EndsMatchingIff(t, i + 1, l);
    var a, a' := t.states[i].links[l].agent, t.states[i + 1].links[l].agent;
    if a.entries == [] || NothingPending(a) {
      TakenMakesSound(a, a');
    } else if Sound(a') {
      SoundWasTakenSafely(a, a');
    }
  }

  /** Taking a restart ends with list and servers of one run exactly if no other is under way. */
  lemma TakingRestartKeepsStepIff(t: Trace, i: nat, l: LinkId)
    requires IsRun(t) && i < |t.events| && RestartArrives(t, i, l)
    ensures AlwaysEnds(t.states[i + 1], l, SameRun) <==> t.states[i].links[l].agent.restarts == map[]
  {
    hide AlwaysEnds, Serial;
    RestartTaken(t, i, l);
    EndsInStepIff(t.states[i + 1], l);
    SerialWasAlone(t.states[i].links[l].agent, t.states[i + 1].links[l].agent);
  }

  // ---- what connecting and restarting publish ----

  /** MAIN RESULT: when an agent connects, it has exactly the servers that started, and its list shows
      exactly what they listed. */
  lemma ConnectPublishesAll(t: Trace, i: nat) returns (which: seq<nat>, places: seq<(nat, nat)>)
    requires IsRun(t) && i < |t.events| && t.events[i].Connect?
    ensures var e := t.events[i]; e.link in t.states[i + 1].links && |e.entries| == |e.started|
    ensures var e := t.events[i]; var a := t.states[i + 1].links[e.link].agent;
      && a.entries == e.entries && a.restarts == map[] && a.jobs == map[]
      && A.AreStarted(e.entries, e.started, a.servers, which)
      && A.PublishesAll(a.servers, e.listings, a.tools, places)
  {
    assert StepAt(t, i);
    var e := t.events[i];
    which := A.SpawnedExactly(e.entries, e.started);
    places := A.CollectedExactly(A.Spawned(e.entries, e.started), e.listings);
  }

  /** MAIN RESULT: a restart replaces the servers by exactly those that started, and goes on to collect
      from these. */
  lemma RestartSpawnsAll(t: Trace, i: nat) returns (which: seq<nat>)
    requires IsRun(t) && i < |t.events| && t.events[i].ServersSpawned?
    ensures var e := t.events[i]; e.link in t.states[i].links && e.link in t.states[i + 1].links
    ensures var e := t.events[i];
      var a, a' := t.states[i].links[e.link].agent, t.states[i + 1].links[e.link].agent;
      && |e.started| == |a.entries| && A.AreStarted(a.entries, e.started, a'.servers, which)
      && e.run in a'.restarts && a'.restarts[e.run] == Collecting(a'.servers)
      && a'.tools == a.tools && a'.jobs == a.jobs
  {
    assert StepAt(t, i);
    var e := t.events[i];
    which := A.SpawnedExactly(t.states[i].links[e.link].agent.entries, e.started);
  }

  /** MAIN RESULT: a restart ends with a list that shows exactly what the servers it spawned listed, and
      with this list sent to the relay. */
  lemma RestartPublishesAll(t: Trace, i: nat) returns (places: seq<(nat, nat)>)
    requires IsRun(t) && i < |t.events| && t.events[i].ToolsCollected?
    ensures var e := t.events[i]; e.link in t.states[i].links && e.link in t.states[i + 1].links
    ensures var e := t.events[i]; e.run in t.states[i].links[e.link].agent.restarts
    ensures var e := t.events[i]; t.states[i].links[e.link].agent.restarts[e.run].Collecting?
    ensures var e := t.events[i]; var k, k' := t.states[i].links[e.link], t.states[i + 1].links[e.link];
      && A.PublishesAll(k.agent.restarts[e.run].servers, e.listings, k'.agent.tools, places)
      && k'.agent.restarts == k.agent.restarts - {e.run} && k'.agent.servers == k.agent.servers
      && k'.toRelay == k.toRelay + (if k.agentEnd then [ToolsMsg(k'.agent.tools)] else [])
  {
    assert StepAt(t, i);
    var e := t.events[i];
    places := A.CollectedExactly(t.states[i].links[e.link].agent.restarts[e.run].servers, e.listings);
    assert t.states[i].links[e.link].toRelay + [] == t.states[i].links[e.link].toRelay;
  }

  // ---- runs without overlap ----

  /** The agent never receives a restart while another one is under way. */
  ghost predicate OneRestartAtATime(t: Trace, n: nat, l: LinkId) {
    forall i :: 0 <= i < n <= |t.events| < |t.states| && RestartArrives(t, i, l) ==>
      t.states[i].links[l].agent.restarts == map[]
  }

  lemma {:induction false} SerialRestartsSettle(t: Trace, n: nat, l: LinkId)
    requires IsRun(t) && n < |t.states| && l in t.states[n].links && OneRestartAtATime(t, n, l)
    ensures Serial(t.states[n].links[l].agent)
  {
    if n > 0 {
      assert StepAt(t, n - 1);
      if l in t.states[n - 1].links {
        SerialRestartsSettle(t, n - 1, l);
        assert RestartArrives(t, n - 1, l) ==> t.states[n - 1].links[l].agent.restarts == map[];
        StepKeepsCertain(t.states[n - 1], t.events[n - 1], l, SameRun);
      }
    }
  }

  /** If restarts never overlap, then between restarts the agent's list comes from its servers. */
  lemma ListMatchesServers(t: Trace, n: nat, l: LinkId)
    requires IsRun(t) && n < |t.states| && l in t.states[n].links && OneRestartAtATime(t, n, l)
    requires t.states[n].links[l].agent.restarts == map[]
    ensures t.states[n].links[l].agent.toolsBy == t.states[n].links[l].agent.serversBy
    ensures A.CollectedFrom(t.states[n].links[l].agent.tools, t.states[n].links[l].agent.servers)
  {
    SerialRestartsSettle(t, n, l);
    InvHolds(t, n);
    assert AgentOk(t.states[n].links[l].agent);
  }
}
