# mcp-local-tunnel: a Dafny model

mcp-local-tunnel lets a remote MCP client use MCP servers that run on a user's own machines. An
*agent* on each machine spawns the local servers, publishes their tools to a *relay* over a
WebSocket, and answers the calls that come back. The relay keeps a registry of connections by user
and device, multiplexes calls over the sockets, and acts as a stateless OAuth server. A *daemon*
keeps one agent running while client sessions need it.

This project models those four parts and proves what holds in every run. JavaScript is
single-threaded, so each stretch of code between two `await`s or event callbacks is one step.

| module | what it models |
|---|---|
| `Names`, `AgentTools`, `ToolOrigins`, `RelayMcp`, `UniqueNames` | joining, publishing, listing and routing of tool names, and when they clash |
| `Registries`, `RegistryLog` | the relay's registry as a value, and its event log |
| `Calls` | pending calls, their timers and their settlements |
| `ConnectionManagers` | the relay's `ConnectionManager` class with its mutable connection objects |
| `AgentConnections` | the variables and event handlers of the agent's `connect()` |
| `Tunnel`, `TunnelSafety`, `TunnelCalls`, `TunnelOnce`, `TunnelConservation`, `TunnelRegistry`, `TunnelRouting`, `TunnelRestarts`, `TunnelOverlap` | relay, agents and FIFO links as one transition system; calls, restarts, disconnects, device replacement, timeouts and sweeps interleave freely |
| `Keepalive` | the agent's ping and pong timers |
| `Daemon`, `DaemonRace`, `DaemonExclusion` | the session counter and grace timer; daemons competing for one socket and PID file |
| `OAuth`, `OAuthSealing`, `OAuthLineage`, `OAuthAcceptance`, `RedirectUris`, `AgentAuth` | sealed payloads, the login flow, redirect URI verdicts, the agent's token cache |

The code that updates variables is modelled by classes (`ConnectionManager`, `AgentConnection`,
`AgentLink`, `DaemonProcess`, `TokenCache`) and loops. Each method is proved against a function on
values, and the transition systems are built from the same functions, so the results about runs are
about what the methods do. A *run* is a sequence of states and events in which each event is enabled
and each state follows from the last; results take any run and any index into it. Results named
`...Iff` and `...Exactly` say what an operation does in terms of the events before it and of literal
limits, and not in terms of the function that models it.

## What was found

- Two restarts of one agent that overlap at their `await`s can leave `servers` from one and `tools`
  from the other. The agent then publishes a list its servers could not have given: a listed tool's
  call fails, with nothing in flight and relay and agent agreeing on the list
  (`OverlappingRestartsLoseServer`). Taking a restart is safe from this if and only if no server is
  configured, or every other restart under way has spawned already and none of its servers came up
  (`TakingRestartIsSafeIff`, `EndsMatchingIff`).
- `src/stub-server.ts:52-54` calls daemon start-up race-safe: one daemon wins the socket and the
  other exits. The code does not ensure it: a daemon that found the socket stale unlinks the path
  another one has begun to listen on meanwhile, and both run (`TwoDaemonsCanRun`). A clean-up can do
  the same to a daemon that took the path over. These unlinks are exactly what breaks exclusion: it
  holds if and only if no unlink removes a path that leads to another daemon listening or running
  (`ExclusionIff`, `RunExcludesIff`). The PID check repairs it within one check interval
  (`OneDaemonAfterInterval`). The model follows the code.
- A grace period above 2147483647 ms is cut to 1 ms by Node's timers, so the period is honoured if
  and only if it is not above that (`GraceHonouredIff`).
- Splitting a published name at its first `__` gives back the server exactly if the server's name
  contains no `__` and does not end in `_` (`SplitRecoversIff`); configuration does not check this.
- An allow-list entry without a star that is not written as the URL parser writes it, say with an
  upper-case host or a query, is accepted in the configuration and never matches
  (`ExactEntryMatchesIff`).
- The minute the agent subtracts from a token's lifetime covers delays of up to 60001 ms in all, and
  not one more (`CachedTokenAcceptedIff`).

## Model

| member | source | states |
|---|---|---|
| Names.SplitRecoversIff | src/agent.ts:124-130 | for every right part, splitting a joined name at its first separator gives back both parts if and only if the left part contains no separator and does not end in an underscore |
| Names.JoinInjective | src/agent.ts:94 | names joined from clean left parts are equal only if both parts are |
| Names.IndexOfSep | src/agent.ts:124 | finds the first separator, or says that there is none anywhere |
| AgentTools.SpawnServers | src/agent.ts:52-84 | the spawned servers are the configuration entries that started, in configuration order |
| AgentTools.SpawnedNames | src/agent.ts:54-77 | spawned servers have distinct names, all of them configured |
| AgentTools.SpawnedExactly | src/agent.ts:52-84 | every configured server that starts is in the result, each once and in configuration order, and nothing else is |
| AgentTools.CollectTools | src/agent.ts:86-106 | publishes every tool of every server that could be listed, in order, under the joined name; a failed listing contributes nothing and stops nothing |
| AgentTools.CollectedHasOrigin | src/agent.ts:88-99 | every published tool is the published form of one tool of one of the servers |
| AgentTools.CollectedExactly | src/agent.ts:86-106 | every tool of every server that could be listed is published, each once, server by server in order, with its schema and annotations unchanged and its description after the server's name, and nothing else is |
| AgentTools.HandleToolCallIff | src/agent.ts:119-138 | a call of any name is forwarded exactly to the first server named by what stands before the first separator, for the tool named by what stands after it; the error says unknown tool exactly if there is no separator, and unknown server exactly if there is one and no such server |
| AgentTools.PublishedNameForwardsIff | src/agent.ts:119-137 | whatever `servers` holds, a call under a published name is forwarded to the server of the name's origin, under the original tool name, if and only if that server's name is clean and `servers` has a server of this name |
| ToolOrigins.PublisherIsKnown | src/agent.ts:93-95 | name and description of a published tool together tell which server published it, whatever characters the names contain |
| ToolOrigins.ListsInterchangeIff | src/agent.ts:86-106 | every list that could be collected from some servers could be collected from others if and only if the former are some of the latter, in the same order |
| AgentTools.PublishedNameRoutesBackIff | src/agent.ts:119-137 | a call under a published name is forwarded to the server and original tool it was made from if and only if the server's name is clean |
| RelayMcp.ListTools | src/relay-mcp-server.ts:18-63 | the list is `status`, `restart` and then every tool of the user's devices in order, with nothing left out or added |
| RelayMcp.UserIsShownAll | src/connection-manager.ts:87-107 | the user is shown every tool the connected devices have published, each once, device by device in order, and nothing else; schema and annotations as published, name and description with the device's name in front exactly if there are several devices |
| RelayMcp.StatusNamesDevices | src/relay-mcp-server.ts:22-26 | the description of `status` names the connected devices in order, with commas between, or says that there is none |
| RelayMcp.CallToolPartition | src/relay-mcp-server.ts:65-120 | for every user and name: unknown exactly if `ListTools` did not return the name; `restart` and `status` act exactly if a device is connected; routed exactly if the name was listed and is no meta name |
| Base.FirstIndex | src/relay-mcp-server.ts:104 | finds the first element that fits, of tools here and of servers in the agent, or says that none fits |
| RelayMcp.ListedHasOrigin | src/connection-manager.ts:87-107 | every listed tool shows one tool of one connected device |
| RelayMcp.CallOfListedName | src/relay-mcp-server.ts:102-120 | calling any listed name, prefixed or not, is routed to the device of the first entry of that name under exactly the name that device published, whatever the names contain |
| RelayMcp.MetaToolsNotShadowed | src/relay-mcp-server.ts:68-87 | no tool an agent publishes can be called `status` or `restart`, in single- or multi-device mode |
| RelayMcp.CallReachesOriginIff | src/relay-mcp-server.ts:102-120 | if the device behind the first entry of a listed name is in sync, a call of the name reaches the device, the local server and the original tool name behind that entry if and only if this one server's name is clean |
| UniqueNames.NamesNeverClashIff | src/relay-mcp-server.ts:28-60 | for any devices and servers, all names shown to the client, the meta tools included, differ pairwise whatever the servers list, if and only if no server's prefix (`device__server__`, or `server__` for a single device) begins with another server's; the handler's search then has at most one match |
| UniqueNames.CleanNamesNeverClash | src/connection-manager.ts:92-103 | distinct server names per device and distinct device names, clean where they are used as prefixes, rule out every clash |
| UniqueNames.PrefixesCanClash | src/agent.ts:94 | if one server's prefix begins with another's, there are tool lists with which two listed names are equal |
| Registries.AddConnectionKeepsOk | src/connection-manager.ts:73-77 | connecting keeps: no stored list is empty, every entry has its key's user, a user's device names are distinct |
| Registries.RemoveConnectionKeepsOk | src/connection-manager.ts:140-151 | closing, of a current or a superseded connection, keeps the same |
| Registries.ReceiveKeepsOk | src/connection-manager.ts:61-63 | pings and tool lists, also late ones, keep the same |
| Registries.FindDeviceIffRegistered | src/connection-manager.ts:110-114 | the lookup of a call finds a connection if and only if it is registered under the caller's user and that device name |
| Registries.InListIffRegistered | src/connection-manager.ts:83-85 | every user's list, also of a user without connections, holds exactly the registered connections of that user |
| RegistryLog.RegistryRefinesLog | src/connection-manager.ts:45-81 | after any sequence of connects, closes, messages and pings, a user's list is exactly the connections opened, not closed and not superseded since, in connect order; the user has an entry only if there is one |
| RegistryLog.ReplayHoldsLastValues | src/connection-manager.ts:156-161 | every connection, superseded or not, holds the last tool list received on it and the time of its last ping or its connect |
| RegistryLog.ReplayIdentity | src/connection-manager.ts:47-49 | every connection object keeps the user, device name and connect time it was made with |
| RegistryLog.SupersededIsInert | src/connection-manager.ts:140-161 | once a connection has lost its place, dropping all its later events from the log, wherever they stand among the events of others, leaves every list and every other connection the same |
| Calls.SettleKeepsOk | src/connection-manager.ts:163-177 | settling a call keeps: pending calls and live timers correspond one to one; each issued call is pending or settled, never both, and settled at most once |
| Calls.IssueKeepsOk | src/connection-manager.ts:116-127 | issuing a call with a fresh id keeps the same |
| Calls.TimeOutIsReply | src/connection-manager.ts:122-125 | a timer that runs settles the call it was armed for, which is still pending, exactly as a reply would |
| Calls.TimeOutKeepsOk | src/connection-manager.ts:122-125 | a timeout keeps the correspondence of calls and timers and the single settlement |
| Calls.ReceiveMessageKeepsOk | src/connection-manager.ts:163-177 | any message, also a duplicate, late or unknown reply, keeps the same |
| Calls.LateReplyIgnored | src/connection-manager.ts:164-167 | a reply changes nothing if and only if its call is settled already or its id was never issued |
| ConnectionManagers.ConnectionManager.constructor | src/connection-manager.ts:24-29 | starts with an empty registry and no calls |
| ConnectionManagers.ConnectionManager.AddConnection | src/connection-manager.ts:45-81 | the new object joins its user's list, a namesake leaves it, every other list and object stays as it was |
| ConnectionManagers.ConnectionManager.RemoveConnection | src/connection-manager.ts:140-154 | the object, compared by identity, leaves its user's list; an emptied list is deleted; a superseded object changes nothing |
| ConnectionManagers.ConnectionManager.OnPing | src/connection-manager.ts:61-63 | only the time of the last ping of that connection changes |
| ConnectionManagers.ConnectionManager.HandleMessage | src/connection-manager.ts:156-178 | a tool list replaces that connection's list; a response or error settles its pending call and clears its timer; everything else is left alone |
| ConnectionManagers.ConnectionManager.GetToolsForUser | src/connection-manager.ts:87-107 | the nested loops over the mutable objects give the list the routing results are about |
| ConnectionManagers.ConnectionManager.SendRequest | src/connection-manager.ts:109-130 | throws exactly if no such device is registered; otherwise enters one pending call with its timer and sends one message, on the socket of the connection found and on no other |
| ConnectionManagers.ConnectionManager.RequestTimedOut | src/connection-manager.ts:122-125 | removes the pending call and rejects it; nothing else changes |
| ConnectionManagers.ConnectionManager.SendRestart | src/connection-manager.ts:132-138 | sends one restart message on the socket of each connection in the user's list, and on no other |
| ConnectionManagers.ConnectionManager.ListedOnce | src/connection-manager.ts:74-77 | no connection is in a user's list twice |
| ConnectionManagers.ConnectionManager.TerminateStale | src/connection-manager.ts:31-41 | terminates exactly the sockets of registered connections last heard from more than 90 seconds ago, over all users |
| ConnectionManagers.ConnectionManager.FilteredByIdentity | src/connection-manager.ts:146 | filtering by object identity is removing the one socket from the list |
| ConnectionManagers.ConnectionManager.FilteredByName | src/connection-manager.ts:75 | filtering by device name is removing the sockets of that name, order kept |
| AgentConnections.AgentConnection.constructor | src/agent.ts:140-155 | `connect` starts with the servers that came up and their collected tools |
| AgentConnections.AgentConnection.OnOpen | src/agent.ts:157-163 | the current tool list is the first thing sent |
| AgentConnections.AgentConnection.OnMessage | src/agent.ts:188-206 | a request is dispatched against the servers of that moment; a restart begins; nothing else happens before the first await |
| AgentConnections.AgentConnection.OnCallSettled | src/agent.ts:193-204 | one response or error with the call's own id is sent, if the socket is up |
| AgentConnections.AgentConnection.OnServersSpawned | src/agent.ts:208-209 | `servers` becomes what this restart spawned, and this restart collects from exactly these |
| AgentConnections.AgentConnection.OnToolsCollected | src/agent.ts:209-211 | `tools` becomes what this restart collected, and the same list is sent |
| AgentConnections.AgentConnection.OnClose | src/agent.ts:219-231 | the socket counts as closed, and the servers and tools stay as they were |
| TunnelSafety.InvHolds | src/connection-manager.ts:24-179 | in every reachable state: registry and call book are consistent, every agent's names are distinct and its list comes from servers one run of spawning produced, applying what is in flight to the relay's copy gives the agent's list, and no timer is overdue |
| TunnelSafety.AgentStepKeepsSyncOk | src/agent.ts:157-212 | every step of an agent keeps: applying the tool lists in flight in order gives the agent's current list |
| TunnelCalls.SettledExactlyOnce | src/connection-manager.ts:116-129 | at any time of any run, times settled plus times pending is one for an issued id and zero for any other |
| TunnelCalls.PendingIffTimer | src/connection-manager.ts:122-127 | the pending ids are exactly the ids with a live timer |
| TunnelCalls.SettlementsAreFinal | src/connection-manager.ts:163-177 | later states only append to the settlements made |
| TunnelCalls.NoCallOverstays | src/connection-manager.ts:20-127 | no call is pending more than 120000 ms after it was sent, whatever happens to its agent |
| TunnelCalls.DeadlineIsFixed | src/connection-manager.ts:122-127 | as long as a call is pending, its own timer is live with the deadline set when it was sent |
| TunnelCalls.TimeoutIff | src/connection-manager.ts:122-125 | a pending call's timer can run exactly 120000 ms after the call was sent, and then it rejects this call as timed out and changes nothing else |
| TunnelCalls.TimedOutOnTime | src/connection-manager.ts:20-125 | every call that was timed out was so exactly 120000 ms after it was sent |
| TunnelCalls.IssuedOnce | src/connection-manager.ts:116 | an id names one call of the run |
| TunnelCalls.ReplyAnswersItsCall | src/agent.ts:188-205 | over every interleaving, a reply received for an id is the outcome of dispatching exactly that call's tool on the agent whose connection was registered under the caller's user and device name when it was sent; if the call is pending, this outcome settles it |
| TunnelCalls.SettledByItsOwnRun | src/connection-manager.ts:163-177 | every settlement that is not a timeout is the outcome of its own call's run on that agent |
| TunnelOnce.TakenOnce | src/agent.ts:188-194 | in any run, a call is taken at most once, by one agent |
| TunnelOnce.FinishedOnce | src/agent.ts:193-204 | in any run, a call finishes at most once, on one agent, with one outcome |
| TunnelConservation.PendingCallIsSomewhere | src/connection-manager.ts:121-129 | over every interleaving, a call sent over a working link is, as long as it is pending and neither end has seen the link close, in exactly one of three places: requested on the way to the agent, under way there, or answered on the way back |
| TunnelConservation.IssuedIsQueued | src/connection-manager.ts:121-129 | a call sent is the last message on the way to the agent of its connection |
| TunnelConservation.TakenCallIsUnderWay | src/agent.ts:192-194 | from the step an agent takes a call to the step it finishes it, the call is under way with its own tool and arguments, dispatched against the `servers` of the moment it was taken |
| TunnelConservation.FinishedCallIsAnswered | src/agent.ts:195-204 | when a call finishes while the agent's end is up, the last message on the way to the relay is its answer under its own id: the result, or the error's message |
| TunnelConservation.FailedDispatchIsReported | src/agent.ts:197-204 | a call that could not be dispatched finishes with exactly that error |
| TunnelConservation.EndsStayDown | src/agent.ts:219-231 | in every run, an agent that has closed takes and sends nothing more, a broken or terminated relay socket sends nothing more, and nothing is received on a connection the relay has seen close |
| TunnelConservation.RestartIsQueued | src/connection-manager.ts:132-138 | a restart a user asks for becomes the last message on the way to exactly that user's registered connections whose relay end works, and changes nothing else |
| TunnelRegistry.RegistryFollowsLog | src/connection-manager.ts:45-81 | in every run the registry is the replay of the connection events so far, whatever calls, restarts and timeouts happen between them |
| TunnelRegistry.UserListInRun | src/connection-manager.ts:73-151 | at any time of any run, a user's list is the connections opened, not closed and not superseded so far, in connect order |
| TunnelRegistry.ToolListsAgree | src/agent.ts:205-212 | while both ends are up, applying the lists in flight turns the relay's copy into the agent's list; with none in flight both agree, however restarts overlapped |
| TunnelRegistry.SilentIsTerminated | src/connection-manager.ts:29-43 | a connection silent for more than 150000 ms has been terminated by the sweep or is no longer registered |
| TunnelRegistry.PingingIsSpared | src/connection-manager.ts:31-41 | a connection never unheard for more than 90000 ms, counting its connect as heard, is never terminated by the sweep |
| TunnelRegistry.SweepIff | src/connection-manager.ts:31-41 | a run of the sweep terminates exactly the registered connections last heard from more than 90000 ms ago, and the next run is due 60000 ms later |
| TunnelRegistry.TerminatedIsCut | src/connection-manager.ts:37 | in every run a terminated connection sends nothing any more |
| TunnelRouting.MetaCallsIff | src/relay-mcp-server.ts:68-100 | in any reachable state, calling `restart` asks for a restart and `status` shows the devices, exactly if the user has a registered connection |
| TunnelRouting.ListedToolIsReachedIff | src/relay-mcp-server.ts:102-120 | in any reachable state in which the list the relay holds for the device of the first entry of a name could have been collected from the agent's `servers`, a call of the name is routed to the registered connection behind the entry, and its agent would forward it to the server and original tool behind the entry if and only if this server's name is clean |
| TunnelRouting.DrainedIsSettled | src/agent.ts:157-163 | a connected agent whose list comes from its `servers` is in that situation once no list is in flight |
| TunnelRouting.PublishedHolds | src/agent.ts:86-106 | in every run, every tool an agent has published, that is in flight or that the relay holds was published by a server configured on that agent |
| TunnelRouting.ListedCallIsDeliveredIff | src/agent.ts:188-194 | in whatever state it is sent and over every interleaving, the request sent for a listed name is taken by the agent on the connection behind the first entry and by no other, with the caller's arguments, and goes on to the server and original tool behind the entry if and only if this server's name is clean and `servers` has a server of this name at the step that takes it |
| TunnelRouting.ListedCallIsAnsweredIff | src/agent.ts:188-205 | if the call of a listed name, sent in whatever state, settles other than by timeout, its outcome is that of a dispatch on that connection, to the server and original tool behind the entry under exactly the same condition |
| TunnelRestarts.EndsMatchingIff | src/agent.ts:205-212 | from any reachable state, every way of finishing the restarts under way leaves the agent with a list that could have been collected from its `servers`, if and only if: with none under way, this holds already; what spawned runs collect from is nothing while another has yet to spawn, and otherwise some of `servers` in order; and two runs have yet to spawn only if nothing is configured |
| TunnelRestarts.TakingRestartIsSafeIff | src/agent.ts:205-212 | in any run, taking a restart message leaves such a list certain if and only if no server is configured, or no other restart is under way that has yet to spawn or has spawned some server |
| TunnelRestarts.EndsInStepIff | src/agent.ts:205-212 | from any state, every way of finishing the restarts under way ends with list and servers assigned by one run, if and only if at most one restart is under way and nobody has assigned servers after it spawned (with none under way: one run has assigned both) |
| TunnelRestarts.TakingRestartKeepsStepIff | src/agent.ts:205-212 | taking a restart is certain to end with list and servers of one run if and only if no other restart is under way |
| TunnelRestarts.SerialRestartsSettle | src/agent.ts:205-212 | if an agent never takes a restart while one is under way, then at most one is ever under way, and the list is certain to end up in step with the servers |
| TunnelRestarts.ListMatchesServers | src/agent.ts:205-212 | if restarts never overlap, the list published between restarts is what collecting from `servers` gave |
| TunnelRestarts.ConnectPublishesAll | src/agent.ts:140-155 | an agent that connects has exactly the servers that started, and its list shows exactly what they listed |
| TunnelRestarts.RestartSpawnsAll | src/agent.ts:207-209 | a restart replaces `servers` by exactly those that started and goes on to collect from these |
| TunnelRestarts.RestartPublishesAll | src/agent.ts:209-211 | a restart ends with a list that shows exactly what the servers it spawned listed, and with this list sent |
| TunnelOverlap.OverlappingRestartsLoseServer | src/agent.ts:205-212 | a reachable state with nothing in flight and lists in agreement in which the call of a listed tool fails at the agent, because two restarts overlapped |
| Keepalive.AgentLink.OnOpen | src/agent.ts:157-178 | opening starts the ping interval |
| Keepalive.AgentLink.OnPingInterval | src/agent.ts:166-178 | a ping on an open socket clears the old pong timeout and arms a new one, on a closing socket nothing is armed, and the invariant is kept |
| Keepalive.AgentLink.OnPong | src/agent.ts:181-186 | a pong clears the pong timeout |
| Keepalive.AgentLink.OnPongTimeout | src/agent.ts:173-176 | the timeout terminates the socket |
| Keepalive.AgentLink.OnClose | src/agent.ts:219-228 | closing clears the interval and the timeout |
| Keepalive.InvHolds | src/agent.ts:165-186 | in every run, also while the socket is closing, the only live pong timeout is the one for the last ping, still unanswered; on an open link it comes before the next ping, and both lie within 40 seconds of the last sign of life |
| Keepalive.SilentLinkIsTerminated | src/agent.ts:20-186 | an open link has had its open event or a pong within the last 40000 ms (section 5.5.3 of RFC 6455) |
| Keepalive.PingsEveryHalfMinute | src/agent.ts:166-178 | the ping interval runs first exactly 30000 ms after the open event and then exactly 30000 ms after each run |
| Keepalive.UnansweredPingTerminates | src/agent.ts:166-176 | a ping that no pong answers has terminated the link once 10000 ms have passed, unless the link closed before |
| Keepalive.OpenIff | src/agent.ts:157-228 | a link is open from its open event until it starts closing, closes or is terminated, and has been terminated exactly if a pong timeout ran |
| Keepalive.AnsweringLinkIsSpared | src/agent.ts:165-186 | if every ping sent so far, once 10000 ms have passed, has been followed by a pong event within them, the keepalive has not terminated the link |
| Daemon.DaemonProcess.DoShutdownNow | src/daemon.ts:72-79 | stops the agent if it has started, exits at once otherwise |
| Daemon.DaemonProcess.DoScheduleShutdown | src/daemon.ts:81-92 | clears the timer armed before and arms one, a grace period ahead |
| Daemon.DaemonProcess.OnShutdownAsked | src/daemon.ts:196-197 | a signal shuts down whatever sessions are open, and the invariant is kept |
| Daemon.DaemonProcess.OnShutdownTimer | src/daemon.ts:86-91 | shuts down only if no session is open, and the invariant is kept |
| Daemon.DaemonProcess.OnConnection | src/daemon.ts:111-118 | counts the session, disarms the timer, and keeps the invariant |
| Daemon.DaemonProcess.OnSocketClose | src/daemon.ts:120-127 | uncounts the session, arms the timer if it was the last, and keeps the invariant |
| Daemon.DaemonProcess.OnAgentStarted | src/daemon.ts:185-194 | records the agent, arms the timer whether or not sessions are open, and keeps the invariant |
| Daemon.CounterIsSessions | src/daemon.ts:111-127 | in every run the counter is the number of sessions whose opening has come and whose close has not |
| Daemon.ShutsDownIff | src/daemon.ts:72-92 | a daemon begins to shut down exactly when its grace timer runs with no session open, on a signal or a failed PID check, or when its agent fails to start; it then stops its agent first exactly if the agent has started, and exits at once otherwise |
| Daemon.ShutdownAfterIdleDelay | src/daemon.ts:81-127 | when the grace timer shuts the daemon down, no session has been open for the whole delay, also if start-up armed the timer while sessions were open |
| Daemon.GraceHonouredIff | src/daemon.ts:81-92 | in all runs a grace shutdown follows a full idle grace period, if and only if the period is at most the longest delay Node's timers honour |
| Daemon.WaitingEnds | src/daemon.ts:185-194 | while a started daemon has no session and is not shutting down, its timer is armed, with a deadline at most one delay after the waiting began |
| DaemonRace.PassedCheckMeansLastWriter | src/daemon.ts:158-182 | among any number of daemons, under every interleaving, one that passes a PID check is the last writer of the PID file |
| DaemonRace.CheckIff | src/daemon.ts:158-182 | a PID check is passed exactly by the last writer of the PID file as long as no clean-up has unlinked the file since; a daemon that finds no file goes on to clean up, one that finds another's leaves both files alone |
| DaemonRace.PassedCheckComesAgain | src/daemon.ts:158-181 | a daemon that has passed its check is due again one interval later |
| DaemonRace.ProbeAndListenIff | src/daemon.ts:96-149 | a daemon that starts while the socket path is live, or finds it taken when it listens, exits and touches nothing; any other goes on, and listening makes the path lead to it |
| DaemonRace.CleanupRemovesBoth | src/daemon.ts:56-70 | a daemon that shuts down unlinks first the socket path and then the PID file |
| DaemonRace.RoundLeavesOne | src/daemon.ts:158-182 | two daemons that both pass a check after the last write are the same daemon |
| DaemonRace.OneDaemonAfterInterval | src/daemon.ts:153-182 | once more than a check interval has passed since the last write, at most the last writer still runs |
| DaemonRace.WriterHolds | src/daemon.ts:134-154 | after a write the PID file names nobody but that writer, and every other running daemon's next check comes within one interval |
| DaemonRace.TwoDaemonsCanRun | src/daemon.ts:96-109 | a run in which two daemons both find the socket stale and both come to run |
| DaemonExclusion.HarmlessRunsExclude | src/daemon.ts:96-154 | if no unlink of a run removes a socket path that leads to another daemon listening or running, the path leads to every such daemon at any time, so at most one runs |
| DaemonExclusion.ExclusionIff | src/daemon.ts:56-109 | after harmless steps at most one daemon runs, and however the run goes on with harmless unlinks at most one will, if and only if the next step, be it the unlink of a stale path or of a clean-up, removes no other live daemon's path |
| DaemonExclusion.RunExcludesIff | src/daemon.ts:56-154 | in a whole run every state guarantees exclusion from there on if and only if none of the run's unlinks removes another live daemon's path |
| RedirectUris.PinnedEntryMatchesOnlyItsOrigin | src/redirect-uri.ts:40-41 | an allow-list entry that goes past its host with a slash, with or without a trailing star, matches URIs of that origin only |
| RedirectUris.OnlyPinnedOriginsAllowed | src/redirect-uri.ts:23-43 | if every entry of the list does, a hosted web URI is allowed only at one of these origins |
| RedirectUris.VerdictIff | src/redirect-uri.ts:23-43 | for every URI and allow list: invalid exactly if it does not parse, has a fragment or one of the seven blocked schemes; of the rest, native schemes and loopback hosts are allowed under any list, and others exactly if an entry covers origin and path, and otherwise need consent |
| RedirectUris.TrustsIffNamed | src/redirect-uri.ts:23-43 | whatever the URL parser, a list whose entries are written as the parser writes a hosted web URI lets some URI string of an origin through without consent if and only if one of its entries is at this origin |
| RedirectUris.ExactEntryMatchesIff | src/redirect-uri.ts:40-41 | an entry without a star lets some URI string of an origin through if and only if the entry is itself a URI of this origin as the parser writes it; with an upper-case host or a query it never matches |
| RedirectUris.DefaultsTrustFourOrigins | src/redirect-uri.ts:7-14 | if the parser splits the built-in entries after their hosts, the built-in list lets URI strings through at each of the four origins it names and at no other |
| OAuthSealing.UnsealsIffSealed | src/crypto.ts:12-40 | at any time of any run, unsealing a string gives a payload if and only if an earlier step of the run sealed exactly this payload as this string, it is of the expected type and has not expired |
| OAuthSealing.SealedOnce | src/crypto.ts:12-19 | no string is sealed at two steps, nor for two payloads |
| OAuth.JoinSplit | src/relay-server.ts:60 | joining the scopes a string was split into gives back the string |
| OAuth.SplitHasNoSpaces | src/relay-server.ts:60 | no part of a split scope string contains a space |
| OAuthLineage.EverythingExplained | src/oauth-provider.ts:70-200 | in every run, each sealed payload of any type is what the authorize, callback, exchange or refresh steps behind it determine |
| OAuthLineage.AcceptedTokenHasLineage | src/oauth-provider.ts:132-215 | an accepted access token carries the client and scopes of one authorize request and the user of the login made for it, through the code exchange and any number of refreshes, and is accepted at most 30 days per refresh plus one hour after the exchange (section 6 of RFC 6749) |
| OAuthLineage.ChainLifetime | src/oauth-provider.ts:167-191 | n refreshes after a code exchange, no more than n times 30 days have passed |
| OAuthLineage.ChallengeIsTheRequests | src/oauth-provider.ts:123-130 | the challenge given out for a code is the one of the authorize request behind it (section 4.4 of RFC 7636) |
| OAuthLineage.ScopeIsEchoed | src/oauth-provider.ts:158-199 | every token response of a run, to a code exchange or a refresh, repeats the scope string of the authorize request behind it, character for character |
| OAuthLineage.CodeLeavesByVerdict | src/relay-server.ts:90-118 | in every run a code leaves by plain redirect if and only if the verdict is allowed, through the confirmation page if and only if consent is needed, and always to the URI and with the state of its own request |
| OAuthLineage.PlainRedirectsAreTrusted | src/relay-server.ts:109-118 | with the built-in list a code leaves unconfirmed only to a native scheme, the user's own machine or a trusted origin, never with a fragment or a blocked scheme |
| OAuthAcceptance.AcceptsIff | src/relay-server.ts:43-56 | a request is taken exactly if client, redirect URI and challenge are given, the method is S256 if given, and the URI parses, has no fragment and no blocked scheme |
| OAuthAcceptance.AuthorizeOpensIff | src/oauth-provider.ts:70-101 | in every run, a string is sealed for a request exactly if the request is well formed, and opens for exactly ten minutes, to what the request said |
| OAuthAcceptance.CallbackOpensIff | src/relay-server.ts:90-107 | a callback goes on to the upstream provider exactly if its string was made for a well-formed request at most ten minutes ago |
| OAuthAcceptance.ChallengeIff | src/oauth-provider.ts:123-130 | a code's challenge is handed out for exactly five minutes, and is its request's |
| OAuthAcceptance.ExchangeIff | src/oauth-provider.ts:132-165 | in every run, a code is exchanged exactly for the client that asked for it and within five minutes; the tokens are for that client, the user of the login and the scopes of the request, for one hour and thirty days |
| OAuthAcceptance.OnlyCodesExchanged | src/oauth-provider.ts:132-136 | what is exchanged is a code of the run |
| OAuthAcceptance.RenewIff | src/oauth-provider.ts:167-200 | in every run, a refresh token is renewed exactly for the client it was made for and within thirty days, and the new tokens keep client, user and scopes |
| OAuthAcceptance.OnlyRefreshTokensRenewed | src/oauth-provider.ts:167-171 | what is renewed is a refresh token of the run |
| OAuthAcceptance.VerifyIff | src/oauth-provider.ts:202-215 | in every run, an access token verifies for exactly one hour, for the client, scopes and user of the login behind it, with its expiry in seconds |
| OAuthAcceptance.LocalLoginNeedsNoConsent | src/relay-server.ts:53-118 | an otherwise complete request whose redirect URI is a loopback or native one is taken under any allow list, and its code leaves by plain redirect |
| AgentAuth.TokenCache.GetAccessToken | src/agent-auth.ts:209-243 | a cached token with more than a minute left is returned untouched; otherwise a refresh is tried if there is a refresh token, then a login; the token returned is the one now in the cache, and a failure leaves the cache as it was |
| AgentAuth.RefreshKeepsRefreshable | src/agent-auth.ts:98-103 | a refresh keeps the client and never loses the refresh token, whether or not the answer brings a new one |
| AgentAuth.ExpiryIs | src/agent-auth.ts:98-196 | after a login or a refresh, a token counts as good for the seconds the answer says, and for an hour if it does not say |
| AgentAuth.CachedTokenAcceptedIff | src/agent-auth.ts:98-221 | every token the cache hands out is still accepted when the agent connects, if and only if response delay and connect delay add up to at most 60001 ms (section 5.1 of RFC 6749) |

## Left out

- Library code: Express, the MCP SDK, `ws`, `jose`, zod and AES-GCM. Sealing is ideal: only what was sealed can be unsealed. Messages are whole values, and text that does not parse or is none of the five message kinds is dropped.
- The URL parser: a parameter of the redirect URI check. Results say what they assume of it: for http and https URLs an origin made of scheme and host and a path that begins with a slash; for entries without a star, that an origin and path it wrote parse to themselves; for the built-in list, that it splits the entries after their hosts.
- The network and the clock: events that can happen at any time a run allows. Timers run on schedule; random ids and sealed strings are fresh; both token-cache sides read one clock.
- What local servers answer, which of them start and what they list, whom the upstream provider names, and what token requests return: parameters of the steps.
- The content of tool results, the text of the `status` and `restart` answers, log output, and the closing of spawned servers (a step without effect on the state).
- Reconnect back-off and `toWsUrl`: a reconnect is a new connection with a new agent state.
- `src/pages.ts`, `src/config.ts`, `src/types.ts`, `src/index.ts`, `src/relay.ts`, `src/ipc-path.ts`, `src/stub-server.ts`: rendering, validation, wiring, paths and polling. A stub is whoever opens and closes sessions.
- Grace periods and check intervals that are not numbers; the Windows branch of the daemon, which has no socket file.
- The PID check as more than one atomic read, and its branch for an unreadable file; a PID write is atomic, while clean-up is two separate steps.
- The order in which the stale check visits users: the loop takes them in any order, as the result does not depend on it.
- Token revocation, which does nothing, and client registration, which stores nothing.
- RedirectUris.TrustsIffNamed: asks that a starred entry without its star is canonical too, which is sufficient; a fixed part that is not may still begin some URI's origin and path.
- AgentTools.HandleToolCall: tells whether `servers` has the server, not whether its process still answers; while a restart closes and spawns, `servers` holds clients already closed, and what a call of one does is an outcome of the step.
