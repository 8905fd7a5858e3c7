# BifrostLink: session protocol, wire codecs, secrets and environment

BifrostLink brokers database sessions. A client (the API server) opens a stream to a gateway, the
gateway binds it to an agent, and the agent runs the work and answers. This project models the
three parts of it that carry hard properties, and proves them.

**Session protocol.** `SessionProtocol` is a state machine over any number of clients, sessions,
agent streams and goroutines. Its steps are: an agent stream connects or exits, a client connects,
the gateway stamps and forwards one packet, an agent takes one packet, a goroutine of an agent
performs one act, a live proxy writes or calls back, the gateway looks a session up, delivers,
closes, forgets. `AgentHandlers` holds what every packet handler does, `AgentProcess` the steps of
one agent, `QueryClient` the receive loop of `executeQuery`. `SessionSetup` is what a SessionOpen packet stands for on the agent it reaches, by way of
`Secrets` and `EnvLayers`. `HandlerOutcomes` says
handler by handler what a reader of the protocol sees of it. `ProtocolInvariant` is the inductive
invariant, with `QueryTracking` for a query's own exchange; `SessionTheorems`, `Binding`,
`Provenance`, `Connections`, `ExitCodes` and `CleanupFrame` are what follows for every run. `Reachability` builds runs: with it
`WitnessRun` shows that every answer can in fact be returned, `Connections` that payloads can be
handed over out of order, and `CleanupFrame` that too much can be closed.
`Gateway`, `AgentController` and `MemoryStore` are the same code in the source's own form, objects
whose methods change maps and streams. The broker's methods are proved to be steps of the protocol:
what the gateway's objects hold (`GatewayView`) is what the protocol state says before and after.
The agent's methods are proved to do what the handler functions say, and `AgentRefinement` connects a
handler that runs undisturbed with the state machine.

**Wire codecs.** `TdsPacket`, `Login7Codec`, `SqlBatch` and `PgPacket`, over `Bytes`, `Bits` and
`Utf16`. Integers have their width: a uint16 offset or length wraps. Strings are sequences of Unicode
scalar values.

**Secrets and environment.** `Secrets` is the cached resolver over providers created on demand, for
every map iteration order; `EnvLayers` lays client, connection, runtime, host and identity variables
over one another, again for every order.

What the model takes for granted:

- Session ids are fresh UUID strings: 36 characters and no colon.
- Each stream is FIFO and one Send is one step. A client's stream may break at any time; from then
  on every Send on it fails and loses its packet.
- A libbifrost proxy is an arbitrary source of writer output and of calls to its callback, and so is
  the copier of a raw connection once it has written the opening payload.
- A handler that writes to a connection it looked up, or to a new one that nothing else can reach yet,
  does so in the step in which it takes the packet: nothing shared lies in between. The copier's
  opening write is a step of its own.
- Command execution is an arbitrary function from a query to output and exit code. Gob decoding,
  base64, the process environment and the secret backends are arbitrary functions that belong to an
  agent and do not change while its stream lasts. The port check may answer anything.
- A nil and an empty payload or spec value are the same, as they are after travelling on the wire.
- base64 never decodes to more characters than it was given.
- A byte slice has no capacity beyond its length, an int has 64 bits, and a reader never returns
  zero bytes without an error.
- Message texts are abbreviated; the protocol only asks whether a message is empty.

Where the code does not do what one might expect, the model follows the code. The exact condition is
proved, and an input or a run at which it fails:

- A LOGIN7 text field survives encoding and decoding if and only if it has no character above U+FFFF,
  because its length counts characters while decoding reads as many 16-bit units
  (`Login7Codec.RoundTrip`, `Login7Codec.SupplementaryHostLost`).
- A SQLBatch request is reassembled if and only if every packet holds two UTF-16 units or more
  (`SqlBatch.Reassembly`, `SqlBatch.OneUnitPacketRefused`).
- A TDS header length below 8 wraps to a frame of nearly 64 KiB, which is accepted if there are that
  many bytes (`TdsPacket.DecodeAccepts`, `TdsPacket.ZeroLengthAccepted`).
- The registry lists every running agent throughout a run if and only if handlers with the same agent
  id never overlap (`SessionTheorems.RegistryGuarantee`, `SessionTheorems.RegistryCanMiss`).
- Session cleanup is exact if and only if no other session has a connection id that contains the
  session id (`CleanupFrame.CleanupExact`, `CleanupFrame.CleanupInRuns`, and a run in which another
  session's connection is closed, `CleanupFrame.CleanupCanReach`).
- TCP close is exact if and only if no other connection id of the session extends the given one
  (`CleanupFrame.TcpCloseExact`, `CleanupFrame.TcpCloseInRuns`, and a run in which closing "1" closes
  "10", `CleanupFrame.TcpCloseCanReach`).
- The payloads handed to a connection are in order of arrival if and only if no later packet finds it
  before its opening payload is handed over. That is always so unless the connection is raw and opened
  with a payload, which its copier goroutine writes (`Connections.InputOrder`, and a run in which "b"
  comes before "a", `Connections.LaterPayloadCanComeFirst`).
- Client variables leave a connection or runtime variable alone, and runtime variables prevail over
  connection and client, if and only if the password alias does not reach the variable: a PASS of
  another layer becomes PGPASSWORD, MYSQL_PWD or SQLCMDPASSWORD when the stronger layers have no PASS
  (`EnvLayers.ClientNeverReplaces`, `EnvLayers.RuntimeReplaces`, and `EnvLayers.RuntimeCanLose`).

## Model

| member | source | states |
|---|---|---|
| `SessionTheorems.QueryEndToEnd` | api-server/main.go:147-188 | in every run, an `executeQuery` on mysql or mongodb that returns through SessionClose either saw no command run and returns 254, or exactly one command ran for its session, on its own agent, for exactly this query, and results and exit code are that command's |
| `SessionTheorems.ExitZeroMeansRan` | api-server/main.go:177-187 | exit code 0 through SessionClose means the query ran once on the bound agent with code 0 and `results` is its whole output |
| `WitnessRun.QueryCanReturn` | api-server/main.go:109-188 | for every query, output and exit code there is a run in which `executeQuery` returns them |
| `Binding.QueryOnRequestedAgent` | gateway/main.go:209-237 | the query of a returned mysql or mongodb `executeQuery` ran on the very agent registered under the requested id when the client connected, and nowhere else |
| `Binding.BoundAsRequested` | gateway/main.go:209-251 | in every run a session was made by one step, and is for good bound to the running agent registered under the requested id before that step, or without a request to some registered one |
| `Binding.BoundFromThen` | gateway/main.go:209-251 | the same from the step that connects |
| `Binding.ConnectsExactly` | gateway/main.go:214-237 | a client gets a session if and only if the requested agent is registered, or without a request any is |
| `Binding.StaysBound` | gateway/main.go:243-249 | no step takes a session away or binds it anew |
| `Binding.AgentRegisters` | gateway/main.go:149-179 | an agent is registered under agent-default or agent- and its connection name, over whoever was, and is sent GatewayConnectOK first |
| `Binding.AgentUnregisters` | gateway/main.go:168-171 | an exit removes the registration of that id and no other |
| `Binding.EndsExactly` | gateway/main.go:252-256 | a session ends in three steps, each possible exactly after the one before, with all each of them changes |
| `Binding.ForwardsExactly` | gateway/main.go:261-304 | when a client's packet is forwarded, and what becomes of session and agent stream |
| `Binding.RoutesExactly` | gateway/main.go:182-196 | when an agent's packet is looked up and delivered, and what becomes of it |
| `Binding.ClientExactly` | api-server/main.go:147-188 | when a client sends and reads, and what becomes of it |
| `Binding.StreamEndsExactly` | api-server/main.go:149-154 | a stream that ends makes the query return without a close, or fail |
| `SessionTheorems.SessionIsolation` | gateway/main.go:188-196 | every packet delivered to a client comes from its own agent and was caused by a packet this client sent, changed only at the session id |
| `SessionTheorems.UplinkFifo` | gateway/main.go:261-304 | what an agent has taken under a session is, in order, without loss or duplication, a beginning of what its client sent, stamped; no other agent gets any of it |
| `SessionTheorems.DownlinkFifo` | gateway/main.go:182-196 | what a client was delivered is a beginning of what its agent sent for it, and complete up to what was routed while the session is open and its stream unbroken |
| `SessionTheorems.NoDeliveryAfterClose` | gateway/main.go:308-328 | in every interleaving nothing follows the cancellation on a client stream, which happens at most once and exactly when the session is closed |
| `SessionTheorems.ParamsBeforeUse` | agent/controller/agent.go:213-239 | every stored connection, exec or terminal entry has parameters for its session, SessionOpenOK is sent only with them stored, and no handler misses them for a packet sent after SessionOpenOK was read |
| `SessionTheorems.RegistryGuarantee` | gateway/main.go:158-171 | every registered agent is running; the registry lists every running agent throughout a run if and only if equal agent ids never overlap |
| `SessionTheorems.RegistryCanMiss` | gateway/main.go:167-169 | a run in which a running agent is not registered |
| `Connections.ConnectionIsolation` | common/proto/types.go:95-109 | every connection reply or connection close delivered to a client carries the connection id of the packet, sent by this same client, that caused it |
| `Connections.InputIsolation` | agent/controller/tcp.go:26-62 | in every run, what a connection, execution or terminal is handed is the payload of a packet its own session's client sent for it, which opened it or found it open, and no packet is handed over twice |
| `Connections.InputOrder` | agent/controller/tcp.go:26-62 | in every run, a connection's payloads are in order of arrival if and only if no packet found it before its opening payload was handed over, which always holds unless it is raw and opened with a payload |
| `Connections.LaterPayloadCanComeFirst` | agent/controller/tcp.go:48-57 | a run in which a raw connection opened with "a" is handed the later "b" first |
| `Connections.OrderedExactly` | agent/controller/tcp.go:26-62 | the same condition at one agent state |
| `Connections.PatientInOrder` | agent/controller/tcp.go:48-57 | payloads are in order if nothing naming the connection is taken before its copier has written |
| `Connections.PromptInOrder` | agent/controller/postgres.go:70-90 | payloads of every other connection, and of a raw one that only connects, are always in order |
| `Connections.StepOrdered` | agent/controller/agent.go:97-170 | every step of an agent keeps what the order rests on: who is written to when, and who still owes its opening payload |
| `Connections.StepNamed` | agent/controller/agent.go:97-170 | every step of an agent keeps that connections are stored, found and written to only by packets that name them |
| `ExitCodes.ExitCodesEarned` | agent/controller/agent.go:309-334 | in every run each SessionClose delivered carries the exit code of a command that ran for its session, or exactly what an execution, terminal or connection opened by a packet of its session reported, or is a handler's own 254 or, for a failed terminal write, 0 |
| `ExitCodes.ExecutionCode` | agent/controller/terminal-exec.go:57-64 | a close of an execution that is not 254 tells a code and message this very execution reported |
| `ExitCodes.CallBackStep` | agent/controller/terminal-exec.go:57-64 | a callback is recorded and starts exactly what the end of that connection, execution or terminal leads to |
| `ExitCodes.EmitStep` | common/proto/types.go:99-109 | a writer sends its own payload, with the type and spec its connection was opened with |
| `ExitCodes.StepCoded` | agent/controller/agent.go:97-170 | every step of an agent keeps that every close, sent or still to be sent, is earned |
| `HandlerOutcomes.CallbackOutcome` | agent/controller/ssh.go:68-71 | an execution forgets its key and tells the code reported, a terminal tells it, postgres, mssql and ssh tell 0 without a message and 254 with one, and a copier tells the client of its own connection |
| `HandlerOutcomes.QueryOutcome` | agent/controller/mysql.go:12-71 | refusals, writes to a stored connection and the command, each with all that comes of it and nothing else |
| `HandlerOutcomes.ProxyOutcome` | agent/controller/postgres.go:15-91 | the same for postgres, mssql and ssh, with what each proxy sends, keeps and is kept under |
| `HandlerOutcomes.DirectOutcome` | agent/controller/tcp.go:12-68 | the same for raw connections and the http proxy, with the copier |
| `HandlerOutcomes.FailureTold` | agent/controller/ssh.go:60-66 | a connection, execution or terminal that cannot be opened is refused with the reason |
| `HandlerOutcomes.ExecOutcome` | agent/controller/terminal-exec.go:14-65 | the same for an ad-hoc execution |
| `HandlerOutcomes.TerminalOutcome` | agent/controller/terminal.go:17-73 | the same for a terminal |
| `HandlerOutcomes.OpenOutcome` | agent/controller/agent.go:172-241 | parameters stored and success reported, after a failed port check if any, or two closes with 254 |
| `HandlerOutcomes.QuietOutcome` | agent/controller/agent.go:113-160 | every other packet sends nothing, and closes at most |
| `Provenance.MySqlEnvironment` | agent/controller/agent.go:384-393 | the command of an `executeQuery` on mysql finds the PASS of its layers under MYSQL_PWD, the other password names untouched, and the identity of its own connection, user and session, each name written out |
| `Provenance.QueryUsesOwnParams` | agent/controller/agent.go:172-215 | the command an `executeQuery` makes its agent run gets exactly the parameters this client's own SessionOpen packet stands for: its environment is the closed form over the variables that packet carries |
| `Provenance.RunsUseOwnParams` | agent/controller/mysql.go:13-56 | in every run, for every client, a command runs with the parameters a SessionOpen of its own session stands for |
| `Provenance.StepTraced` | agent/controller/agent.go:97-170 | every step of an agent keeps where parameters and commands come from |
| `SessionSetup.BuildParams` | agent/controller/agent.go:354-473 | decoding, secrets and layers in their order, over maps ranged in any order, give the parameters the packet stands for |
| `SessionSetup.OpensExactly` | agent/controller/agent.go:419-473 | a packet opens a session if and only if its parameters are there and decode, its client variables decode if there are any, and every connection variable resolves |
| `SessionSetup.SessionPassword` | agent/controller/agent.go:384-393 | PASS goes to PGPASSWORD for postgres, MYSQL_PWD for mysql, SQLCMDPASSWORD for mssql, and to none of them for any other connection type |
| `SessionSetup.SessionIdentity` | agent/controller/agent.go:191-197 | each of the seven HOOP_ variables holds its own field, and the last one the stamped session id |
| `SessionSetup.SessionOthers` | agent/controller/agent.go:363-382 | every other name holds what runtime, connection and client say, and a name the host defines holds what the host says |
| `SessionSetup.ParamsOf` | agent/controller/agent.go:354-395 | there are parameters if and only if everything decodes and resolves, and their environment is the layered closed form |
| `SessionTheorems.ReturnedFaithful` | api-server/main.go:173-187 | in a state that keeps the invariant, a returned result is faithful to the commands run for the session |
| `SessionTheorems.ScriptOutcome` | api-server/main.go:156-188 | the receive loop over any beginning of the packets an agent sends for a query returns that query's result |
| `ProtocolInvariant.RunInv` | gateway/main.go:148-328 | every run keeps the protocol invariant |
| `ProtocolInvariant.NextInv` | gateway/main.go:148-328 | every step keeps the protocol invariant |
| `ProtocolInvariant.GatewayForwardsInv` | gateway/main.go:261-304 | stamping and forwarding keeps it, whatever other sessions do |
| `ProtocolInvariant.GatewayLooksUpInv` | gateway/main.go:188-191 | looking a session up keeps it |
| `ProtocolInvariant.GatewayDeliversInv` | gateway/main.go:191-195 | delivering keeps it, also when the session was closed after the lookup |
| `ProtocolInvariant.ClientConnectsInv` | gateway/main.go:209-251 | a new session on the agent found keeps it |
| `ProtocolInvariant.HandlerInv` | gateway/main.go:252-256 | leaving, closing and forgetting a session keeps it |
| `ProtocolInvariant.ClientStreamBreaksInv` | gateway/main.go:316 | a client stream that breaks, so that sends on it fail, keeps it |
| `ProtocolInvariant.AgentExitsInv` | gateway/main.go:168-171 | an agent's exit keeps it |
| `ProtocolInvariant.ClientReceivesInv` | api-server/main.go:147-188 | a client reading a packet keeps it |
| `AgentProcess.StepOwned` | agent/controller/agent.go:97-170 | every step of an agent keeps ownership: what it stores, schedules or sends belongs to the session of the packet that caused it |
| `AgentProcess.HandleOwned` | agent/controller/agent.go:112-161 | a handler acts only for the session on its packet and forgets no parameters |
| `AgentProcess.CallbackActsOwned` | agent/controller/ssh.go:68-71 | a completion callback acts only for the session of its proxy |
| `QueryTracking.StepTracked` | agent/controller/mysql.go:12-71 | every step of an agent keeps a query's exchange on script: open answer, then output and close of one command |
| `QueryTracking.TakeQuery` | agent/controller/mongodb.go:49-81 | taking the query puts exactly the command's output and its close on the way |
| `QueryClient.Conversation` | api-server/main.go:124-188 | for each of the four databases and any packets received: the results are the last output of its own kind before the first close, the exit code is that close's, and the query is sent once per SessionOpenOK |
| `QueryClient.OthersFail` | api-server/main.go:142-143 | any other kind of database fails at once |
| `QueryClient.OpensWith` | api-server/main.go:109-119 | what the opening packet carries |
| `QueryClient.ReceiveLoop` | api-server/main.go:147-196 | the loop consumes packets until close, end or error and returns the automaton fed exactly those packets |
| `AgentHandlers.RunQuery` | agent/controller/mysql.go:12-71 | the store is left alone, nothing is spawned and a command runs only for the packet's session |
| `AgentHandlers.Handle` | agent/controller/agent.go:112-161 | no key is added but the parameters of the packet's session, and a command runs only for it |
| `Wire.Stamp` | gateway/main.go:286-292 | the session id is overwritten and nothing else changes |
| `Decimal.ScanReads` | api-server/main.go:179-180 | scanning reads spaces, a sign and digits in base ten up to the first other character, and nothing without a digit or out of range |
| `Decimal.ScanToText` | api-server/main.go:179-180 | scanning a printed exit code gives it back |
| `ConnKeys.RenderInjective` | agent/controller/const.go:4-5 | distinct structured keys never share a string key |
| `ConnKeys.CleanupSelects` | agent/controller/agent.go:296 | exactly the keys the substring test selects |
| `ConnKeys.TcpCloseSelects` | agent/controller/agent.go:270-272 | exactly the keys the prefix test selects |
| `CleanupFrame.CleanupExact` | agent/controller/agent.go:294-307 | cleanup removes every closer of the session, and nothing else if and only if no other session's connection id contains the session id |
| `CleanupFrame.CleanupCanReach` | agent/controller/agent.go:296-304 | a run in which a client closing its session closes the connection of another client whose session goes on |
| `CleanupFrame.TcpCloseCanReach` | agent/controller/agent.go:272-280 | a run in which closing connection "1" also closes connection "10" of the session |
| `CleanupFrame.TcpCloseInRuns` | agent/controller/agent.go:267-283 | the TCP close condition in every reachable state of every run |
| `Reachability.Serves` | agent/controller/agent.go:97-170 | any packet of a client with nothing under way can travel to the agent and be handled to the end, with the handler's effect on the store |
| `CleanupFrame.TcpCloseExact` | agent/controller/agent.go:267-283 | TCP close never touches another session, and removes exactly the named connection if and only if no other connection id of the session extends it |
| `CleanupFrame.CleanupInRuns` | agent/controller/agent.go:285-307 | the cleanup condition in every reachable state of every run |
| `Gateway.ClientSession.SendToClient` | gateway/main.go:308-317 | a closed session and a failing send write nothing and report it |
| `Gateway.ClientSession.Close` | gateway/main.go:319-328 | only the first call cancels |
| `Gateway.Broker.AgentConnects` | gateway/main.go:148-179 | is the protocol's step: the id is registered, over any other stream that has it, and GatewayConnectOK is sent |
| `Gateway.Broker.AgentExits` | gateway/main.go:168-171 | is the protocol's step: whatever is registered under the id is removed |
| `Gateway.Broker.LookUp` | gateway/main.go:188-191 | is the protocol's step: the session found, or none, is the one the state carries |
| `Gateway.Broker.Deliver` | gateway/main.go:191-195 | is the protocol's step, also for a session closed or forgotten since the lookup and for a failing send |
| `Gateway.Broker.FindAgent` | gateway/main.go:209-237 | the agent registered under the requested id or none, and without a request any registered one |
| `Gateway.Broker.CreateSession` | gateway/main.go:239-251 | is the protocol's step: a new session is registered under its id |
| `Gateway.Broker.Forward` | gateway/main.go:269-303 | is the protocol's step: the packet goes to the session's agent with only its session id overwritten, or the send fails and the handler leaves its loop |
| `Gateway.Broker.CloseSession` | gateway/main.go:252-253 | is the protocol's step: the session is closed |
| `Gateway.Broker.DeleteSession` | gateway/main.go:254 | is the protocol's step: the session is forgotten |
| `Gateway.Broker.GetSession` | gateway/main.go:331-336 | the registered session or none |
| `Gateway.Broker.GetActiveAgents` | gateway/main.go:339-348 | every registered id, each once |
| `GatewayView.AfterDelivers` | gateway/main.go:308-317 | the only change of a delivery is one packet on one client stream, or none if the session is closed or the stream broken |
| `GatewayView.AfterForwards` | gateway/main.go:269-303 | the only change of forwarding is one stamped packet on the stream of the session's agent |
| `GatewayView.AfterElsewhere` | gateway/main.go:36-56 | what agents and clients do changes nothing the gateway holds |
| `MemoryStore.Store.Pop` | common/memory/memory.go:74-83 | the value found is returned and its key removed in one step |
| `MemoryStore.Store.List` | common/memory/memory.go:34-42 | a copy of the whole map |
| `MemoryStore.Store.Filter` | common/memory/memory.go:44-54 | exactly the entries whose key passes |
| `MemoryStore.Store.Set` | common/memory/memory.go:22-26 | one key is written |
| `MemoryStore.Store.Del` | common/memory/memory.go:28-32 | one key is removed |
| `MemoryStore.Store.Get` | common/memory/memory.go:56-64 | the value under the key or none |
| `MemoryStore.Store.Has` | common/memory/memory.go:67-72 | whether the key is there |
| `AgentController.Agent.Dispatch` | agent/controller/agent.go:112-161 | on string keys and whatever the world answers, the agent does what the protocol's handler function says, with its commands, the goroutines it starts and what it hands to connections |
| `AgentController.Agent.ProcessSessionOpen` | agent/controller/agent.go:172-241 | parameters are stored before the answering goroutine starts; a decoding failure closes twice |
| `AgentController.Agent.ProcessQuery` | agent/controller/mysql.go:12-71 | the mysql and mongodb handler refines `RunQuery` and records the command it ran |
| `AgentController.Agent.ExecuteQuery` | agent/controller/mongodb.go:69-81 | output first if there is any, then the close with the exit code |
| `AgentController.Agent.ProcessProxy` | agent/controller/postgres.go:15-91 | the postgres, mssql and ssh handler refines `ProxyWrite` |
| `AgentController.Agent.StartProxy` | agent/controller/ssh.go:41-82 | a proxy is run and then stored; only ssh gives up on a failed first write |
| `AgentController.Agent.ProcessDirect` | agent/controller/tcp.go:12-68 | the tcp and http proxy handler refines `DirectWrite` |
| `AgentController.Agent.OpenDirect` | agent/controller/tcp.go:35-48 | a raw connection is stored and its copier started as a goroutine; an http proxy gets its payload first and is then stored |
| `AgentController.Agent.CopyLoop` | agent/controller/tcp.go:49-67 | the copier writes the opening payload unless the packet only connects, then copies; a failing write closes and forgets the connection |
| `AgentController.Agent.WriteStored` | agent/controller/tcp.go:27-34 | the payload goes to the stored connection, and a failing write closes the session |
| `AgentController.Agent.DoExec` | agent/controller/terminal-exec.go:14-65 | the ad-hoc execution handler refines `Exec` |
| `AgentController.Agent.DoTerminalWrite` | agent/controller/terminal.go:17-73 | the terminal handler refines `TerminalWrite` |
| `AgentController.Agent.SessionCleanup` | agent/controller/agent.go:294-307 | the loop over the filtered store, in any order, is `Cleanup` |
| `AgentController.Agent.ProcessTcpClose` | agent/controller/agent.go:267-283 | the loop over the filtered store, in any order, is `TcpClose` |
| `AgentController.Agent.ProcessSessionClose` | agent/controller/agent.go:285-292 | cleanup, unless there is no session |
| `AgentController.Agent.ProxyDone` | agent/controller/terminal-exec.go:57-64 | what each kind of completion callback sends and forgets |
| `AgentController.Agent.SendSessionClose` | agent/controller/agent.go:309-316 | exit code 0 without a message, 254 with one |
| `AgentController.Agent.SendSessionCloseWithExitCode` | agent/controller/agent.go:318-334 | nothing without a session |
| `AgentController.Agent.ConnectionParams` | agent/controller/agent.go:347-352 | the parameters stored for the session or none |
| `AgentRefinement.DispatchIsSteps` | agent/controller/agent.go:97-170 | taking a packet and running its handler undisturbed is a sequence of the state machine's steps with the same effect |
| `AgentRefinement.TakeExactly` | agent/controller/agent.go:106-161 | when the dispatch loop takes a packet, all that is recorded of it, and that nothing else changes |
| `AgentRefinement.PerformExactly` | agent/controller/agent.go:217-240 | what each act of a goroutine changes, and nothing else |
| `AgentRefinement.TaskRuns` | agent/controller/agent.go:217-240 | a goroutine left to itself has the effect of its acts one after the other |
| `Login7Codec.RoundTrip` | common/mssqltypes/login.go:90-265 | for every login that fits: FeatureExt, client id and header scalars come back, and a text field other than the password does if and only if it has no character above U+FFFF |
| `Login7Codec.DisabledRoundTrip` | common/mssqltypes/login.go:83-88 | for every login that fits, disabling the password change first changes only flag bit 0 of what the receiver reads; the extension bit is set if there is an extension, and all texts come back if and only if none has a character above U+FFFF |
| `Login7Codec.SupplementaryHostLost` | common/mssqltypes/login.go:190-201 | the host name U+10000 comes back as the replacement character |
| `Login7Codec.PasswordChangeDisabled` | common/mssqltypes/login.go:84-88 | only bit 0 of OptionFlags3 is cleared, bit by bit |
| `Login7Codec.LoginMessage.DisablePasswordChange` | common/mssqltypes/login.go:84-88 | the same, in place |
| `Login7Codec.OffsetTablePartition` | common/mssqltypes/login.go:203-262 | the table read from the bytes partitions what follows the header into the fields in order and the feature block, and Length is the frame size |
| `Login7Codec.PasswordRegion` | common/mssqltypes/login.go:295-301 | the password region, XORed with 0xA5 and nibble-swapped, is the password's UTF-16 bytes |
| `Login7Codec.HeaderRead` | common/mssqltypes/login.go:93-141 | reading a written header gives it back without its time zone |
| `Login7Codec.HeaderLayout` | common/mssqltypes/login.go:39-78 | every word, flag, table entry and id of the header stands at its byte |
| `Login7Codec.LoginLayout` | common/mssqltypes/login.go:178-239 | the encoded bytes hold the login's own scalars, time zone and client id at these places, and SSPI with its byte count |
| `Login7Codec.OptionExactly` | common/mssqltypes/login.go:267-272 | when a slot reads, as what, and when it is out of range |
| `Login7Codec.FeatureExactly` | common/mssqltypes/login.go:158-162 | when the feature extension reads, as what, and when it is out of range |
| `Login7Codec.DecodesExactly` | common/mssqltypes/login.go:90-165 | exactly which bytes decode |
| `Login7Codec.MangledBits` | common/mssqltypes/login.go:297-299 | each bit of a mangled byte |
| `Login7Codec.TextSlotRead` | common/mssqltypes/login.go:190-201 | one text field comes back if and only if it has no character above U+FFFF |
| `Login7Codec.FeatureExtRead` | common/mssqltypes/login.go:158-162 | FeatureExt comes back whatever its length |
| `Login7Codec.OffsetIsPosition` | common/mssqltypes/login.go:203-225 | the running offset is the position modulo 2^16 |
| `Login7Codec.PacketRoundTrip` | common/mssqltypes/login.go:264 | a login of one packet is decoded from the wire to the same packet |
| `Login7Codec.DecodeLogin` | common/mssqltypes/login.go:90-165 | consuming the buffer computes `Decode` |
| `Login7Codec.DecodeHeader` | common/mssqltypes/login.go:91-141 | the sequence of reads gives each cell of the header |
| `Login7Codec.EncodeHeader` | common/mssqltypes/login.go:178-236 | the running uint16 offset fills the table |
| `Login7Codec.EncodeLogin` | common/mssqltypes/login.go:167-265 | writing header, fields and feature block computes `Encode` |
| `Login7Codec.ManglePassword` | common/mssqltypes/login.go:295-301 | every UTF-16 byte is mangled in place |
| `Utf16.Ucs2RoundTrip` | common/mssqltypes/login.go:274-293 | `ucs22str` undoes `str2ucs2` on every string |
| `Utf16.Ucs2RuneCountRead` | common/mssqltypes/login.go:267-272 | reading two bytes per character gives the text if and only if no character is above U+FFFF |
| `Utf16.UnitsOf` | common/mssqltypes/login.go:286 | a character is its own unit or a surrogate pair counted from U+10000 |
| `Utf16.LoneSurrogate` | common/mssqltypes/login.go:279 | a surrogate without its pair reads as U+FFFD |
| `Utf16.LowByteFirst` | common/mssqltypes/login.go:287-291 | two bytes a unit, the low one first |
| `Utf16.DecodeEncode` | common/mssqltypes/login.go:279-286 | UTF-16 decoding undoes encoding, surrogate pairs included |
| `Utf16.Str2Ucs2` | common/mssqltypes/login.go:285-293 | the loop writes the little-endian units |
| `Utf16.Ucs22Str` | common/mssqltypes/login.go:274-280 | the loop gathers the units; an odd number of bytes is out of range |
| `TdsPacket.DecodeFullRoundTrip` | common/mssqltypes/packet.go:87-108 | well-formed packets, all full-size but a last one of at most that size, decode to exactly those packets |
| `TdsPacket.DecodeFullSuccess` | common/mssqltypes/packet.go:87-108 | any success has ceil(n/max) packets, each re-encoding to a beginning of its chunk |
| `TdsPacket.ShortLengthRejected` | common/mssqltypes/packet.go:81-84 | with a packet size from 8 to 65535 a header length below 8 is always rejected |
| `TdsPacket.DecodeAccepts` | common/mssqltypes/packet.go:72-85 | exactly the data Decode accepts, wrap-around included |
| `TdsPacket.ZeroLengthAccepted` | common/mssqltypes/packet.go:81-84 | 65536 bytes that announce length 0 are accepted and encode to nothing |
| `TdsPacket.EncodeDecode` | common/mssqltypes/packet.go:57-85 | re-encoding what was decoded gives a beginning of the data |
| `TdsPacket.DecodeEncode` | common/mssqltypes/packet.go:57-85 | a well-formed packet is decoded from its encoding |
| `TdsPacket.HeaderBytes` | common/mssqltypes/packet.go:39-55 | all eight bytes of a new header |
| `TdsPacket.NewOnWire` | common/mssqltypes/packet.go:23-61 | a new packet on the wire is its header and its data |
| `TdsPacket.EncodeExactly` | common/mssqltypes/packet.go:57-61 | an encoding byte by byte, zeros up to the announced length included |
| `TdsPacket.DecodeExactly` | common/mssqltypes/packet.go:72-85 | each answer of Decode, the known types written out |
| `TdsPacket.DecodeFullEdges` | common/mssqltypes/packet.go:87-108 | nothing to decode, and packet sizes that hold no header |
| `TdsPacket.NewHeader` | common/mssqltypes/packet.go:39-55 | the type, and the length modulo 2^16 |
| `TdsPacket.DecodeFull` | common/mssqltypes/packet.go:87-108 | the loop decodes the successive chunks |
| `TdsPacket.EncodeBuffer` | common/mssqltypes/packet.go:57-61 | the buffer is header and frame, cut or zero-filled to the announced length |
| `SqlBatch.Reassembly` | common/mssqltypes/sqlbatch.go:10-35 | the texts of a request's packets give the query, whatever the later packet numbers, if and only if each packet holds two UTF-16 units of it |
| `SqlBatch.OneUnitPacketRefused` | common/mssqltypes/sqlbatch.go:12-14 | the query "ABC" cut after "AB" is refused |
| `SqlBatch.NoBatch` | common/mssqltypes/sqlbatch.go:12-17 | exactly which data is too short or no batch |
| `SqlBatch.FirstPacket` | common/mssqltypes/sqlbatch.go:25-33 | the first packet gives its part if and only if that has two units |
| `SqlBatch.LaterPacket` | common/mssqltypes/sqlbatch.go:25-34 | a later packet, even numbered 1, gives its part if and only if that has two units |
| `SqlBatch.TextIsNoLength` | common/mssqltypes/sqlbatch.go:26-31 | NUL-free text never reads as a header length below 65536 |
| `PgPacket.FramingUnambiguous` | common/pgtypes/packet.go:70-106 | a stream decodes to a list of packets if and only if it is their concatenated encodings and each is well formed |
| `PgPacket.DecodeEncode` | common/pgtypes/packet.go:22-29 | a client packet, typed or not, is decoded from its encoding whatever follows |
| `PgPacket.DecodeConsumes` | common/pgtypes/packet.go:70-106 | a successful decode consumed exactly the bytes of its re-encoding |
| `PgPacket.DecodeExactly` | common/pgtypes/packet.go:70-106 | each answer of Decode: the first byte is a type if and only if it is one of the thirteen letters, written out |
| `PgPacket.SimpleQueryDecoded` | common/pgtypes/packet.go:93-105 | the bytes of a simple query decode to a packet of type 'Q' |
| `PgPacket.ParseDecoded` | common/pgtypes/packet.go:93-105 | the bytes of a Parse message decode to a packet of type 'P' |
| `PgPacket.EncodeExactly` | common/pgtypes/packet.go:22-29 | an encoding byte by byte, zeros up to the announced length included |
| `PgPacket.ParseExactly` | common/pgtypes/packet.go:110-139 | which messages are parsed at all, and which slice out of range |
| `PgPacket.FatalFrameBytes` | common/pgtypes/packet.go:143-159 | the frame of a fatal error byte by byte |
| `PgPacket.LengthIsNoType` | common/pgtypes/const.go:75-78 | the first byte of an untyped length is 0 or 1, never a client type |
| `PgPacket.DecodePacket` | common/pgtypes/packet.go:70-106 | reading from the stream computes `Decode` and leaves what follows |
| `PgPacket.ParseScan` | common/pgtypes/packet.go:110-139 | a Parse message yields a query if and only if it is the second terminated string, named or unnamed |
| `PgPacket.ParsePaths` | common/pgtypes/packet.go:117-135 | the unnamed fast path and the named path are one scan |
| `PgPacket.ParseMessage` | common/pgtypes/packet.go:115-135 | the query of every Parse message built from a NUL-free name and query and any suffix |
| `PgPacket.SimpleQueryMessage` | common/pgtypes/packet.go:112-114 | the query of every simple Query, whatever follows |
| `PgPacket.NewFatalError` | common/pgtypes/packet.go:141-161 | the appended frame is the four fields of the error |
| `PgPacket.FatalErrorReadBack` | common/pgtypes/packet.go:141-168 | a fatal error is decoded as sent, and its fields read back severity, code and message |
| `Secrets.Decode` | agent/secretsmanager/secretsmanager.go:30-95 | for every iteration order the cached resolver agrees with the pure one on each variable: values, failed variables with their reasons, failed initialisation |
| `Secrets.DecodeOutcome` | agent/secretsmanager/secretsmanager.go:39-94 | success if and only if every variable resolves, failed initialisation if and only if some needed provider does not initialise |
| `Secrets.DecodeOrderIndependent` | agent/secretsmanager/secretsmanager.go:39-94 | two orders give the same variables, or the same errors but for their order, or both a failed initialisation |
| `Secrets.Provider.GetKey` | agent/secretsmanager/vault.go:161-182 | the cache never changes an answer |
| `Secrets.ResolvePlain` | agent/secretsmanager/secretsmanager.go:45-49 | a value whose text is no reference to a provider's secret is kept as it is, still encoded |
| `Secrets.ResolveReference` | agent/secretsmanager/secretsmanager.go:50-89 | each of the four provider names goes to its own backend, all but _envjson after initialising |
| `Secrets.ResolveUndecodable` | agent/secretsmanager/secretsmanager.go:104-107 | a value that is not base64 fails as that |
| `Secrets.DecodedValues` | agent/secretsmanager/secretsmanager.go:39-94 | in any success a variable that is no reference keeps its encoded value, and a reference holds its encoded secret |
| `Secrets.ResolveNamed` | agent/secretsmanager/secretsmanager.go:50-89 | a value of three parts naming a provider becomes the encoded secret, fails, or needs a provider that does not initialise |
| `Secrets.SplitThree` | agent/secretsmanager/secretsmanager.go:108-113 | a value has three parts if and only if it is a:b:c |
| `EnvLayers.SessionEnv` | agent/controller/agent.go:419-473 | a session has an environment if and only if parameters and client variables decode and every connection variable resolves; then it is the closed form, and otherwise the first failure in the source's order |
| `EnvLayers.Layer` | agent/controller/agent.go:363-394 | for all iteration orders the layers give the closed form |
| `EnvLayers.LayersUnique` | agent/controller/agent.go:363-394 | the closed form is one map |
| `EnvLayers.ClientNeverReplaces` | agent/controller/agent.go:465-470 | a connection or runtime variable does not depend on the client if and only if the client's password cannot reach it by the alias |
| `EnvLayers.RuntimeReplaces` | agent/controller/agent.go:363-394 | a runtime variable does not depend on connection and client if and only if no password reaches it by the alias |
| `EnvLayers.ClientPasswordReplaces` | agent/controller/agent.go:384-393 | by that alias the client's password replaces a connection variable |
| `EnvLayers.ConnectionPasswordReplaces` | agent/controller/agent.go:384-393 | by that alias the connection's password replaces a runtime variable |
| `EnvLayers.RuntimeCanLose` | agent/controller/agent.go:384-393 | an agent's own PGPASSWORD loses to the PASS of a postgres connection, or of a client |
| `EnvLayers.PasswordNames` | agent/controller/agent.go:384-393 | each password name takes PASS for its own connection type only |
| `EnvLayers.IdentityHeld` | agent/controller/agent.go:191-197 | each HOOP_ name, written out, holds its own field |
| `EnvLayers.OthersHeld` | agent/controller/agent.go:363-382 | every other name holds what the layers say |
| `EnvLayers.HostDecides` | agent/controller/agent.go:202-211 | the host environment has the last word |
| `EnvLayers.HostEntryDecides` | agent/controller/agent.go:203-209 | each host entry decides its own name, but for the agent's credentials |
| `EnvLayers.CredentialsWithheld` | agent/controller/agent.go:202-211 | the agent's own credentials are never passed on from the host |
| `EnvLayers.ConnectionParams.AddClient` | agent/controller/agent.go:465-470 | client variables only where there are none |
| `EnvLayers.ConnectionParams.AddRuntime` | agent/controller/agent.go:363-365 | runtime variables over what is there |
| `EnvLayers.ConnectionParams.Substitute` | agent/controller/agent.go:368-382 | each visited variable is substituted once, in the map being ranged over |
| `EnvLayers.ConnectionParams.AliasPassword` | agent/controller/agent.go:384-393 | PASS under the name of the connection type |
| `EnvLayers.ConnectionParams.AddIdentity` | agent/controller/agent.go:191-197 | the seven HOOP_ variables |
| `EnvLayers.ConnectionParams.AddHost` | agent/controller/agent.go:202-211 | the last passed-on host entry of each name, over what is there |

## Left out

- System packets (database provisioning, runbook hooks): they depend on real databases and executors that are not shown, and take the session id from a JSON body.
- HTTP handlers and SQL of the API server, tokens, keys and authentication: not part of these properties.
- PreConnect and its status spellings, keepalives, back-off, dialling and TLS: timing and foreign calls.
- MongoDB message framing, RPC requests and runbook templates: only easy members, or they rest on code that is not shown.
- Shell command text of the mysql and mongodb handlers, and parseConnectionEnvVars: an execution is recorded with its query and parameters; whether credentials are complete is an answer of the world outside.
- An `executeQuery` whose stream ends without SessionClose: the source returns exit code 0 there, so the end-to-end guarantee is about returns through SessionClose only.
- A failing Send to an agent: when it fails is not modelled; the handler may leave its loop at any time, and the packet in hand then counts as not forwarded.
- Secrets.Decode: the exact texts of errors are not modelled, since the text for a missing key depends on whether the secret is cached by then; which variables fail and for which reason is.
- Wrap-around beyond a login that fits 65535 bytes: `OffsetIsPosition` says what the table then holds, and no round trip is claimed.
- Closing of the connection objects that cleanup and TCP close remove, and terminal resizing: they change no state of the protocol.
- What a connection's peer makes of its payloads: a payload counts as handed over when the write to the connection begins.
- LoginMessage and the fields of the login header are one value that is replaced, not separately addressed memory.
