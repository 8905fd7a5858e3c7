/**
  The whole session protocol (gateway/main.go between any number of clients and agents) as a
  state machine: unboundedly many agent streams, client streams and goroutines, every stream
  FIFO, one packet sent or received per step.
 */
module SessionProtocol {
  import opened Selection
  import opened Wire
  import opened ConnKeys
  import opened SessionSetup
  import opened AgentHandlers
  import opened AgentProcess
  import opened QueryClient

  /** Where a client's gateway handler is: in its receive loop, past it, past Session.Close,
      past the deletion of the session from the broker. */
  datatype Phase = Serving | Leaving | Shut | Gone

  /** What happened on the client's stream as the gateway sees it. */
  datatype Event = Delivered(m: Msg) | Cancelled

  /** A client is arbitrary, or follows `executeQuery`. */
  datatype Kind = Arbitrary | Querying(st: QueryState)

  datatype Session = Session(
    agent: nat, phase: Phase,
    closed: bool, broken: bool, cancels: nat, events: seq<Event>,
    sent: seq<Up>, forwarded: nat,       // by the client; taken off its stream by the gateway
    delivered: seq<Msg>, consumed: nat,  // by the gateway; read by the client
    kind: Kind)

  /** Session.SendToClient.  On a broken stream the send fails, and the packet is lost. */
  function SendToClient(c: Session, m: Msg): (r: Session) {
    if c.closed || c.broken then c else c.(delivered := c.delivered + [m], events := c.events + [Delivered(m)])
  }

  /** Session.Close */
  function CloseSession(c: Session): (r: Session) {
    if c.closed then c else c.(closed := true, cancels := c.cancels + 1, events := c.events + [Cancelled])
  }

  datatype State = State(
    registry: map<string, nat>,    // Broker.agents
    sessions: set<string>,         // keys of Broker.sessions
    agents: map<nat, Process>,     // every agent stream ever opened
    clients: map<string, Session>) // every session ever created

  const INIT := State(map[], {}, map[], map[])

  /** What the connecting client is. */
  datatype Newcomer = Anyone | Queries(db: Protocol, query: string, params: string)

  datatype Label =
    | AgentConnects(a: nat, connectionName: string, setup: Setup)
    | AgentExits(a: nat)
    | AgentActs(a: nat, l: AgentStep)
    | GatewayLooksUp(a: nat)
    | GatewayDelivers(a: nat)
    | ClientConnects(s: string, requested: string, first: string, who: Newcomer)
    | GatewayForwards(s: string)
    | HandlerLeaves(s: string)
    | HandlerCloses(s: string)
    | HandlerDeletes(s: string)
    | ClientSends(s: string, pkt: Packet)
    | ClientReceives(s: string)
    | ClientStreamEnds(s: string, eof: bool)
    | ClientStreamBreaks(s: string)

  function AgentName(connectionName: string): (id: string) {
    if connectionName == "" then "agent-default" else "agent-" + connectionName
  }

  const CONNECT_OK := Packet(GatewayConnectOK, "connected", map[])

  function NewProcess(name: string, setup: Setup): (p: Process) {
    Process(name, true, [Up(CONNECT_OK, false)], 0, map[], [], 0, [], [], 0, None, [], {}, [], [], [], [], setup)
  }

  /** The agent a client is bound to: the requested one, or any registered one. */
  function PickAgent(registry: map<string, nat>, requested: string, first: string): (r: Option<nat>) {
    var id := if requested != "" then requested else first;
    if id in registry then Some(registry[id]) else None
  }

  function NewSession(agent: nat, who: Newcomer): (c: Session) {
    match who
    case Anyone => Session(agent, Serving, false, false, 0, [], [], 0, [], 0, Arbitrary)
    case Queries(db, query, params) =>
      var open := OpenPacket(db, query, params);
      Session(agent, Serving, false, false, 0, [], [Up(open, false)], 0, [], 0, Querying(Begin(db, query, open)))
  }

  /** Whether the client has read SessionOpenOK. */
  predicate OkRead(c: Session) {
    exists i | 0 <= i < c.consumed && i < |c.delivered| :: c.delivered[i].pkt.typ == SessionOpenOK
  }

  /** Everything `executeQuery` sends after reading a packet is in reply to it. */
  function Receive(c: Session): (r: Session)
    requires c.consumed < |c.delivered|
  {
    var read := c.(consumed := c.consumed + 1);
    match c.kind
    case Arbitrary => read
    case Querying(st) =>
      var next := OnPacket(st, c.delivered[c.consumed].pkt);
      read.(kind := Querying(next),
            sent := if |next.sent| > |st.sent| then c.sent + [Up(next.sent[|st.sent|], true)] else c.sent)
  }

  function RouteLookup(st: State, p: Process): (r: Process)
    requires p.routed < |p.emitted|
  {
    var m := p.emitted[p.routed];
    p.(routed := p.routed + 1, carrying := if SidOf(m.pkt) in st.sessions then Some(m) else None)
  }

  function ForwardTo(p: Process, u: Up, s: string): (r: Process) {
    p.(arrivals := p.arrivals + [Up(Stamp(u.pkt, s), u.afterOk)])
  }

  function NextAgent(st: State, l: Label): (r: Option<State>) {
    match l
    case AgentConnects(a, name, setup) =>
      if a in st.agents then None
      else
        var id := AgentName(name);
        Some(st.(registry := st.registry[id := a], agents := st.agents[a := NewProcess(id, setup)]))
    case AgentExits(a) =>
      if a !in st.agents || !st.agents[a].running || st.agents[a].carrying.Some? then None
      else
        var p := st.agents[a];
        Some(st.(registry := st.registry - {p.name}, agents := st.agents[a := p.(running := false)]))
    case AgentActs(a, step) =>
      if a !in st.agents then None
      else
        var r := Step(st.agents[a], step);
        if r.None? then None else Some(st.(agents := st.agents[a := r.value]))
    case GatewayLooksUp(a) =>
      if a !in st.agents then None
      else
        var p := st.agents[a];
        if !p.running || p.carrying.Some? || p.routed >= |p.emitted| then None
        else Some(st.(agents := st.agents[a := RouteLookup(st, p)]))
    case GatewayDelivers(a) =>
      if a !in st.agents || st.agents[a].carrying.None? then None
      else
        var p := st.agents[a];
        var s := SidOf(p.carrying.value.pkt);
        if s !in st.clients then None
        else
          Some(st.(agents := st.agents[a := p.(carrying := None)],
                   clients := st.clients[s := SendToClient(st.clients[s], p.carrying.value)]))
    case _ => None
  }

  function NextClient(st: State, l: Label): (r: Option<State>) {
    match l
    case ClientConnects(s, requested, first, who) =>
      var agent := PickAgent(st.registry, requested, first);
      if agent.None? || s in st.clients || !ValidSid(s) then None
      else Some(st.(sessions := st.sessions + {s}, clients := st.clients[s := NewSession(agent.value, who)]))
    case GatewayForwards(s) =>
      if s !in st.clients then None
      else
        var c := st.clients[s];
        if c.phase != Serving || c.forwarded >= |c.sent| || c.agent !in st.agents || !st.agents[c.agent].running then None
        else
          Some(st.(clients := st.clients[s := c.(forwarded := c.forwarded + 1)],
                   agents := st.agents[c.agent := ForwardTo(st.agents[c.agent], c.sent[c.forwarded], s)]))
    case HandlerLeaves(s) =>
      if s !in st.clients || st.clients[s].phase != Serving then None
      else Some(st.(clients := st.clients[s := st.clients[s].(phase := Leaving)]))
    case HandlerCloses(s) =>
      if s !in st.clients || st.clients[s].phase != Leaving then None
      else Some(st.(clients := st.clients[s := CloseSession(st.clients[s]).(phase := Shut)]))
    case HandlerDeletes(s) =>
      if s !in st.clients || st.clients[s].phase != Shut then None
      else Some(st.(sessions := st.sessions - {s}, clients := st.clients[s := st.clients[s].(phase := Gone)]))
    case ClientSends(s, pkt) =>
      if s !in st.clients || st.clients[s].kind != Arbitrary then None
      else
        var c := st.clients[s];
        Some(st.(clients := st.clients[s := c.(sent := c.sent + [Up(pkt, OkRead(c))])]))
    case ClientReceives(s) =>
      if s !in st.clients then None
      else
        var c := st.clients[s];
        if c.consumed >= |c.delivered| || (c.kind.Querying? && c.kind.st.status != Running) then None
        else Some(st.(clients := st.clients[s := Receive(c)]))
    case ClientStreamEnds(s, eof) =>
      if s !in st.clients || !st.clients[s].kind.Querying? || st.clients[s].kind.st.status != Running then None
      else
        var c := st.clients[s];
        Some(st.(clients := st.clients[s :=
          c.(kind := Querying(c.kind.st.(status := if eof then Returned(false) else Failed)))]))
    case ClientStreamBreaks(s) =>
      if s !in st.clients then None
      else Some(st.(clients := st.clients[s := st.clients[s].(broken := true)]))
    case _ => None
  }

  /** One step of the system; `None` when the label is not enabled. */
  function Next(st: State, l: Label): (r: Option<State>) {
    if l.AgentConnects? || l.AgentExits? || l.AgentActs? || l.GatewayLooksUp? || l.GatewayDelivers?
    then NextAgent(st, l) else NextClient(st, l)
  }

  /** The state a run reaches; `None` when some label was not enabled. */
  function Run(ls: seq<Label>): (r: Option<State>) {
    if ls == [] then Some(INIT)
    else
      var before := Run(ls[..|ls| - 1]);
      if before.None? then None else Next(before.value, ls[|ls| - 1])
  }
}
