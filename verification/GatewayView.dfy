/**
  What the gateway itself holds of a protocol state, and how each step changes it.
 */
module GatewayView {
  import opened Selection
  import opened Wire
  import opened SessionSetup
  import opened AgentProcess
  import opened QueryTracking
  import opened SessionProtocol

  /** A stream to an agent: the id it registered and what was sent on it. */
  datatype Link = Link(agentID: string, sent: seq<Packet>)

  /** A session object: its agent, its flag, how often its context was cancelled, what was sent. */
  datatype Seat = Seat(agent: nat, closed: bool, cancels: nat, sent: seq<Packet>)

  datatype Holdings = Holdings(registry: map<string, nat>, listed: set<string>, links: map<nat, Link>, seats: map<string, Seat>)

  function LinkOf(p: Process): (k: Link) {
    Link(p.name, UpPackets(p.arrivals))
  }

  function SeatOf(c: Session): (k: Seat) {
    Seat(c.agent, c.closed, c.cancels, PacketsOf(c.delivered))
  }

  function HoldingsOf(st: State): (v: Holdings) {
    Holdings(st.registry, st.sessions, map a | a in st.agents :: LinkOf(st.agents[a]), map s | s in st.clients :: SeatOf(st.clients[s]))
  }

  /** A step that changes one agent and one session. */
  lemma ViewUpdate(st: State, st': State, a: nat, s: string)
    requires a in st'.agents && s in st'.clients
    requires st'.agents == st.agents[a := st'.agents[a]] && st'.clients == st.clients[s := st'.clients[s]]
    ensures HoldingsOf(st') ==
            Holdings(st'.registry, st'.sessions, HoldingsOf(st).links[a := LinkOf(st'.agents[a])],
                 HoldingsOf(st).seats[s := SeatOf(st'.clients[s])])
  {
    hide LinkOf, SeatOf;
    assert HoldingsOf(st').links == HoldingsOf(st).links[a := LinkOf(st'.agents[a])];
    assert HoldingsOf(st').seats == HoldingsOf(st).seats[s := SeatOf(st'.clients[s])];
  }

  lemma ViewAgent(st: State, st': State, a: nat)
    requires a in st'.agents && st'.agents == st.agents[a := st'.agents[a]] && st'.clients == st.clients
    ensures HoldingsOf(st') ==
            HoldingsOf(st).(registry := st'.registry, listed := st'.sessions, links := HoldingsOf(st).links[a := LinkOf(st'.agents[a])])
  {
    hide LinkOf, SeatOf;
    assert HoldingsOf(st').links == HoldingsOf(st).links[a := LinkOf(st'.agents[a])];
  }

  lemma ViewSession(st: State, st': State, s: string)
    requires s in st'.clients && st'.clients == st.clients[s := st'.clients[s]] && st'.agents == st.agents
    ensures HoldingsOf(st') ==
            HoldingsOf(st).(registry := st'.registry, listed := st'.sessions, seats := HoldingsOf(st).seats[s := SeatOf(st'.clients[s])])
  {
    hide LinkOf, SeatOf;
    assert HoldingsOf(st').seats == HoldingsOf(st).seats[s := SeatOf(st'.clients[s])];
  }

  lemma SamePut<K, V>(m: map<K, V>, k: K)
    requires k in m
    ensures m[k := m[k]] == m
  {
  }

  lemma AfterAgentConnects(st: State, a: nat, name: string, setup: Setup)
    requires Next(st, AgentConnects(a, name, setup)).Some?
    ensures var v, id := HoldingsOf(st), AgentName(name);
            a !in st.agents && HoldingsOf(Next(st, AgentConnects(a, name, setup)).value) ==
              v.(registry := v.registry[id := a], links := v.links[a := Link(id, [CONNECT_OK])])
  {
    var st' := Next(st, AgentConnects(a, name, setup)).value;
    ViewAgent(st, st', a);
    assert UpPackets([Up(CONNECT_OK, false)]) == [CONNECT_OK];
  }

  lemma AfterAgentExits(st: State, a: nat)
    requires Next(st, AgentExits(a)).Some?
    ensures var v := HoldingsOf(st);
            a in v.links && HoldingsOf(Next(st, AgentExits(a)).value) == v.(registry := v.registry - {v.links[a].agentID})
  {
    hide Step;
    var st' := Next(st, AgentExits(a)).value;
    ViewAgent(st, st', a);
    SamePut(HoldingsOf(st).links, a);
  }

  lemma AfterLooksUp(st: State, a: nat)
    requires Next(st, GatewayLooksUp(a)).Some?
    ensures HoldingsOf(Next(st, GatewayLooksUp(a)).value) == HoldingsOf(st)
    ensures a in st.agents && st.agents[a].routed < |st.agents[a].emitted|
    ensures var m := st.agents[a].emitted[st.agents[a].routed];
            Next(st, GatewayLooksUp(a)).value.agents[a].carrying == if SidOf(m.pkt) in st.sessions then Some(m) else None
  {
    var st' := Next(st, GatewayLooksUp(a)).value;
    ViewAgent(st, st', a);
    SamePut(HoldingsOf(st).links, a);
  }

  lemma AfterDelivers(st: State, a: nat)
    requires Next(st, GatewayDelivers(a)).Some?
    ensures a in st.agents && st.agents[a].carrying.Some?
    ensures var pkt := st.agents[a].carrying.value.pkt;
            var s := SidOf(pkt);
            && s in st.clients
            && var v := HoldingsOf(st);
               HoldingsOf(Next(st, GatewayDelivers(a)).value) ==
               if st.clients[s].closed || st.clients[s].broken then v
               else v.(seats := v.seats[s := v.seats[s].(sent := v.seats[s].sent + [pkt])])
  {
    var st' := Next(st, GatewayDelivers(a)).value;
    var m := st.agents[a].carrying.value;
    var s := SidOf(m.pkt);
    var c := st.clients[s];
    ViewUpdate(st, st', a, s);
    SamePut(HoldingsOf(st).links, a);
    SamePut(HoldingsOf(st).seats, s);
    assert PacketsOf(c.delivered + [m]) == PacketsOf(c.delivered) + [m.pkt];
  }

  lemma AfterClientConnects(st: State, s: string, requested: string, first: string, who: Newcomer)
    requires Next(st, ClientConnects(s, requested, first, who)).Some?
    ensures var v, agent := HoldingsOf(st), PickAgent(st.registry, requested, first);
            s !in st.clients && agent.Some? && HoldingsOf(Next(st, ClientConnects(s, requested, first, who)).value) ==
              v.(listed := v.listed + {s}, seats := v.seats[s := Seat(agent.value, false, 0, [])])
  {
    var st' := Next(st, ClientConnects(s, requested, first, who)).value;
    ViewSession(st, st', s);
    assert PacketsOf([]) == [];
  }

  lemma AfterForwards(st: State, s: string)
    requires Next(st, GatewayForwards(s)).Some?
    ensures s in st.clients && st.clients[s].forwarded < |st.clients[s].sent| && st.clients[s].agent in st.agents
    ensures var v, c := HoldingsOf(st), st.clients[s];
            HoldingsOf(Next(st, GatewayForwards(s)).value) ==
            v.(links := v.links[c.agent := v.links[c.agent].(sent := v.links[c.agent].sent + [Stamp(c.sent[c.forwarded].pkt, s)])])
  {
    var st' := Next(st, GatewayForwards(s)).value;
    var c := st.clients[s];
    var u := Up(Stamp(c.sent[c.forwarded].pkt, s), c.sent[c.forwarded].afterOk);
    ViewUpdate(st, st', c.agent, s);
    SamePut(HoldingsOf(st).seats, s);
    assert UpPackets(st.agents[c.agent].arrivals + [u]) == UpPackets(st.agents[c.agent].arrivals) + [u.pkt];
  }

  lemma AfterCloses(st: State, s: string)
    requires Next(st, HandlerCloses(s)).Some?
    ensures s in st.clients
    ensures var v := HoldingsOf(st);
            var k := v.seats[s];
            HoldingsOf(Next(st, HandlerCloses(s)).value) ==
            v.(seats := v.seats[s := k.(closed := true, cancels := k.cancels + if k.closed then 0 else 1)])
  {
    ViewSession(st, Next(st, HandlerCloses(s)).value, s);
  }

  lemma AfterDeletes(st: State, s: string)
    requires Next(st, HandlerDeletes(s)).Some?
    ensures var v := HoldingsOf(st); HoldingsOf(Next(st, HandlerDeletes(s)).value) == v.(listed := v.listed - {s})
  {
    ViewSession(st, Next(st, HandlerDeletes(s)).value, s);
    SamePut(HoldingsOf(st).seats, s);
  }

  /** The steps that are not the gateway's. */
  predicate NotGateway(l: Label) {
    l.AgentActs? || l.ClientSends? || l.ClientReceives? || l.ClientStreamEnds? || l.ClientStreamBreaks? || l.HandlerLeaves?
  }

  lemma StepKeepsLink(p: Process, l: AgentStep)
    requires Step(p, l).Some?
    ensures LinkOf(Step(p, l).value) == LinkOf(p)
  {
  }

  lemma AfterElsewhere(st: State, l: Label)
    requires NotGateway(l) && Next(st, l).Some?
    ensures HoldingsOf(Next(st, l).value) == HoldingsOf(st)
  {
    hide Step;
    var st' := Next(st, l).value;
    if l.AgentActs? {
      StepKeepsLink(st.agents[l.a], l.l);
      ViewAgent(st, st', l.a);
      SamePut(HoldingsOf(st).links, l.a);
    } else {
      ViewSession(st, st', l.s);
      SamePut(HoldingsOf(st).seats, l.s);
    }
  }
}
