/**
  The gateway as the source writes it (gateway/main.go): a broker with two shared maps, sessions
  with a closed flag under a mutex, and packets whose session id is overwritten in place.  The
  broker carries the state of the protocol model as a ghost; `Valid` says that every map, flag and
  stream of the gateway is what that state says the gateway holds, and each method is proved to keep
  it while the state makes the step the method stands for.  `Elsewhere` is every step that is not
  the gateway's.
 */
module Gateway {
  import opened Selection
  import opened Wire
  import opened AgentProcess
  import opened SessionSetup
  import opened SessionProtocol
  import opened GatewayView

  /** A connected agent; `number` tells apart the streams ever opened. */
  class AgentConnection {
    const number: nat
    const agentID: string
    var stream: seq<Packet>

    constructor (number: nat, agentID: string)
      ensures this.number == number && this.agentID == agentID && stream == []
    {
      this.number, this.agentID, stream := number, agentID, [];
    }

    method Send(pkt: Packet)
      modifies this
      ensures stream == old(stream) + [pkt]
    {
      stream := stream + [pkt];
    }
  }

  class ClientSession {
    const sessionID: string
    const agent: AgentConnection
    var clientStream: seq<Packet>
    var closed: bool
    var cancels: nat

    constructor (sessionID: string, agent: AgentConnection)
      ensures this.sessionID == sessionID && this.agent == agent && clientStream == [] && !closed && cancels == 0
    {
      this.sessionID, this.agent := sessionID, agent;
      clientStream, closed, cancels := [], false, 0;
    }

    /** Nothing is written to the client's stream once the session is closed; a failing send is
        reported and writes nothing either. */
    method SendToClient(pkt: Packet, fails: bool) returns (ok: bool)
      modifies this`clientStream
      ensures ok <==> !closed && !fails
      ensures clientStream == if ok then old(clientStream) + [pkt] else old(clientStream)
    {
      if closed {
        return false;
      }
      if fails {
        return false;
      }
      clientStream := clientStream + [pkt];
      return true;
    }

    /** The context is cancelled by the first Close only. */
    method Close()
      modifies this`closed, this`cancels
      ensures closed && cancels == old(cancels) + if old(closed) then 0 else 1
    {
      if closed {
        return;
      }
      closed := true;
      cancels := cancels + 1;
    }
  }

  class Broker {
    var agents: map<string, AgentConnection>
    var sessions: map<string, ClientSession>
    ghost var st: State
    ghost var streams: map<nat, AgentConnection>   // every agent stream ever opened
    ghost var created: map<string, ClientSession>  // every session ever created

    /** Objects are stored under their own names. */
    ghost predicate Shape()
      reads this
    {
      && (forall a :: a in streams ==> streams[a].number == a)
      && (forall s :: s in created ==> created[s].sessionID == s && Known(created[s].agent))
      && (forall id :: id in agents ==> Known(agents[id]))
      && (forall s :: s in sessions ==> s in created && sessions[s] == created[s])
    }

    ghost predicate Known(agent: AgentConnection)
      reads this
    {
      agent.number in streams && streams[agent.number] == agent
    }

    ghost function Links(): (m: map<nat, Link>)
      reads this, streams.Values
    {
      map a | a in streams :: Link(streams[a].agentID, streams[a].stream)
    }

    ghost function Seats(): (m: map<string, Seat>)
      reads this, created.Values
    {
      map s | s in created :: Seat(created[s].agent.number, created[s].closed, created[s].cancels, created[s].clientStream)
    }

    ghost function Registry(): (m: map<string, nat>)
      reads this
    {
      map id | id in agents :: agents[id].number
    }

    /** The gateway holds exactly what the protocol state says. */
    ghost predicate Valid()
      reads this, streams.Values, created.Values
    {
      Shape() && Holdings(Registry(), sessions.Keys, Links(), Seats()) == HoldingsOf(st)
    }

    twostate lemma KeepLinks()
      requires streams == old(streams) && forall a :: a in streams ==> streams[a].stream == old(streams[a].stream)
      ensures Links() == old(Links())
    {
    }

    twostate lemma KeepSeats()
      requires created == old(created) && forall s :: s in created ==> unchanged(created[s])
      ensures Seats() == old(Seats())
    {
    }

    twostate lemma KeepRegistry()
      requires agents == old(agents)
      ensures Registry() == old(Registry())
    {
    }

    twostate lemma KeepAll()
      requires agents == old(agents) && streams == old(streams) && created == old(created)
      requires forall a :: a in streams ==> streams[a].stream == old(streams[a].stream)
      requires forall s :: s in created ==> unchanged(created[s])
      ensures Registry() == old(Registry()) && Links() == old(Links()) && Seats() == old(Seats())
    {
    }

    /** One agent stream is new or was sent something. */
    twostate lemma PutLink(new agent: AgentConnection)
      requires streams == old(streams)[agent.number := agent]
      requires forall a :: a in old(streams) && a != agent.number ==> old(streams)[a].stream == old(streams[a].stream)
      ensures Links() == old(Links())[agent.number := Link(agent.agentID, agent.stream)]
    {
    }

    /** One session is new or was changed. */
    twostate lemma PutSeat(new session: ClientSession)
      requires created == old(created)[session.sessionID := session]
      requires forall s :: s in old(created) && s != session.sessionID ==> unchanged(old(created)[s])
      ensures Seats() == old(Seats())[session.sessionID := Seat(session.agent.number, session.closed, session.cancels, session.clientStream)]
    {
    }

    twostate lemma KeepShape()
      requires old(Shape()) && agents == old(agents) && sessions == old(sessions) && streams == old(streams) && created == old(created)
      ensures Shape()
    {
    }

    twostate lemma ShapeWithAgent(new agent: AgentConnection, id: string)
      requires old(Shape()) && agent.number !in old(streams) && sessions == old(sessions) && created == old(created)
      requires agents == old(agents)[id := agent] && streams == old(streams)[agent.number := agent]
      ensures Shape()
    {
    }

    twostate lemma ShapeWithSession(new session: ClientSession)
      requires old(Shape()) && session.sessionID !in old(created) && agents == old(agents) && streams == old(streams)
      requires Known(session.agent)
      requires sessions == old(sessions)[session.sessionID := session] && created == old(created)[session.sessionID := session]
      ensures Shape()
    {
    }

    twostate lemma PutAgent(new agent: AgentConnection, id: string)
      requires agents == old(agents)[id := agent]
      ensures Registry() == old(Registry())[id := agent.number]
    {
    }

    /** A session object is stored under its own name only, and so is an agent's. */
    lemma OwnName(session: ClientSession)
      requires Shape() && session in created.Values
      ensures session.sessionID in created && created[session.sessionID] == session && Known(session.agent)
      ensures forall s :: s in created && s != session.sessionID ==> created[s] != session
      ensures forall a :: a in streams && a != session.agent.number ==> streams[a] != session.agent
    {
    }

    /** What `Valid` says of the maps and of one object. */
    lemma Names()
      requires Valid()
      ensures streams.Keys == st.agents.Keys && created.Keys == st.clients.Keys && sessions.Keys == st.sessions
      ensures Registry() == st.registry && agents.Keys == st.registry.Keys
    {
      var h := HoldingsOf(st);
      assert Links() == h.links && Seats() == h.seats && Registry() == h.registry;
      assert streams.Keys == Links().Keys && st.agents.Keys == h.links.Keys;
      assert created.Keys == Seats().Keys && st.clients.Keys == h.seats.Keys;
      assert agents.Keys == Registry().Keys;
    }

    lemma SeatAt(s: string)
      requires Valid() && s in created
      ensures s in st.clients && s in Seats() && Seats()[s] == SeatOf(st.clients[s])
      ensures Seats()[s] == Seat(created[s].agent.number, created[s].closed, created[s].cancels, created[s].clientStream)
    {
      assert Seats()[s] == HoldingsOf(st).seats[s];
    }

    lemma LinkAt(a: nat)
      requires Valid() && a in streams
      ensures a in Links() && Links()[a] == Link(streams[a].agentID, streams[a].stream)
    {
    }

    constructor ()
      ensures Valid() && st == INIT && agents == map[] && sessions == map[]
    {
      agents, sessions := map[], map[];
      st, streams, created := INIT, map[], map[];
    }

    /** The head of handleAgentConnection: the id may already be registered, and is then taken
        over. */
    method AgentConnects(number: nat, connectionName: string, ghost setup: Setup) returns (agent: AgentConnection)
      requires Valid() && Next(st, Label.AgentConnects(number, connectionName, setup)).Some?
      modifies this
      ensures Valid() && st == Next(old(st), Label.AgentConnects(number, connectionName, setup)).value
      ensures fresh(agent) && agent.agentID == (if connectionName == "" then "agent-default" else "agent-" + connectionName)
      ensures agents == old(agents)[agent.agentID := agent]
      ensures agent.stream == [Packet(GatewayConnectOK, "connected", map[])]
    {
      hide Next, HoldingsOf, Links, Seats, Registry, Shape;
      AfterAgentConnects(st, number, connectionName, setup);
      Names();
      var agentID := "agent-default";
      if connectionName != "" {
        agentID := "agent-" + connectionName;
      }
      agent := new AgentConnection(number, agentID);
      agents := agents[agentID := agent];
      agent.Send(CONNECT_OK);
      assert agent.stream == [CONNECT_OK] && agentID == AgentName(connectionName);
      st := Next(st, Label.AgentConnects(number, connectionName, setup)).value;
      streams := streams[number := agent];
      PutLink(agent);
      KeepSeats();
      PutAgent(agent, agentID);
      ShapeWithAgent(agent, agentID);
    }

    /** Its deferred end: whatever is registered under the id goes. */
    method AgentExits(agent: AgentConnection)
      requires Valid() && Known(agent) && Next(st, Label.AgentExits(agent.number)).Some?
      modifies this
      ensures Valid() && st == Next(old(st), Label.AgentExits(agent.number)).value
      ensures agents == old(agents) - {agent.agentID}
    {
      hide Next, HoldingsOf, Links, Seats;
      AfterAgentExits(st, agent.number);
      LinkAt(agent.number);
      agents := agents - {agent.agentID};
      st := Next(st, Label.AgentExits(agent.number)).value;
      KeepLinks();
      KeepSeats();
      assert Registry() == old(Registry()) - {agent.agentID};
    }

    method GetSession(sessionID: string) returns (session: ClientSession?)
      ensures session == if sessionID in sessions then sessions[sessionID] else null
    {
      if sessionID in sessions {
        return sessions[sessionID];
      }
      return null;
    }

    /** An agent's packet has been received: its session is looked up. */
    method LookUp(agent: AgentConnection, pkt: Packet) returns (session: ClientSession?)
      requires Valid() && Known(agent) && "" !in sessions && Next(st, GatewayLooksUp(agent.number)).Some?
      requires pkt == st.agents[agent.number].emitted[st.agents[agent.number].routed].pkt
      modifies this`st
      ensures Valid() && st == Next(old(st), GatewayLooksUp(agent.number)).value
      ensures session == if st.agents[agent.number].carrying.Some? then created[SidOf(pkt)] else null
    {
      hide Next, HoldingsOf, Links, Seats, Registry;
      AfterLooksUp(st, agent.number);
      Names();
      session := null;
      var sessionID := SidOf(pkt);
      if sessionID != "" {
        session := GetSession(sessionID);
      }
      st := Next(st, GatewayLooksUp(agent.number)).value;
      KeepShape();
      KeepAll();
    }

    /** The session found is sent the packet, though it may have been closed or forgotten since. */
    method Deliver(agent: AgentConnection, session: ClientSession, pkt: Packet, fails: bool) returns (ok: bool)
      requires Valid() && Known(agent) && Next(st, GatewayDelivers(agent.number)).Some?
      requires pkt == st.agents[agent.number].carrying.value.pkt && SidOf(pkt) in created && session == created[SidOf(pkt)]
      requires fails == st.clients[SidOf(pkt)].broken
      modifies this`st, session
      ensures Valid() && st == Next(old(st), GatewayDelivers(agent.number)).value
      ensures ok <==> !session.closed && !fails
    {
      hide Next, HoldingsOf, Links, Seats, Registry, Shape;
      OwnName(session);
      AfterDelivers(st, agent.number);
      SeatAt(SidOf(pkt));
      ok := session.SendToClient(pkt, fails);
      st := Next(st, GatewayDelivers(agent.number)).value;
      KeepLinks();
      PutSeat(session);
      KeepShape();
      KeepRegistry();
      SamePut(old(Seats()), SidOf(pkt));
    }

    /** The requested agent, or without a request any registered one. */
    method FindAgent(requested: string) returns (agent: AgentConnection?, ghost first: string)
      requires Valid()
      ensures agent == null <==> PickAgent(st.registry, requested, first).None?
      ensures agent != null ==> PickAgent(st.registry, requested, first) == Some(agent.number) && Known(agent)
      ensures requested == "" ==> (agent != null <==> agents != map[])
      ensures requested != "" && requested in agents ==> agent == agents[requested]
      ensures requested != "" && requested !in agents ==> agent == null
      ensures agent != null ==> agent in agents.Values
    {
      hide HoldingsOf, Links, Seats;
      Names();
      agent, first := null, "";
      if requested != "" {
        if requested in agents {
          agent := agents[requested];
        }
      } else if agents != map[] {
        assert agents.Keys != {};
        var id :| id in agents.Keys;
        agent, first := agents[id], id;
      }
    }

    /** The head of handleClientConnection once the agent is found. */
    method CreateSession(sessionID: string, agent: AgentConnection, ghost requested: string, ghost first: string, ghost who: Newcomer)
      returns (session: ClientSession)
      requires Valid() && Known(agent) && PickAgent(st.registry, requested, first) == Some(agent.number)
      requires Next(st, ClientConnects(sessionID, requested, first, who)).Some?
      modifies this
      ensures Valid() && st == Next(old(st), ClientConnects(sessionID, requested, first, who)).value
      ensures fresh(session) && sessions == old(sessions)[sessionID := session] && session.agent == agent
    {
      hide Next, HoldingsOf, Links, Seats, Registry, Shape;
      AfterClientConnects(st, sessionID, requested, first, who);
      Names();
      session := new ClientSession(sessionID, agent);
      sessions := sessions[sessionID := session];
      st := Next(st, ClientConnects(sessionID, requested, first, who)).value;
      created := created[sessionID := session];
      KeepLinks();
      PutSeat(session);
      KeepRegistry();
      ShapeWithSession(session);
      assert sessions.Keys == old(sessions.Keys) + {sessionID};
    }

    /** The body of the client's receive loop: both branches write the session id into the packet,
        over whatever the client put there, and send it to the session's agent.  A failing send ends
        the loop. */
    method Forward(session: ClientSession, pkt: Packet, fails: bool) returns (ok: bool)
      requires Valid() && session in created.Values && Next(st, GatewayForwards(session.sessionID)).Some?
      requires pkt == st.clients[session.sessionID].sent[st.clients[session.sessionID].forwarded].pkt
      modifies this`st, session.agent
      ensures Valid() && ok == !fails
      ensures Next(old(st), if ok then GatewayForwards(session.sessionID) else HandlerLeaves(session.sessionID)) == Some(st)
      ensures session.agent.stream ==
              if ok then old(session.agent.stream) + [Stamp(pkt, session.sessionID)] else old(session.agent.stream)
    {
      var spec := pkt.spec;
      if pkt.typ == SessionOpen {
        spec := spec[SessionId := session.sessionID];
      } else {
        spec := spec[SessionId := session.sessionID];
      }
      MayLeave(st, session.sessionID);
      if fails {
        Elsewhere(HandlerLeaves(session.sessionID));
        return false;
      }
      SendOn(session, pkt, pkt.(spec := spec));
      return true;
    }

    /** The packet goes out on the stream of the session's agent. */
    method SendOn(session: ClientSession, ghost pkt: Packet, stamped: Packet)
      requires Valid() && session in created.Values && Next(st, GatewayForwards(session.sessionID)).Some?
      requires pkt == st.clients[session.sessionID].sent[st.clients[session.sessionID].forwarded].pkt
      requires stamped == Stamp(pkt, session.sessionID)
      modifies this`st, session.agent
      ensures Valid() && st == Next(old(st), GatewayForwards(session.sessionID)).value
      ensures session.agent.stream == old(session.agent.stream) + [stamped]
    {
      hide Next, HoldingsOf, Links, Seats, Registry, Shape;
      OwnName(session);
      AfterForwards(st, session.sessionID);
      SeatAt(session.sessionID);
      LinkAt(session.agent.number);
      session.agent.Send(stamped);
      st := Next(st, GatewayForwards(session.sessionID)).value;
      PutLink(session.agent);
      KeepSeats();
      KeepShape();
      KeepRegistry();
    }

    /** The deferred end of a client's handler closes its session ... */
    method CloseSession(session: ClientSession)
      requires Valid() && session in created.Values && Next(st, HandlerCloses(session.sessionID)).Some?
      modifies this`st, session
      ensures Valid() && st == Next(old(st), HandlerCloses(session.sessionID)).value
      ensures session.closed && session.clientStream == old(session.clientStream)
    {
      hide Next, HoldingsOf, Links, Seats, Registry, Shape;
      OwnName(session);
      AfterCloses(st, session.sessionID);
      SeatAt(session.sessionID);
      session.Close();
      st := Next(st, HandlerCloses(session.sessionID)).value;
      KeepLinks();
      PutSeat(session);
      KeepShape();
      KeepRegistry();
    }

    /** ... and then forgets it. */
    method DeleteSession(session: ClientSession)
      requires Valid() && session in created.Values && Next(st, HandlerDeletes(session.sessionID)).Some?
      modifies this
      ensures Valid() && st == Next(old(st), HandlerDeletes(session.sessionID)).value
      ensures sessions == old(sessions) - {session.sessionID}
    {
      hide Next, HoldingsOf, Links, Seats, Registry;
      AfterDeletes(st, session.sessionID);
      sessions := sessions - {session.sessionID};
      st := Next(st, HandlerDeletes(session.sessionID)).value;
      KeepAll();
      assert sessions.Keys == old(sessions.Keys) - {session.sessionID};
    }

    /** What agents and clients do, and a handler that leaves its loop, touches nothing of the
        gateway. */
    ghost method Elsewhere(l: Label)
      requires Valid() && NotGateway(l) && Next(st, l).Some?
      modifies this`st
      ensures Valid() && st == Next(old(st), l).value
    {
      hide Next, HoldingsOf, Links, Seats, Registry, Shape;
      AfterElsewhere(st, l);
      st := Next(st, l).value;
      KeepShape();
      KeepAll();
    }

    /** Every registered id once, in the order the registry is walked. */
    method GetActiveAgents() returns (ids: seq<string>)
      ensures forall id :: id in ids <==> id in agents
      ensures forall i, j :: 0 <= i < j < |ids| ==> ids[i] != ids[j]
    {
      ids := [];
      var left := agents.Keys;
      while left != {}
        invariant left <= agents.Keys
        invariant forall id :: id in ids <==> id in agents && id !in left
        invariant forall i, j :: 0 <= i < j < |ids| ==> ids[i] != ids[j]
        decreases left
      {
        var id :| id in left;
        ids := ids + [id];
        left := left - {id};
      }
    }
  }

  /** A handler that could forward may leave its loop instead. */
  lemma MayLeave(st: State, s: string)
    requires Next(st, GatewayForwards(s)).Some?
    ensures Next(st, HandlerLeaves(s)).Some?
  {
  }
}
