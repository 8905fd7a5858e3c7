/**
  Which agent a session is bound to (gateway/main.go): the one registered under the requested id
  when the client connects, or any registered one when it requests none; and that for good.
 */
module Binding {
  import opened Selection
  import opened Wire
  import opened ConnKeys
  import opened SessionSetup
  import opened AgentHandlers
  import opened AgentProcess
  import opened QueryClient
  import opened QueryTracking
  import opened SessionProtocol
  import opened ProtocolInvariant
  import opened SessionTheorems

  /** Agent `a` is what a client that requests `requested` may be bound to in state `st`: it is
      registered, under that id if one is requested, it is running, and its name is the id. */
  predicate Eligible(st: State, requested: string, a: nat) {
    && a in st.agents && st.agents[a].running
    && st.agents[a].name in st.registry && st.registry[st.agents[a].name] == a
    && (requested != "" ==> st.agents[a].name == requested)
  }

  /** When a client gets a session: never without a registered agent, and with a request only if that
      very agent is registered. */
  lemma ConnectsExactly(st: State, s: string, requested: string, first: string, who: Newcomer)
    ensures Next(st, ClientConnects(s, requested, first, who)).Some? <==>
            ValidSid(s) && s !in st.clients && (if requested != "" then requested in st.registry else first in st.registry)
  {
  }

  /** Nothing has happened in the session yet. */
  predicate Fresh(c: Session) {
    && c.phase == Serving && !c.closed && !c.broken && c.cancels == 0
    && c.delivered == [] && c.events == [] && c.forwarded == 0 && c.consumed == 0
  }

  /** The new session is bound to the agent registered under the requested id, or under any. */
  lemma ConnectBinds(st: State, s: string, requested: string, first: string, who: Newcomer)
    requires RegistrySound(st) && Next(st, ClientConnects(s, requested, first, who)).Some?
    ensures var st' := Next(st, ClientConnects(s, requested, first, who)).value;
            && s in st'.clients && Eligible(st, requested, st'.clients[s].agent)
            && (requested != "" ==> requested in st.registry && st'.clients[s].agent == st.registry[requested])
            && (requested == "" ==> first in st.registry && st'.clients[s].agent == st.registry[first])
            && Fresh(st'.clients[s]) && (who.Anyone? ==> st'.clients[s].sent == [])
            && st'.sessions == st.sessions + {s}
            && (who.Queries? <==> st'.clients[s].kind.Querying?)
            && (who.Queries? ==> OpenedBy(st'.clients[s], who.db, who.query, who.params))
  {
  }

  /** An `executeQuery` client for this database and query, whose first packet opens the session. */
  predicate OpenedBy(c: Session, db: Protocol, query: string, params: string) {
    && c.kind.Querying? && c.kind.st.db == db && c.kind.st.query == query
    && c.sent != [] && c.sent[0].pkt == OpenPacket(db, query, params)
  }

  /** No step takes a session away or binds it anew. */
  lemma StaysBound(st: State, l: Label, s: string)
    requires Next(st, l).Some? && s in st.clients
    ensures s in Next(st, l).value.clients && Next(st, l).value.clients[s].agent == st.clients[s].agent
    ensures var c, c' := st.clients[s], Next(st, l).value.clients[s];
            && (c.kind.Querying? <==> c'.kind.Querying?)
            && forall db, query, params :: OpenedBy(c, db, query, params) ==> OpenedBy(c', db, query, params)
  {
    hide Step;
  }

  /** A session there is now was there before the step, or the step made it. */
  lemma ComesFrom(st: State, l: Label, s: string)
    requires Next(st, l).Some? && s in Next(st, l).value.clients && s !in st.clients
    ensures l.ClientConnects? && l.s == s
  {
    hide Step, OnPacket;
  }

  /** Step `n` of the run is the connection of session `s`. */
  predicate CreatedAt(ls: seq<Label>, s: string, n: int) {
    0 <= n < |ls| && ls[n].ClientConnects? && ls[n].s == s
  }

  lemma LastStep(ls: seq<Label>)
    requires Run(ls).Some? && ls != []
    ensures Run(ls[..|ls| - 1]).Some? && Next(Run(ls[..|ls| - 1]).value, ls[|ls| - 1]) == Run(ls)
  {
    hide Next;
  }

  /** In every run: the session was created by one step, and is bound to an agent that was eligible
      in the state before that step, the one registered under the requested id if there was one; no
      later step changes that. */
  lemma {:induction false} BoundAsRequested(ls: seq<Label>, s: string) returns (n: nat)
    requires Run(ls).Some? && s in Run(ls).value.clients
    ensures CreatedAt(ls, s, n) && Run(ls[..n]).Some?
    ensures var before, agent := Run(ls[..n]).value, Run(ls).value.clients[s].agent;
            && s !in before.clients && Eligible(before, ls[n].requested, agent)
            && (ls[n].requested != "" ==> ls[n].requested in before.registry && agent == before.registry[ls[n].requested])
    ensures ls[n].who.Queries? <==> Run(ls).value.clients[s].kind.Querying?
    ensures ls[n].who.Queries? ==> OpenedBy(Run(ls).value.clients[s], ls[n].who.db, ls[n].who.query, ls[n].who.params)
    decreases |ls|
  {
    hide Next, Eligible, RegistrySound, OpenedBy;
    var init, l := ls[..|ls| - 1], ls[|ls| - 1];
    LastStep(ls);
    var before := Run(init).value;
    if s in before.clients {
      n := BoundAsRequested(init, s);
      StaysBound(before, l, s);
      assert init[..n] == ls[..n];
    } else {
      ComesFrom(before, l, s);
      n := |ls| - 1;
      RunSound(init);
      ConnectBinds(before, s, l.requested, l.first, l.who);
    }
  }

  /** The other way round: whatever step of a run is a connection, its session is bound like that
      from then on. */
  lemma BoundFromThen(ls: seq<Label>, n: nat)
    requires Run(ls).Some? && n < |ls| && ls[n].ClientConnects?
    ensures Run(ls[..n]).Some? && ls[n].s in Run(ls).value.clients
    ensures var before, agent := Run(ls[..n]).value, Run(ls).value.clients[ls[n].s].agent;
            && Eligible(before, ls[n].requested, agent)
            && (ls[n].requested != "" ==> ls[n].requested in before.registry && agent == before.registry[ls[n].requested])
    decreases |ls| - n
  {
    hide Next, Eligible, RegistrySound;
    BindsHere(ls, n);
    KeptUntil(ls, n + 1, |ls|, ls[n].s);
    assert ls[..|ls|] == ls;
  }

  lemma BindsHere(ls: seq<Label>, n: nat)
    requires Run(ls).Some? && n < |ls| && ls[n].ClientConnects?
    ensures Run(ls[..n]).Some? && Run(ls[..n + 1]).Some? && ls[n].s in Run(ls[..n + 1]).value.clients
    ensures var before, agent := Run(ls[..n]).value, Run(ls[..n + 1]).value.clients[ls[n].s].agent;
            && Eligible(before, ls[n].requested, agent)
            && (ls[n].requested != "" ==> ls[n].requested in before.registry && agent == before.registry[ls[n].requested])
  {
    hide Next, Eligible, RegistrySound;
    RunPrefix(ls, n);
    RunPrefix(ls, n + 1);
    assert ls[..n + 1][..n] == ls[..n];
    LastStep(ls[..n + 1]);
    RunSound(ls[..n]);
    ConnectBinds(Run(ls[..n]).value, ls[n].s, ls[n].requested, ls[n].first, ls[n].who);
  }

  lemma RunSound(ls: seq<Label>)
    requires Run(ls).Some?
    ensures RegistrySound(Run(ls).value)
  {
    RunInv(ls);
  }

  lemma {:induction false} KeptUntil(ls: seq<Label>, m: nat, n: nat, s: string)
    requires Run(ls).Some? && m <= n <= |ls| && Run(ls[..m]).Some? && s in Run(ls[..m]).value.clients
    ensures Run(ls[..n]).Some? && s in Run(ls[..n]).value.clients
    ensures Run(ls[..n]).value.clients[s].agent == Run(ls[..m]).value.clients[s].agent
    decreases n
  {
    hide Next;
    RunPrefix(ls, n);
    if m < n {
      KeptUntil(ls, m, n - 1, s);
      assert ls[..n][..n - 1] == ls[..n - 1];
      LastStep(ls[..n]);
      StaysBound(Run(ls[..n - 1]).value, ls[n - 1], s);
    }
  }

  /** The end-to-end result, with the agent: the query of an `executeQuery` on mysql or mongodb that
      returns through SessionClose ran on the agent that was registered under the requested id when
      it connected, and nowhere else. */
  lemma QueryOnRequestedAgent(ls: seq<Label>, s: string) returns (n: nat)
    requires Run(ls).Some? && s in Run(ls).value.clients
    requires Direct(Run(ls).value.clients[s]) && Run(ls).value.clients[s].kind.st.status == Returned(true)
    ensures CreatedAt(ls, s, n) && Run(ls[..n]).Some?
    ensures var st, before := Run(ls).value, Run(ls[..n]).value;
            var c := st.clients[s];
            && Eligible(before, ls[n].requested, c.agent)
            && (ls[n].requested != "" ==> ls[n].requested in before.registry && c.agent == before.registry[ls[n].requested])
            && c.agent in st.agents && Faithful(c.kind.st, Select(st.agents[c.agent].runs, RunFor(s)), s)
            && (forall b :: b in st.agents && b != c.agent ==> Select(st.agents[b].runs, RunFor(s)) == [])
  {
    hide Eligible, Faithful, Next;
    n := BoundAsRequested(ls, s);
    QueryEndToEnd(ls, s);
  }

  // ---- When each step can be taken, and what it does to a session -----------------------

  /** A session ends in three steps, each possible exactly after the one before: its handler leaves the
      loop, closes the session, which cancels it if it was open, and deletes it from the map. */
  lemma EndsExactly(st: State, s: string)
    ensures Next(st, HandlerLeaves(s)).Some? <==> s in st.clients && st.clients[s].phase == Serving
    ensures Next(st, HandlerLeaves(s)).Some? ==>
              Next(st, HandlerLeaves(s)).value == st.(clients := st.clients[s := st.clients[s].(phase := Leaving)])
    ensures Next(st, HandlerCloses(s)).Some? <==> s in st.clients && st.clients[s].phase == Leaving
    ensures Next(st, HandlerCloses(s)).Some? ==>
              var c, st' := st.clients[s], Next(st, HandlerCloses(s)).value;
              && s in st'.clients && st'.clients[s].closed && st'.clients[s].phase == Shut && st'.clients[s].delivered == c.delivered
              && st'.clients[s].cancels == c.cancels + (if c.closed then 0 else 1)
              && st'.sessions == st.sessions && st'.agents == st.agents && st'.registry == st.registry
    ensures Next(st, HandlerDeletes(s)).Some? <==> s in st.clients && st.clients[s].phase == Shut
    ensures Next(st, HandlerDeletes(s)).Some? ==>
              var st' := Next(st, HandlerDeletes(s)).value;
              && s !in st'.sessions && (forall t :: t != s ==> (t in st'.sessions <==> t in st.sessions))
              && s in st'.clients && st'.clients[s] == st.clients[s].(phase := Gone)
  {
  }

  /** The gateway takes a client's next packet while its handler serves and its agent's stream lives. */
  lemma ForwardsExactly(st: State, s: string)
    ensures Next(st, GatewayForwards(s)).Some? <==>
            && s in st.clients && st.clients[s].phase == Serving && st.clients[s].forwarded < |st.clients[s].sent|
            && st.clients[s].agent in st.agents && st.agents[st.clients[s].agent].running
    ensures Next(st, GatewayForwards(s)).Some? ==>
              var c, st' := st.clients[s], Next(st, GatewayForwards(s)).value;
              var a := c.agent;
              && s in st'.clients && st'.clients[s] == c.(forwarded := c.forwarded + 1)
              && a in st'.agents
              && st'.agents[a].arrivals == st.agents[a].arrivals + [Up(Stamp(c.sent[c.forwarded].pkt, s), c.sent[c.forwarded].afterOk)]
  {
  }

  /** It takes an agent's next packet while that stream lives and nothing is in hand, and delivers what
      it has in hand to the session looked up. */
  lemma RoutesExactly(st: State, a: nat)
    ensures Next(st, GatewayLooksUp(a)).Some? <==>
            && a in st.agents && st.agents[a].running && st.agents[a].carrying.None? && st.agents[a].routed < |st.agents[a].emitted|
    ensures Next(st, GatewayLooksUp(a)).Some? ==>
              var p, st' := st.agents[a], Next(st, GatewayLooksUp(a)).value;
              var m := p.emitted[p.routed];
              && a in st'.agents && st'.agents[a].routed == p.routed + 1
              && st'.agents[a].carrying == (if Get(m.pkt.spec, SessionId) in st.sessions then Some(m) else None)
    ensures Next(st, GatewayDelivers(a)).Some? <==>
            a in st.agents && st.agents[a].carrying.Some? && Get(st.agents[a].carrying.value.pkt.spec, SessionId) in st.clients
    ensures Next(st, GatewayDelivers(a)).Some? ==>
              var m, st' := st.agents[a].carrying.value, Next(st, GatewayDelivers(a)).value;
              var s := Get(m.pkt.spec, SessionId);
              && s in st'.clients && a in st'.agents && st'.agents[a].carrying.None?
              && st'.clients[s].delivered == (if st.clients[s].closed || st.clients[s].broken then st.clients[s].delivered
                                              else st.clients[s].delivered + [m])
  {
  }

  /** A client sends what it likes, or is `executeQuery`; it reads in order as long as it runs. */
  lemma ClientExactly(st: State, s: string, pkt: Packet)
    ensures Next(st, ClientSends(s, pkt)).Some? <==> s in st.clients && st.clients[s].kind.Arbitrary?
    ensures Next(st, ClientSends(s, pkt)).Some? ==>
              var c, st' := st.clients[s], Next(st, ClientSends(s, pkt)).value;
              && s in st'.clients && |st'.clients[s].sent| == |c.sent| + 1 && st'.clients[s].sent[..|c.sent|] == c.sent
              && st'.clients[s].sent[|c.sent|].pkt == pkt
              && (st'.clients[s].sent[|c.sent|].afterOk <==>
                    exists i :: 0 <= i < c.consumed && i < |c.delivered| && c.delivered[i].pkt.typ == SessionOpenOK)
    ensures Next(st, ClientReceives(s)).Some? <==>
            && s in st.clients && st.clients[s].consumed < |st.clients[s].delivered|
            && (st.clients[s].kind.Querying? ==> st.clients[s].kind.st.status == Running)
    ensures Next(st, ClientReceives(s)).Some? ==>
              var c, st' := st.clients[s], Next(st, ClientReceives(s)).value;
              && s in st'.clients && st'.clients[s].consumed == c.consumed + 1
              && (c.kind.Querying? ==> st'.clients[s].kind == Querying(OnPacket(c.kind.st, c.delivered[c.consumed].pkt)))
    ensures Next(st, ClientStreamBreaks(s)).Some? <==> s in st.clients
    ensures Next(st, ClientStreamBreaks(s)).Some? ==>
              var st' := Next(st, ClientStreamBreaks(s)).value; s in st'.clients && st'.clients[s] == st.clients[s].(broken := true)
  {
    hide OnPacket;
  }

  /** Its stream may end at any time; the query then returns without a close, or fails. */
  lemma StreamEndsExactly(st: State, s: string, eof: bool)
    ensures Next(st, ClientStreamEnds(s, eof)).Some? <==>
            s in st.clients && st.clients[s].kind.Querying? && st.clients[s].kind.st.status == Running
    ensures Next(st, ClientStreamEnds(s, eof)).Some? ==>
              var c, st' := st.clients[s], Next(st, ClientStreamEnds(s, eof)).value;
              && s in st'.clients && st'.clients[s].kind.Querying?
              && st'.clients[s].kind.st == c.kind.st.(status := if eof then Returned(false) else Failed)
  {
  }

  // ---- Agents ----------------------------------------------------------------------------

  /** An agent that connects is registered under its connection name, over whoever was, and is told
      so before anything else; every other registration stays. */
  lemma AgentRegisters(st: State, a: nat, name: string, setup: Setup)
    ensures Next(st, AgentConnects(a, name, setup)).Some? <==> a !in st.agents
    ensures a !in st.agents ==>
              var st' := Next(st, AgentConnects(a, name, setup)).value;
              var id := if name == "" then "agent-default" else "agent-" + name;
              && st'.registry == st.registry[id := a] && a in st'.agents && st'.agents[a].name == id && st'.agents[a].running
              && st'.agents[a].arrivals == [Up(Packet(GatewayConnectOK, "connected", map[]), false)]
              && st'.agents[a].setup == setup && st'.clients == st.clients && st'.sessions == st.sessions
  {
  }

  /** One that exits takes the registration of its id with it, whoever holds it, and no other. */
  lemma AgentUnregisters(st: State, a: nat)
    requires Next(st, AgentExits(a)).Some?
    ensures var st' := Next(st, AgentExits(a)).value;
            && a in st.agents && a in st'.agents && !st'.agents[a].running
            && st'.registry == st.registry - {st.agents[a].name} && st'.clients == st.clients
  {
  }
}
