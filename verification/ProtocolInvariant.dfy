/**
  The invariant of the session protocol and its preservation by every step.  One conjunct per
  agent (`Owned`), one link between each session and the agent it is bound to (`Linked`), and
  the registry.
 */
module ProtocolInvariant {
  import opened Selection
  import opened Wire
  import opened ConnKeys
  import opened SessionSetup
  import opened AgentHandlers
  import opened AgentProcess
  import opened QueryClient
  import opened QueryTracking
  import opened SessionProtocol

  function StampAll(us: seq<Up>, s: string): (r: seq<Up>)
    ensures |r| == |us| && forall i :: 0 <= i < |us| ==> r[i] == Up(Stamp(us[i].pkt, s), us[i].afterOk)
  {
    seq(|us|, i requires 0 <= i < |us| => Up(Stamp(us[i].pkt, s), us[i].afterOk))
  }

  function Events(ms: seq<Msg>): (es: seq<Event>)
    ensures |es| == |ms| && forall i :: 0 <= i < |ms| ==> es[i] == Delivered(ms[i])
  {
    seq(|ms|, i requires 0 <= i < |ms| => Delivered(ms[i]))
  }

  /** Session.closed, the context and the order of events. */
  predicate Lifecycle(c: Session) {
    && (c.closed <==> c.phase.Shut? || c.phase.Gone?)
    && c.cancels == (if c.closed then 1 else 0)
    && c.events == Events(c.delivered) + (if c.closed then [Cancelled] else [])
  }

  /** What the gateway handler of `p` has in hand for session `s`. */
  function Carried(p: Process, s: string): (ms: seq<Msg>) {
    if p.carrying.Some? && SidOf(p.carrying.value.pkt) == s then [p.carrying.value] else []
  }

  ghost predicate Uplink(c: Session, p: Process, s: string) {
    && c.forwarded <= |c.sent|
    && Select(p.arrivals, UpFor(s)) == StampAll(c.sent[..c.forwarded], s)
    && (forall j :: 0 <= j < |c.sent| && c.sent[j].afterOk ==> ParamsKey(s) in p.store)
  }

  ghost predicate Downlink(c: Session, p: Process, s: string) {
    && c.consumed <= |c.delivered| && p.routed <= |p.emitted|
    && var out := Select(p.emitted[..p.routed], MsgFor(s));
       if c.closed || c.broken then c.delivered <= out else out == c.delivered + Carried(p, s)
  }

  /** A mysql or mongodb `executeQuery`. */
  predicate Direct(c: Session) {
    c.kind.Querying? && (c.kind.st.db.MySQL? || c.kind.st.db.MongoDB?)
  }

  /** What such a client has sent so far, and that its state is what it received. */
  predicate QuerySent(c: Session, s: string)
    requires c.kind.Querying? && c.consumed <= |c.delivered|
  {
    var st := c.kind.st;
    && 1 <= |st.sent| <= 2 && st.sent[0].typ == SessionOpen
    && (|st.sent| == 2 ==>
          && Stamp(st.sent[1], s) == Stamp(QueryPacket(st.db, s, st.query), s)
          && c.delivered != [] && c.delivered[0].pkt.typ == SessionOpenOK)
    && (st.status == Running || st.status == Returned(true) ==>
          st == Feed(Begin(st.db, st.query, st.sent[0]), PacketsOf(c.delivered[..c.consumed])))
  }

  ghost predicate Linked(c: Session, p: Process, s: string) {
    && Lifecycle(c)
    && Uplink(c, p, s)
    && Downlink(c, p, s)
    && (c.kind.Querying? ==> UpPackets(c.sent) == c.kind.st.sent)
    && (Direct(c) ==> QuerySent(c, s) && Tracked(p, s, c.kind.st.db, c.kind.st.query))
  }

  /** Every packet an agent was sent comes from the gateway itself or from a session bound to it. */
  predicate Bound(st: State, a: nat)
    requires a in st.agents
  {
    && (forall i :: 0 <= i < |st.agents[a].arrivals| ==>
          var sid := SidOf(st.agents[a].arrivals[i].pkt);
          sid == "" || (sid in st.clients && st.clients[sid].agent == a))
    && (st.agents[a].carrying.Some? ==> SidOf(st.agents[a].carrying.value.pkt) in st.clients)
  }

  /** Each registered AgentConnection belongs to a handler that is still running. */
  predicate RegistrySound(st: State) {
    forall id :: id in st.registry ==>
      var a := st.registry[id]; a in st.agents && st.agents[a].running && st.agents[a].name == id
  }

  predicate SessionsSound(st: State) {
    && (forall s :: s in st.sessions ==> s in st.clients)
    && (forall s :: s in st.clients ==>
          && ValidSid(s)
          && (s in st.sessions <==> !st.clients[s].phase.Gone?)
          && st.clients[s].agent in st.agents)
  }

  ghost predicate AgentsOwned(st: State) {
    forall a :: a in st.agents ==> Owned(st.agents[a])
  }

  ghost predicate AgentsBound(st: State) {
    forall a :: a in st.agents ==> Bound(st, a)
  }

  ghost predicate SessionsLinked(st: State) {
    forall s :: s in st.clients && st.clients[s].agent in st.agents ==>
      Linked(st.clients[s], st.agents[st.clients[s].agent], s)
  }

  ghost predicate Inv(st: State) {
    RegistrySound(st) && SessionsSound(st) && AgentsOwned(st) && AgentsBound(st) && SessionsLinked(st)
  }

  // ---- Frames ----------------------------------------------------------------------------

  /** Linked sees an agent only through what its own steps may advance. */
  lemma LinkedAdvances(c: Session, p: Process, r: Process, s: string)
    requires Linked(c, p, s) && Advances(p, r) && r.routed <= |p.emitted|
    requires Direct(c) ==> Tracked(r, s, c.kind.st.db, c.kind.st.query)
    ensures Linked(c, r, s)
  {
    assert r.emitted[..r.routed] == p.emitted[..p.routed];
  }

  /** `st'` differs from `st` at most at agent `a` and at session `s`; no session changes agent. */
  ghost predicate Nearby(st: State, st': State, a: nat, s: string) {
    && a in st'.agents
    && (forall b :: b in st.agents ==> b in st'.agents)
    && (forall b :: b in st'.agents && b != a ==> b in st.agents && st'.agents[b] == st.agents[b])
    && (forall t :: t in st.clients ==> t in st'.clients && st'.clients[t].agent == st.clients[t].agent)
    && (forall t :: t in st'.clients && t != s ==> t in st.clients && st'.clients[t] == st.clients[t])
  }

  lemma NearbyLinked(st: State, st': State, a: nat, s: string)
    requires SessionsLinked(st) && Nearby(st, st', a, s)
    requires s in st'.clients ==> st'.clients[s].agent in st'.agents && Linked(st'.clients[s], st'.agents[st'.clients[s].agent], s)
    requires forall t :: t in st.clients && t != s && st.clients[t].agent == a ==> Linked(st.clients[t], st'.agents[a], t)
    ensures SessionsLinked(st')
  {
  }

  lemma NearbyBound(st: State, st': State, a: nat, s: string)
    requires AgentsBound(st) && Nearby(st, st', a, s) && Bound(st', a)
    ensures AgentsBound(st')
  {
    forall b | b in st'.agents ensures Bound(st', b) {
      if b != a {
        assert Bound(st, b);
      }
    }
  }

  lemma NearbyOwned(st: State, st': State, a: nat, s: string)
    requires AgentsOwned(st) && Nearby(st, st', a, s) && Owned(st'.agents[a])
    ensures AgentsOwned(st')
  {
  }

  /** The invariant needs checking only where a step changed something. */
  lemma NearbyInv(st: State, st': State, a: nat, s: string)
    requires Inv(st) && Nearby(st, st', a, s)
    requires RegistrySound(st') && SessionsSound(st')
    requires Owned(st'.agents[a]) && Bound(st', a)
    requires s in st'.clients ==> st'.clients[s].agent in st'.agents && Linked(st'.clients[s], st'.agents[st'.clients[s].agent], s)
    requires forall t :: t in st.clients && t != s && st.clients[t].agent == a ==> Linked(st.clients[t], st'.agents[a], t)
    ensures Inv(st')
  {
    NearbyLinked(st, st', a, s);
    NearbyBound(st, st', a, s);
    NearbyOwned(st, st', a, s);
  }

  /** `st'` replaces the state of agent `a` and of session `s`, and nothing else. */
  ghost predicate Updates(st: State, st': State, a: nat, s: string) {
    && a in st.agents && a in st'.agents
    && st'.registry == st.registry && st'.agents == st.agents[a := st'.agents[a]]
    && st'.agents[a].name == st.agents[a].name && st'.agents[a].running == st.agents[a].running
    && (if s in st.clients
        then s in st'.clients && st'.clients == st.clients[s := st'.clients[s]] && st'.clients[s].agent == st.clients[s].agent
             && (s in st'.sessions <==> !st'.clients[s].phase.Gone?)
        else st'.clients == st.clients && s !in st'.sessions)
    && (forall t :: t != s ==> (t in st'.sessions <==> t in st.sessions))
  }

  lemma UpdatesSound(st: State, st': State, a: nat, s: string)
    requires RegistrySound(st) && SessionsSound(st) && Updates(st, st', a, s)
    ensures RegistrySound(st') && SessionsSound(st') && Nearby(st, st', a, s)
  {
  }

  lemma UpdatesInv(st: State, st': State, a: nat, s: string)
    requires Inv(st) && Updates(st, st', a, s)
    requires Owned(st'.agents[a]) && Bound(st', a)
    requires s in st'.clients ==> st'.clients[s].agent in st'.agents && Linked(st'.clients[s], st'.agents[st'.clients[s].agent], s)
    requires forall t :: t in st.clients && t != s && st.clients[t].agent == a ==> Linked(st.clients[t], st'.agents[a], t)
    ensures Inv(st')
  {
    UpdatesSound(st, st', a, s);
    NearbyInv(st, st', a, s);
  }

  /** Replacing one agent's state. */
  lemma ReplaceAgent(st: State, a: nat, r: Process)
    requires Inv(st) && a in st.agents
    requires Owned(r) && r.arrivals == st.agents[a].arrivals
    requires r.name == st.agents[a].name && r.running == st.agents[a].running
    requires r.carrying.Some? ==> SidOf(r.carrying.value.pkt) in st.clients
    requires forall s :: s in st.clients && st.clients[s].agent == a ==> Linked(st.clients[s], r, s)
    ensures Inv(st.(agents := st.agents[a := r]))
  {
    var st' := st.(agents := st.agents[a := r]);
    assert Bound(st, a) && "" !in st.clients;
    UpdatesInv(st, st', a, "");
  }

  lemma StepLinked(c: Session, p: Process, l: AgentStep, s: string)
    requires Owned(p) && Linked(c, p, s) && Step(p, l).Some?
    ensures Linked(c, Step(p, l).value, s)
  {
    StepOwned(p, l);
    if Direct(c) {
      StepTracked(p, l, s, c.kind.st.db, c.kind.st.query);
    }
    LinkedAdvances(c, p, Step(p, l).value, s);
  }

  /** An agent's own step. */
  lemma AgentActsInv(st: State, a: nat, l: AgentStep, r: Process)
    requires Inv(st) && a in st.agents && Step(st.agents[a], l) == Some(r)
    ensures Inv(st.(agents := st.agents[a := r]))
  {
    var p := st.agents[a];
    StepOwned(p, l);
    forall s | s in st.clients && st.clients[s].agent == a ensures Linked(st.clients[s], r, s) {
      StepLinked(st.clients[s], p, l, s);
    }
    assert Bound(st, a);
    ReplaceAgent(st, a, r);
  }

  // ---- Agent streams at the gateway ------------------------------------------------------

  /** `r` is `p` but for what the gateway handler of the stream does. */
  ghost predicate GatewaySide(p: Process, r: Process) {
    p.(running := r.running, routed := r.routed, carrying := r.carrying) == r
  }

  /** Tracking does not look at the gateway's side of the stream. */
  lemma TrackedGateway(p: Process, r: Process, s: string, db: Protocol, query: string)
    requires Tracked(p, s, db, query)
    requires GatewaySide(p, r)
    ensures Tracked(r, s, db, query)
  {
    RestFrame(p, r, s);
    assert ViewOf(r, s) == ViewOf(p, s);
  }

  lemma LinkedGateway(c: Session, p: Process, r: Process, s: string)
    requires Linked(c, p, s)
    requires GatewaySide(p, r)
    requires Downlink(c, r, s)
    ensures Linked(c, r, s)
  {
    if Direct(c) {
      TrackedGateway(p, r, s, c.kind.st.db, c.kind.st.query);
    }
  }

  lemma NewProcessOwned(name: string, setup: Setup)
    ensures Owned(NewProcess(name, setup))
  {
  }

  lemma AgentConnectsInv(st: State, a: nat, name: string, setup: Setup)
    requires Inv(st) && a !in st.agents
    ensures Inv(NextAgent(st, AgentConnects(a, name, setup)).value)
  {
    var st' := NextAgent(st, AgentConnects(a, name, setup)).value;
    NewProcessOwned(AgentName(name), setup);
    assert Bound(st', a) && "" !in st.clients;
    AgentConnectsSound(st, a, name, setup);
    NearbyInv(st, st', a, "");
  }

  lemma AgentConnectsSound(st: State, a: nat, name: string, setup: Setup)
    requires RegistrySound(st) && SessionsSound(st) && a !in st.agents
    ensures var st' := NextAgent(st, AgentConnects(a, name, setup)).value;
            RegistrySound(st') && SessionsSound(st') && Nearby(st, st', a, "")
  {
  }

  lemma ExitLinked(c: Session, p: Process, s: string)
    requires Linked(c, p, s)
    ensures Linked(c, p.(running := false), s)
  {
    LinkedGateway(c, p, p.(running := false), s);
  }

  lemma ExitOwned(p: Process)
    requires Owned(p)
    ensures Owned(p.(running := false))
  {
    OwnedGateway(p, p.(running := false));
  }

  lemma AgentExitsInv(st: State, a: nat)
    requires Inv(st) && NextAgent(st, AgentExits(a)).Some?
    ensures Inv(NextAgent(st, AgentExits(a)).value)
  {
    hide Linked, Owned;
    var st' := NextAgent(st, AgentExits(a)).value;
    var p, r := st.agents[a], st'.agents[a];
    assert Bound(st, a) && "" !in st.clients;
    forall s | s in st.clients && st.clients[s].agent == a ensures Linked(st.clients[s], r, s) {
      ExitLinked(st.clients[s], p, s);
    }
    ExitOwned(p);
    assert RegistrySound(st') && SessionsSound(st');
    assert Bound(st', a);
    NearbyInv(st, st', a, "");
  }

  lemma OwnedGateway(p: Process, r: Process)
    requires Owned(p)
    requires GatewaySide(p, r)
    requires r.routed <= |r.emitted|
    requires r.carrying.Some? ==> r.routed > 0 && r.carrying.value == r.emitted[r.routed - 1]
    ensures Owned(r)
  {
    OwnedFrame(p, r);
  }

  /** Looking up a packet's session: it is found unless the session was closed before. */
  lemma LookupLinked(st: State, c: Session, p: Process, s: string)
    requires Linked(c, p, s) && p.carrying.None? && p.routed < |p.emitted|
    requires !c.closed ==> s in st.sessions
    ensures Linked(c, RouteLookup(st, p), s)
  {
    SelectNext(p.emitted, p.routed, MsgFor(s));
    LinkedGateway(c, p, RouteLookup(st, p), s);
  }

  lemma OpenIsListed(st: State, s: string)
    requires Inv(st) && s in st.clients && !st.clients[s].closed
    ensures s in st.sessions
  {
    assert Linked(st.clients[s], st.agents[st.clients[s].agent], s);
  }

  lemma GatewayLooksUpInv(st: State, a: nat)
    requires Inv(st) && NextAgent(st, GatewayLooksUp(a)).Some?
    ensures Inv(NextAgent(st, GatewayLooksUp(a)).value)
  {
    hide Linked, Owned;
    var p := st.agents[a];
    var r := RouteLookup(st, p);
    forall s | s in st.clients && st.clients[s].agent == a ensures Linked(st.clients[s], r, s) {
      if !st.clients[s].closed {
        OpenIsListed(st, s);
      }
      LookupLinked(st, st.clients[s], p, s);
    }
    OwnedGateway(p, r);
    ReplaceAgent(st, a, r);
  }

  /** A packet's session is bound to the agent that sent it. */
  lemma SenderIsBound(st: State, a: nat, i: nat)
    requires Inv(st) && a in st.agents && i < |st.agents[a].emitted|
    ensures var s := SidOf(st.agents[a].emitted[i].pkt);
            s == "" || (s in st.clients && st.clients[s].agent == a)
  {
    var p := st.agents[a];
    assert MsgOwned(p, p.emitted[i]);
    assert Bound(st, a);
  }

  lemma DeliverOther(c: Session, p: Process, s: string)
    requires Linked(c, p, s) && p.carrying.Some? && SidOf(p.carrying.value.pkt) != s
    ensures Linked(c, p.(carrying := None), s)
  {
    LinkedGateway(c, p, p.(carrying := None), s);
  }

  lemma QuerySentGrows(c: Session, d: Session, s: string)
    requires c.kind.Querying? && c.consumed <= |c.delivered| && QuerySent(c, s)
    requires d.kind == c.kind && d.consumed == c.consumed && c.delivered <= d.delivered
    ensures QuerySent(d, s)
  {
    assert d.delivered[..d.consumed] == c.delivered[..c.consumed];
  }

  lemma DeliverOwn(c: Session, p: Process, s: string)
    requires Linked(c, p, s) && p.carrying.Some? && SidOf(p.carrying.value.pkt) == s
    ensures Linked(SendToClient(c, p.carrying.value), p.(carrying := None), s)
  {
    var m := p.carrying.value;
    var d, r := SendToClient(c, m), p.(carrying := None);
    assert Downlink(d, r, s);
    assert Lifecycle(d);
    if Direct(c) {
      TrackedGateway(p, r, s, c.kind.st.db, c.kind.st.query);
      QuerySentGrows(c, d, s);
    }
  }

  lemma DeliverLinks(st: State, a: nat)
    requires Inv(st) && a in st.agents && st.agents[a].carrying.Some?
    ensures var m, r := st.agents[a].carrying.value, st.agents[a].(carrying := None);
            var s := SidOf(m.pkt);
            && s in st.clients && st.clients[s].agent == a
            && Linked(SendToClient(st.clients[s], m), r, s)
            && Owned(r)
            && forall t :: t in st.clients && t != s && st.clients[t].agent == a ==> Linked(st.clients[t], r, t)
  {
    var p := st.agents[a];
    var s := SidOf(p.carrying.value.pkt);
    assert Owned(p) && Bound(st, a);
    SenderIsBound(st, a, p.routed - 1);
    DeliverOwn(st.clients[s], p, s);
    forall t | t in st.clients && t != s && st.clients[t].agent == a ensures Linked(st.clients[t], p.(carrying := None), t) {
      DeliverOther(st.clients[t], p, t);
    }
    OwnedGateway(p, p.(carrying := None));
  }

  lemma GatewayDeliversInv(st: State, a: nat)
    requires Inv(st) && NextAgent(st, GatewayDelivers(a)).Some?
    ensures Inv(NextAgent(st, GatewayDelivers(a)).value)
  {
    hide Linked, Owned;
    var st' := NextAgent(st, GatewayDelivers(a)).value;
    assert Bound(st, a);
    DeliverLinks(st, a);
    assert Bound(st', a);
    UpdatesInv(st, st', a, SidOf(st.agents[a].carrying.value.pkt));
  }

  // ---- Client streams at the gateway -----------------------------------------------------

  /** Nothing of a session that was never created is anywhere near an agent. */
  lemma UnseenAgent(p: Process, s: string)
    requires Owned(p)
    requires forall i :: 0 <= i < |p.arrivals| ==> SidOf(p.arrivals[i].pkt) != s
    ensures Select(p.arrivals, UpFor(s)) == [] && Select(p.arrivals[..p.taken], UpFor(s)) == []
    ensures Select(p.emitted, MsgFor(s)) == [] && Select(p.emitted[..p.routed], MsgFor(s)) == []
    ensures Select(p.runs, RunFor(s)) == []
    ensures !Seen(p, s)
  {
    SelectNone(p.arrivals, UpFor(s));
    SelectPrefix(p.arrivals, p.taken, UpFor(s));
    forall i | 0 <= i < |p.emitted| ensures SidOf(p.emitted[i].pkt) != s {
      assert MsgOwned(p, p.emitted[i]);
    }
    SelectNone(p.emitted, MsgFor(s));
    SelectPrefix(p.emitted, p.routed, MsgFor(s));
    SelectNone(p.runs, RunFor(s));
  }

  lemma UnseenTracked(p: Process, s: string, db: Protocol, query: string)
    requires Owned(p) && s != "" && (db.MySQL? || db.MongoDB?)
    requires forall i :: 0 <= i < |p.arrivals| ==> SidOf(p.arrivals[i].pkt) != s
    ensures Tracked(p, s, db, query)
  {
    UnseenAgent(p, s);
    forall i | 0 <= i < |p.tasks| ensures !Active(p, s, i) {
      assert TaskOwned(p, p.tasks[i]);
    }
    assert NoConnections(p, s) by {
      forall i | 0 <= i < |p.proxies| ensures p.proxies[i].proxy.key.sid != s {
        assert LiveOwned(p, p.proxies[i]);
      }
    }
    assert ViewOf(p, s) == View([], 0, [], [], []);
  }

  lemma NewSessionStreams(a: nat, p: Process, s: string, who: Newcomer)
    requires Owned(p) && (p.carrying.Some? ==> SidOf(p.carrying.value.pkt) != s)
    requires forall i :: 0 <= i < |p.arrivals| ==> SidOf(p.arrivals[i].pkt) != s
    ensures var c := NewSession(a, who); Lifecycle(c) && Uplink(c, p, s) && Downlink(c, p, s)
  {
    hide Select;
    UnseenAgent(p, s);
  }

  lemma NewSessionQuery(a: nat, s: string, who: Newcomer)
    ensures var c := NewSession(a, who);
            && c.consumed <= |c.delivered|
            && (Direct(c) ==> who.Queries? && c.kind.st.db == who.db && c.kind.st.query == who.query && QuerySent(c, s))
            && (c.kind.Querying? ==> UpPackets(c.sent) == c.kind.st.sent)
  {
  }

  lemma NewSessionLinked(a: nat, p: Process, s: string, who: Newcomer)
    requires Owned(p) && s != "" && (p.carrying.Some? ==> SidOf(p.carrying.value.pkt) != s)
    requires forall i :: 0 <= i < |p.arrivals| ==> SidOf(p.arrivals[i].pkt) != s
    ensures Linked(NewSession(a, who), p, s)
  {
    hide Owned, Tracked, NewSession, Lifecycle, Uplink, Downlink, QuerySent, UpPackets;
    var c := NewSession(a, who);
    NewSessionStreams(a, p, s, who);
    NewSessionQuery(a, s, who);
    if Direct(c) {
      UnseenTracked(p, s, who.db, who.query);
    }
  }

  lemma ConnectSound(st: State, l: Label)
    requires RegistrySound(st) && SessionsSound(st) && AgentsBound(st) && l.ClientConnects? && NextClient(st, l).Some?
    ensures var st' := NextClient(st, l).value;
            && RegistrySound(st') && SessionsSound(st')
            && st'.clients[l.s].agent in st.agents && Bound(st', st'.clients[l.s].agent)
  {
    assert Bound(st, NextClient(st, l).value.clients[l.s].agent);
  }

  lemma ClientConnectsInv(st: State, l: Label)
    requires Inv(st) && l.ClientConnects? && NextClient(st, l).Some?
    ensures Inv(NextClient(st, l).value)
  {
    hide Linked, Owned;
    var st' := NextClient(st, l).value;
    var a := st'.clients[l.s].agent;
    assert a in st.agents && Bound(st, a) && Owned(st.agents[a]);
    NewSessionLinked(a, st.agents[a], l.s, l.who);
    ConnectSound(st, l);
    assert Nearby(st, st', a, l.s);
    NearbyInv(st, st', a, l.s);
  }

  /** A change of one session that its agent does not see. */
  lemma ReplaceSession(st: State, st': State, s: string)
    requires Inv(st) && s in st.clients && s in st'.clients
    requires st' == st.(clients := st.clients[s := st'.clients[s]], sessions := st'.sessions)
    requires st'.clients[s].agent == st.clients[s].agent
    requires s in st'.sessions <==> !st'.clients[s].phase.Gone?
    requires st'.sessions == st.sessions || st'.sessions == st.sessions - {s}
    requires Linked(st'.clients[s], st.agents[st.clients[s].agent], s)
    ensures Inv(st')
  {
    hide Linked, Owned;
    var a := st.clients[s].agent;
    assert Bound(st, a);
    assert st.agents[a := st.agents[a]] == st.agents;
    assert Bound(st', a);
    UpdatesInv(st, st', a, s);
  }

  lemma HandlerLinked(c: Session, p: Process, s: string)
    requires Linked(c, p, s)
    ensures c.phase.Serving? ==> Linked(c.(phase := Leaving), p, s)
    ensures c.phase.Leaving? ==> Linked(CloseSession(c).(phase := Shut), p, s)
    ensures c.phase.Shut? ==> Linked(c.(phase := Gone), p, s)
  {
    if Direct(c) {
      QuerySentGrows(c, c.(phase := Leaving), s);
      QuerySentGrows(c, CloseSession(c).(phase := Shut), s);
      QuerySentGrows(c, c.(phase := Gone), s);
    }
  }

  lemma HandlerInv(st: State, l: Label)
    requires Inv(st) && (l.HandlerLeaves? || l.HandlerCloses? || l.HandlerDeletes?) && NextClient(st, l).Some?
    ensures Inv(NextClient(st, l).value)
  {
    hide Linked, Owned;
    var c := st.clients[l.s];
    assert Linked(c, st.agents[c.agent], l.s);
    HandlerLinked(c, st.agents[c.agent], l.s);
    ReplaceSession(st, NextClient(st, l).value, l.s);
  }

  lemma StreamEndLinked(c: Session, p: Process, s: string, status: Status)
    requires Linked(c, p, s) && c.kind.Querying? && c.kind.st.status == Running
    requires status == Failed || status == Returned(false)
    ensures Linked(c.(kind := Querying(c.kind.st.(status := status))), p, s)
  {
  }

  lemma BreakLinked(c: Session, p: Process, s: string)
    requires Linked(c, p, s)
    ensures Linked(c.(broken := true), p, s)
  {
    if Direct(c) {
      QuerySentGrows(c, c.(broken := true), s);
    }
  }

  lemma ClientStreamBreaksInv(st: State, l: Label)
    requires Inv(st) && l.ClientStreamBreaks? && NextClient(st, l).Some?
    ensures Inv(NextClient(st, l).value)
  {
    hide Linked, Owned;
    var c := st.clients[l.s];
    assert Linked(c, st.agents[c.agent], l.s);
    BreakLinked(c, st.agents[c.agent], l.s);
    ReplaceSession(st, NextClient(st, l).value, l.s);
  }

  lemma ClientStreamEndsInv(st: State, l: Label)
    requires Inv(st) && l.ClientStreamEnds? && NextClient(st, l).Some?
    ensures Inv(NextClient(st, l).value)
  {
    hide Linked, Owned;
    var c := st.clients[l.s];
    assert Linked(c, st.agents[c.agent], l.s);
    StreamEndLinked(c, st.agents[c.agent], l.s, if l.eof then Returned(false) else Failed);
    ReplaceSession(st, NextClient(st, l).value, l.s);
  }

  // ---- What the client sends and reads ---------------------------------------------------

  /** A session whose client has read SessionOpenOK has its parameters stored at the agent. */
  lemma OkMeansParams(c: Session, p: Process, s: string, i: nat)
    requires Owned(p) && Linked(c, p, s)
    requires i < |c.delivered| && c.delivered[i].pkt.typ == SessionOpenOK
    ensures ParamsKey(s) in p.store
  {
    var out := Select(p.emitted[..p.routed], MsgFor(s));
    SelectAll(p.emitted[..p.routed], MsgFor(s));
    assert c.delivered[i] == out[i];
    assert out[i] in p.emitted[..p.routed];
    var j :| 0 <= j < p.routed && p.emitted[..p.routed][j] == out[i];
    assert MsgOwned(p, p.emitted[j]);
  }

  lemma SendLinked(c: Session, p: Process, s: string, pkt: Packet)
    requires Owned(p) && Linked(c, p, s) && c.kind == Arbitrary
    ensures Linked(c.(sent := c.sent + [Up(pkt, OkRead(c))]), p, s)
  {
    var d := c.(sent := c.sent + [Up(pkt, OkRead(c))]);
    assert d.sent[..d.forwarded] == c.sent[..c.forwarded];
    if OkRead(c) {
      var i :| 0 <= i < c.consumed && i < |c.delivered| && c.delivered[i].pkt.typ == SessionOpenOK;
      OkMeansParams(c, p, s, i);
    }
  }

  lemma ClientSendsInv(st: State, l: Label)
    requires Inv(st) && l.ClientSends? && NextClient(st, l).Some?
    ensures Inv(NextClient(st, l).value)
  {
    hide Linked, Owned;
    var c := st.clients[l.s];
    assert Linked(c, st.agents[c.agent], l.s) && Owned(st.agents[c.agent]);
    SendLinked(c, st.agents[c.agent], l.s, l.pkt);
    ReplaceSession(st, NextClient(st, l).value, l.s);
  }

  /** An arrival for session `s` as another session `t` sees it. */
  lemma ArrivalOther(p: Process, u: Up, t: string, db: Protocol, query: string)
    requires Tracked(p, t, db, query) && SidOf(u.pkt) != t
    requires forall i :: 0 <= i < |p.tasks| ==> p.tasks[i].cause < |p.arrivals|
    ensures Tracked(p.(arrivals := p.arrivals + [u]), t, db, query)
  {
    var r := p.(arrivals := p.arrivals + [u]);
    SelectSnoc(p.arrivals, u, UpFor(t));
    assert r.arrivals[..r.taken] == p.arrivals[..p.taken];
    RestFrame(p, r, t);
    assert ViewOf(r, t) == ViewOf(p, t);
  }

  /** An arrival as its own session sees it. */
  lemma ArrivalOwn(p: Process, u: Up, s: string, db: Protocol, query: string)
    requires Tracked(p, s, db, query) && SidOf(u.pkt) == s
    requires forall i :: 0 <= i < |p.tasks| ==> p.tasks[i].cause < |p.arrivals|
    requires var v := ViewOf(p, s); Asked(v.(asked := v.asked + [u.pkt]), s, db, query)
    ensures Tracked(p.(arrivals := p.arrivals + [u]), s, db, query)
  {
    var r := p.(arrivals := p.arrivals + [u]);
    SelectSnoc(p.arrivals, u, UpFor(s));
    assert r.arrivals[..r.taken] == p.arrivals[..p.taken];
    RestFrame(p, r, s);
    var v := ViewOf(p, s);
    assert UpPackets(Select(p.arrivals, UpFor(s)) + [u]) == v.asked + [u.pkt];
    assert ViewOf(r, s) == v.(asked := v.asked + [u.pkt]);
  }

  /** What is owned stays so when a packet arrives. */
  lemma ArrivalFrame(p: Process, r: Process)
    requires p.taken <= |p.arrivals| && p.arrivals <= r.arrivals && r.taken == p.taken && r.store == p.store
    ensures forall t :: TaskOwned(p, t) ==> TaskOwned(r, t)
    ensures forall v :: LiveOwned(p, v) ==> LiveOwned(r, v)
    ensures forall m :: MsgOwned(p, m) ==> MsgOwned(r, m)
    ensures forall s :: Seen(p, s) ==> Seen(r, s)
  {
  }

  lemma ArrivalOwned(p: Process, u: Up)
    requires Owned(p) && (u.afterOk ==> ParamsKey(SidOf(u.pkt)) in p.store)
    ensures Owned(p.(arrivals := p.arrivals + [u]))
  {
    hide TaskOwned, LiveOwned, MsgOwned, Seen, StoreOwned;
    ArrivalFrame(p, p.(arrivals := p.arrivals + [u]));
  }

  /** What was delivered is the beginning of what the agent sent for the session. */
  lemma DeliveredIsSent(c: Session, p: Process, s: string)
    requires Linked(c, p, s) && p.taken <= |p.arrivals|
    ensures PacketsOf(c.delivered) <= ViewOf(p, s).sent
    ensures c.delivered <= Select(p.emitted, MsgFor(s))
  {
    var out := Select(p.emitted[..p.routed], MsgFor(s));
    SelectPrefix(p.emitted, p.routed, MsgFor(s));
    assert c.delivered <= out;
  }

  /** The next packet of an `executeQuery` session is the one its script expects. */
  lemma ForwardAsked(c: Session, p: Process, s: string)
    requires Linked(c, p, s) && Direct(c) && c.forwarded < |c.sent| && p.taken <= |p.arrivals|
    ensures var v := ViewOf(p, s);
            Asked(v.(asked := v.asked + [Stamp(c.sent[c.forwarded].pkt, s)]), s, c.kind.st.db, c.kind.st.query)
  {
    DeliveredIsSent(c, p, s);
    var v := ViewOf(p, s);
    assert |v.asked| == c.forwarded;
    assert c.kind.st.sent[c.forwarded] == c.sent[c.forwarded].pkt;
    if c.forwarded == 1 {
      assert v.sent[0] == PacketsOf(c.delivered)[0];
    }
  }

  lemma ForwardUplink(c: Session, p: Process, s: string)
    requires Uplink(c, p, s) && c.forwarded < |c.sent|
    ensures Uplink(c.(forwarded := c.forwarded + 1), ForwardTo(p, c.sent[c.forwarded], s), s)
  {
    var u := Up(Stamp(c.sent[c.forwarded].pkt, s), c.sent[c.forwarded].afterOk);
    SelectSnoc(p.arrivals, u, UpFor(s));
    assert StampAll(c.sent[..c.forwarded + 1], s) == StampAll(c.sent[..c.forwarded], s) + [u];
  }

  lemma ForwardOwn(c: Session, p: Process, s: string)
    requires Owned(p) && Linked(c, p, s) && c.forwarded < |c.sent|
    ensures Linked(c.(forwarded := c.forwarded + 1), ForwardTo(p, c.sent[c.forwarded], s), s)
  {
    ForwardUplink(c, p, s);
    TasksCaused(p);
    if Direct(c) {
      ForwardAsked(c, p, s);
      ForwardTracked(c, p, s);
    }
  }

  lemma ForwardTracked(c: Session, p: Process, s: string)
    requires Direct(c) && c.forwarded < |c.sent| && c.consumed <= |c.delivered| && QuerySent(c, s)
    requires Tracked(p, s, c.kind.st.db, c.kind.st.query)
    requires forall i :: 0 <= i < |p.tasks| ==> p.tasks[i].cause < |p.arrivals|
    requires var v := ViewOf(p, s);
             Asked(v.(asked := v.asked + [Stamp(c.sent[c.forwarded].pkt, s)]), s, c.kind.st.db, c.kind.st.query)
    ensures Tracked(ForwardTo(p, c.sent[c.forwarded], s), s, c.kind.st.db, c.kind.st.query)
    ensures QuerySent(c.(forwarded := c.forwarded + 1), s)
  {
    ArrivalOwn(p, Up(Stamp(c.sent[c.forwarded].pkt, s), c.sent[c.forwarded].afterOk), s, c.kind.st.db, c.kind.st.query);
    QuerySentGrows(c, c.(forwarded := c.forwarded + 1), s);
  }

  lemma ForwardOwned(c: Session, p: Process, s: string)
    requires Owned(p) && Uplink(c, p, s) && c.forwarded < |c.sent|
    ensures Owned(ForwardTo(p, c.sent[c.forwarded], s))
  {
    ArrivalOwned(p, Up(Stamp(c.sent[c.forwarded].pkt, s), c.sent[c.forwarded].afterOk));
  }

  lemma TasksCaused(p: Process)
    requires Owned(p)
    ensures forall i :: 0 <= i < |p.tasks| ==> p.tasks[i].cause < |p.arrivals|
  {
    forall i | 0 <= i < |p.tasks| ensures p.tasks[i].cause < |p.arrivals| {
      assert TaskOwned(p, p.tasks[i]);
    }
  }

  lemma ForwardOther(c: Session, p: Process, u: Up, s: string, t: string)
    requires Owned(p) && Linked(c, p, t) && s != t
    ensures Linked(c, ForwardTo(p, u, s), t)
  {
    SelectSnoc(p.arrivals, Up(Stamp(u.pkt, s), u.afterOk), UpFor(t));
    if Direct(c) {
      TasksCaused(p);
      ArrivalOther(p, Up(Stamp(u.pkt, s), u.afterOk), t, c.kind.st.db, c.kind.st.query);
    }
  }

  lemma UplinkOf(c: Session, p: Process, s: string)
    requires Linked(c, p, s)
    ensures Uplink(c, p, s)
  {
  }

  lemma GatewayForwardsInv(st: State, l: Label)
    requires Inv(st) && l.GatewayForwards? && NextClient(st, l).Some?
    ensures Inv(NextClient(st, l).value)
  {
    hide Linked, Owned;
    var st' := NextClient(st, l).value;
    var s := l.s;
    var c := st.clients[s];
    var a := c.agent;
    var u := c.sent[c.forwarded];
    assert Bound(st, a) && Owned(st.agents[a]) && Linked(c, st.agents[a], s);
    ForwardOwn(c, st.agents[a], s);
    UplinkOf(c, st.agents[a], s);
    ForwardOwned(c, st.agents[a], s);
    forall t | t in st.clients && t != s && st.clients[t].agent == a ensures Linked(st.clients[t], st'.agents[a], t) {
      ForwardOther(st.clients[t], st.agents[a], u, s, t);
    }
    assert Bound(st', a);
    UpdatesInv(st, st', a, s);
  }

  lemma ScriptOkFirst(v: View, n: nat, s: string, db: Protocol, query: string, open: Packet)
    requires ScriptFits(v, s, db, query) && Supported(db)
    requires var xs := v.sent + v.rest;
             && n < |xs| && xs[n].typ == SessionOpenOK
             && Feed(Begin(db, query, open), xs[..n]).status == Running
    ensures n == 0
  {
    FeedSnoc(Begin(db, query, open), [], (v.sent + v.rest)[0]);
  }

  /** SessionOpenOK reaches a waiting `executeQuery` only as its very first packet. */
  lemma OkComesFirst(c: Session, p: Process, s: string)
    requires Owned(p) && Linked(c, p, s) && Direct(c) && c.kind.st.status == Running
    requires c.consumed < |c.delivered| && c.delivered[c.consumed].pkt.typ == SessionOpenOK
    ensures c.consumed == 0
  {
    hide Owned, Lifecycle, Uplink, Asked, ScriptFits, NoConnections, Solo, UpPackets;
    DeliveredIsSent(c, p, s);
    var st, v := c.kind.st, ViewOf(p, s);
    var got := PacketsOf(c.delivered);
    assert PacketsOf(c.delivered[..c.consumed]) == got[..c.consumed] == (v.sent + v.rest)[..c.consumed];
    ScriptOkFirst(v, c.consumed, s, st.db, st.query, st.sent[0]);
  }

  /** Reading SessionOpenOK first, the client sends its query. */
  lemma FirstOk(st: QueryState, pkt: Packet, s: string)
    requires pkt.typ == SessionOpenOK && Supported(st.db) && |st.sent| >= 1
    requires st == Begin(st.db, st.query, st.sent[0])
    ensures var next := OnPacket(st, pkt);
            && next.sent == [st.sent[0], QueryPacket(st.db, SidOf(pkt), st.query)]
            && Stamp(next.sent[1], s) == Stamp(QueryPacket(st.db, s, st.query), s)
  {
  }

  lemma ReceiveQuery(c: Session, p: Process, s: string)
    requires Owned(p) && Linked(c, p, s) && Direct(c)
    requires c.kind.st.status == Running && c.consumed < |c.delivered|
    ensures QuerySent(Receive(c), s)
  {
    var pkt := c.delivered[c.consumed].pkt;
    if pkt.typ == SessionOpenOK {
      OkComesFirst(c, p, s);
      assert PacketsOf(c.delivered[..c.consumed]) == [];
      FirstOk(c.kind.st, pkt, s);
    }
    ReceiveFed(c, s);
  }

  lemma ReceiveFed(c: Session, s: string)
    requires Direct(c) && c.consumed < |c.delivered| && QuerySent(c, s)
    requires c.kind.st.status == Running
    requires var pkt := c.delivered[c.consumed].pkt;
             pkt.typ == SessionOpenOK ==>
               && c.consumed == 0
               && OnPacket(c.kind.st, pkt).sent == [c.kind.st.sent[0], QueryPacket(c.kind.st.db, SidOf(pkt), c.kind.st.query)]
               && Stamp(OnPacket(c.kind.st, pkt).sent[1], s) == Stamp(QueryPacket(c.kind.st.db, s, c.kind.st.query), s)
    ensures QuerySent(Receive(c), s)
  {
    var st := c.kind.st;
    var pkt := c.delivered[c.consumed].pkt;
    var before, after := PacketsOf(c.delivered[..c.consumed]), PacketsOf(c.delivered[..c.consumed + 1]);
    assert after == before + [pkt];
    FeedSnoc(Begin(st.db, st.query, st.sent[0]), before, pkt);
  }

  lemma ReceiveLinked(c: Session, p: Process, s: string)
    requires Owned(p) && Linked(c, p, s) && c.consumed < |c.delivered|
    requires c.kind.Querying? ==> c.kind.st.status == Running
    ensures Linked(Receive(c), p, s)
  {
    hide Owned, Tracked, QuerySent;
    var d := Receive(c);
    assert d.sent[..d.forwarded] == c.sent[..c.forwarded];
    if c.kind.Querying? {
      if c.delivered[c.consumed].pkt.typ == SessionOpenOK {
        OkMeansParams(c, p, s, c.consumed);
        assert UpPackets(d.sent) == d.kind.st.sent;
      }
      if Direct(c) {
        ReceiveQuery(c, p, s);
      }
    }
  }

  lemma ClientReceivesInv(st: State, l: Label)
    requires Inv(st) && l.ClientReceives? && NextClient(st, l).Some?
    ensures Inv(NextClient(st, l).value)
  {
    hide Linked, Owned;
    var c := st.clients[l.s];
    assert Linked(c, st.agents[c.agent], l.s) && Owned(st.agents[c.agent]);
    ReceiveLinked(c, st.agents[c.agent], l.s);
    ReplaceSession(st, NextClient(st, l).value, l.s);
  }

  // ---- Every run -------------------------------------------------------------------------

  lemma NextInv(st: State, l: Label)
    requires Inv(st) && Next(st, l).Some?
    ensures Inv(Next(st, l).value)
  {
    hide Inv;
    match l
    case AgentConnects(a, name, setup) => AgentConnectsInv(st, a, name, setup);
    case AgentExits(a) => AgentExitsInv(st, a);
    case AgentActs(a, step) => AgentActsInv(st, a, step, Step(st.agents[a], step).value);
    case GatewayLooksUp(a) => GatewayLooksUpInv(st, a);
    case GatewayDelivers(a) => GatewayDeliversInv(st, a);
    case ClientConnects(_, _, _, _) => ClientConnectsInv(st, l);
    case GatewayForwards(_) => GatewayForwardsInv(st, l);
    case HandlerLeaves(_) => HandlerInv(st, l);
    case HandlerCloses(_) => HandlerInv(st, l);
    case HandlerDeletes(_) => HandlerInv(st, l);
    case ClientSends(_, _) => ClientSendsInv(st, l);
    case ClientReceives(_) => ClientReceivesInv(st, l);
    case ClientStreamEnds(_, _) => ClientStreamEndsInv(st, l);
    case ClientStreamBreaks(_) => ClientStreamBreaksInv(st, l);
  }

  /** The invariant holds after every run. */
  lemma {:induction false} RunInv(ls: seq<Label>)
    requires Run(ls).Some?
    ensures Inv(Run(ls).value)
  {
    if ls != [] {
      RunInv(ls[..|ls| - 1]);
      NextInv(Run(ls[..|ls| - 1]).value, ls[|ls| - 1]);
    }
  }
}
