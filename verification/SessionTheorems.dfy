/**
  What the session protocol guarantees, over every run: any number of clients, agents and
  goroutines, in every interleaving.
 */
module SessionTheorems {
  import opened Selection
  import opened Decimal
  import opened Wire
  import opened ConnKeys
  import opened SessionSetup
  import opened AgentHandlers
  import opened AgentProcess
  import opened QueryClient
  import opened QueryTracking
  import opened SessionProtocol
  import opened ProtocolInvariant

  // ---- End to end ------------------------------------------------------------------------

  lemma InternalCode()
    ensures Scan(INTERNAL_EXIT_CODE) == Some(254)
  {
    assert NatToText(2) == "2" && NatToText(25) == "25";
    assert ToText(254) == "254";
    ScanToText(254);
  }

  /** The automaton over the first packets of a sequence. */
  lemma FeedUnrolled(st: QueryState, xs: seq<Packet>)
    ensures Feed(st, []) == st
    ensures |xs| >= 1 ==> Feed(st, xs[..1]) == OnPacket(st, xs[0])
    ensures |xs| >= 2 ==> Feed(st, xs[..2]) == OnPacket(OnPacket(st, xs[0]), xs[1])
    ensures |xs| >= 3 ==> Feed(st, xs[..3]) == OnPacket(OnPacket(OnPacket(st, xs[0]), xs[1]), xs[2])
  {
    if |xs| >= 1 {
      assert xs[..1] == [] + [xs[0]];
      FeedSnoc(st, [], xs[0]);
    }
    if |xs| >= 2 {
      assert xs[..2] == xs[..1] + [xs[1]];
      FeedSnoc(st, xs[..1], xs[1]);
    }
    if |xs| >= 3 {
      assert xs[..3] == xs[..2] + [xs[2]];
      FeedSnoc(st, xs[..2], xs[2]);
    }
  }

  /** An `executeQuery` result is faithful to `runs`, the commands run for its session. */
  predicate Faithful(st: QueryState, runs: seq<Execution>, s: string) {
    if |runs| == 1 then
      && runs[0].sid == s && runs[0].db == st.db && runs[0].query == st.query
      && st.results == runs[0].output && st.exitCode == runs[0].code
    else runs == [] && st.results == "" && st.exitCode == 254
  }

  lemma OpenOutcome(xs: seq<Packet>, n: nat, s: string, begin: QueryState)
    requires OpenScript(xs) && n <= |xs|
    requires begin.status == Running && begin.results == ""
    requires Feed(begin, xs[..n]).status == Returned(true)
    ensures Faithful(Feed(begin, xs[..n]), [], s)
  {
    InternalCode();
    FeedUnrolled(begin, xs);
    assert xs[..0] == [];
  }

  lemma QueryOutcome(xs: seq<Packet>, n: nat, runs: seq<Execution>, s: string, begin: QueryState)
    requires QueryScript(xs, runs, s, begin.db, begin.query) && n <= |xs|
    requires begin.status == Running && begin.results == ""
    requires Feed(begin, xs[..n]).status == Returned(true)
    ensures Faithful(Feed(begin, xs[..n]), runs, s)
  {
    InternalCode();
    FeedUnrolled(begin, xs);
    assert xs[..0] == [];
    if |runs| == 1 {
      ScanToText(runs[0].code);
      assert xs[1..][0] == xs[1];
    }
  }

  lemma ScriptOutcome(v: View, n: nat, s: string, begin: QueryState)
    requires ScriptFits(v, s, begin.db, begin.query) && n <= |v.sent + v.rest|
    requires begin.status == Running && begin.results == ""
    requires Feed(begin, (v.sent + v.rest)[..n]).status == Returned(true)
    ensures Faithful(Feed(begin, (v.sent + v.rest)[..n]), v.runs, s)
  {
    var xs := v.sent + v.rest;
    if v.taken == 1 {
      OpenOutcome(xs, n, s, begin);
    } else if v.taken > 1 {
      QueryOutcome(xs, n, v.runs, s, begin);
    }
  }

  lemma ReturnedFaithful(c: Session, p: Process, s: string)
    requires Owned(p) && Linked(c, p, s) && Direct(c) && c.kind.st.status == Returned(true)
    ensures Faithful(c.kind.st, Select(p.runs, RunFor(s)), s)
  {
    hide Owned, Lifecycle, Uplink, Asked, ScriptFits, NoConnections, Solo, Faithful;
    DeliveredIsSent(c, p, s);
    var st, v := c.kind.st, ViewOf(p, s);
    var got := PacketsOf(c.delivered);
    assert PacketsOf(c.delivered[..c.consumed]) == got[..c.consumed] == (v.sent + v.rest)[..c.consumed];
    ScriptOutcome(v, c.consumed, s, Begin(st.db, st.query, st.sent[0]));
  }

  lemma OtherAgentsIdle(st: State, s: string, b: nat)
    requires Inv(st) && s in st.clients && b in st.agents && b != st.clients[s].agent
    ensures Select(st.agents[b].arrivals, UpFor(s)) == [] && Select(st.agents[b].runs, RunFor(s)) == []
  {
    assert Bound(st, b) && Owned(st.agents[b]);
    UnseenAgent(st.agents[b], s);
  }

  /** Whenever a mysql or mongodb `executeQuery` returns through SessionClose, either no command
      ran for its session and the exit code is 254, or exactly one did: on the agent the session
      is bound to, for exactly this query, with this exit code and this output in full. */
  lemma QueryEndToEnd(ls: seq<Label>, s: string)
    requires Run(ls).Some? && s in Run(ls).value.clients
    requires Direct(Run(ls).value.clients[s]) && Run(ls).value.clients[s].kind.st.status == Returned(true)
    ensures var st := Run(ls).value;
            var c := st.clients[s];
            && c.agent in st.agents
            && Faithful(c.kind.st, Select(st.agents[c.agent].runs, RunFor(s)), s)
            && (forall b :: b in st.agents && b != c.agent ==> Select(st.agents[b].runs, RunFor(s)) == [])
  {
    RunInv(ls);
    var st := Run(ls).value;
    var c := st.clients[s];
    ReturnedFaithful(c, st.agents[c.agent], s);
    forall b | b in st.agents && b != c.agent ensures Select(st.agents[b].runs, RunFor(s)) == [] {
      OtherAgentsIdle(st, s, b);
    }
  }

  /** In particular, exit code 0 means the query ran and `results` is its whole output. */
  lemma ExitZeroMeansRan(ls: seq<Label>, s: string)
    requires Run(ls).Some? && s in Run(ls).value.clients
    requires Direct(Run(ls).value.clients[s]) && Run(ls).value.clients[s].kind.st.status == Returned(true)
    requires Run(ls).value.clients[s].kind.st.exitCode == 0
    ensures var st := Run(ls).value;
            var c := st.clients[s];
            && c.agent in st.agents
            && var runs := Select(st.agents[c.agent].runs, RunFor(s));
               |runs| == 1 && runs[0].query == c.kind.st.query && runs[0].code == 0 && runs[0].output == c.kind.st.results
  {
    QueryEndToEnd(ls, s);
  }

  // ---- Isolation and order ---------------------------------------------------------------

  /** Every packet delivered to a client was caused by a packet that same client sent: it comes
      from the agent the session is bound to, and from a handler of, or a writer created for, a
      packet that is one of this client's with only its session id overwritten. */
  lemma SessionIsolation(ls: seq<Label>, s: string, i: nat)
    requires Run(ls).Some? && s in Run(ls).value.clients && i < |Run(ls).value.clients[s].delivered|
    ensures var st := Run(ls).value;
            var c := st.clients[s];
            var m := c.delivered[i];
            && SidOf(m.pkt) == s
            && c.agent in st.agents && m in st.agents[c.agent].emitted
            && m.cause < st.agents[c.agent].taken <= |st.agents[c.agent].arrivals|
            && exists j :: 0 <= j < |c.sent| && Stamp(c.sent[j].pkt, s) == st.agents[c.agent].arrivals[m.cause].pkt
  {
    hide Owned, Linked, Select;
    RunInv(ls);
    var st := Run(ls).value;
    var c := st.clients[s];
    assert Linked(c, st.agents[c.agent], s) && Owned(st.agents[c.agent]);
    IsolatedAt(c, st.agents[c.agent], s, i);
  }

  lemma IsolatedAt(c: Session, p: Process, s: string, i: nat)
    requires Linked(c, p, s) && Owned(p) && i < |c.delivered|
    ensures var m := c.delivered[i];
            && SidOf(m.pkt) == s && m in p.emitted && m.cause < p.taken <= |p.arrivals|
            && exists j :: 0 <= j < |c.sent| && Stamp(c.sent[j].pkt, s) == p.arrivals[m.cause].pkt
  {
    hide Tracked, QuerySent, Lifecycle, UpPackets, StampAll;
    var m := c.delivered[i];
    DeliveredIsSent(c, p, s);
    SelectAll(p.emitted, MsgFor(s));
    assert m == Select(p.emitted, MsgFor(s))[i];
    var k :| 0 <= k < |p.emitted| && p.emitted[k] == m;
    assert MsgOwned(p, p.emitted[k]);
    CauseIsOwn(c, p, s, m.cause);
  }

  lemma CauseIsOwn(c: Session, p: Process, s: string, cause: nat)
    requires Uplink(c, p, s) && cause < |p.arrivals| && SidOf(p.arrivals[cause].pkt) == s
    ensures exists j :: 0 <= j < |c.sent| && Stamp(c.sent[j].pkt, s) == p.arrivals[cause].pkt
  {
    SelectAll(p.arrivals, UpFor(s));
    var u := p.arrivals[cause];
    assert u in Select(p.arrivals, UpFor(s));
    var stamped := StampAll(c.sent[..c.forwarded], s);
    var j :| 0 <= j < |stamped| && stamped[j] == u;
    assert Stamp(c.sent[j].pkt, s) == u.pkt;
  }

  lemma TakenPrefix(c: Session, p: Process, s: string)
    requires Uplink(c, p, s) && p.taken <= |p.arrivals|
    ensures Select(p.arrivals[..p.taken], UpFor(s)) <= StampAll(c.sent, s)
  {
    SelectPrefix(p.arrivals, p.taken, UpFor(s));
    assert StampAll(c.sent[..c.forwarded], s) <= StampAll(c.sent, s);
  }

  /** Uplink conservation: the packets the session's agent has taken under session `s` are, in
      order and without loss or duplication, a beginning of what its client sent, each changed
      only at the session id; no other agent ever gets one. */
  lemma UplinkFifo(ls: seq<Label>, s: string)
    requires Run(ls).Some? && s in Run(ls).value.clients
    ensures var st := Run(ls).value;
            var c := st.clients[s];
            && c.agent in st.agents && st.agents[c.agent].taken <= |st.agents[c.agent].arrivals|
            && Select(st.agents[c.agent].arrivals[..st.agents[c.agent].taken], UpFor(s)) <= StampAll(c.sent, s)
            && forall b :: b in st.agents && b != c.agent ==> Select(st.agents[b].arrivals, UpFor(s)) == []
  {
    hide Select, Tracked, QuerySent, Downlink, Lifecycle, UpPackets;
    RunInv(ls);
    var st := Run(ls).value;
    var c := st.clients[s];
    var p := st.agents[c.agent];
    assert Linked(c, p, s) && Owned(p);
    TakenPrefix(c, p, s);
    forall b | b in st.agents && b != c.agent ensures Select(st.agents[b].arrivals, UpFor(s)) == [] {
      OtherAgentsIdle(st, s, b);
    }
  }

  /** Downlink conservation: what was delivered to a client is a beginning of what its agent sent
      for its session, and as long as the session is open and its stream unbroken nothing routed so
      far is missing. */
  lemma DownlinkFifo(ls: seq<Label>, s: string)
    requires Run(ls).Some? && s in Run(ls).value.clients
    ensures var st := Run(ls).value;
            var c := st.clients[s];
            && c.agent in st.agents && st.agents[c.agent].routed <= |st.agents[c.agent].emitted|
            && var p := st.agents[c.agent];
               && c.delivered <= Select(p.emitted, MsgFor(s))
               && (!c.closed && !c.broken && p.carrying.None? ==> c.delivered == Select(p.emitted[..p.routed], MsgFor(s)))
  {
    RunInv(ls);
    var st := Run(ls).value;
    var c := st.clients[s];
    assert Linked(c, st.agents[c.agent], s) && Owned(st.agents[c.agent]);
    DeliveredIsSent(c, st.agents[c.agent], s);
  }

  // ---- Close -----------------------------------------------------------------------------

  /** In every interleaving, including an agent handler that looked the session up before it was
      deleted: nothing is sent on a client stream after its context was cancelled, which happens
      at most once, exactly when the session is closed. */
  lemma NoDeliveryAfterClose(ls: seq<Label>, s: string)
    requires Run(ls).Some? && s in Run(ls).value.clients
    ensures var c := Run(ls).value.clients[s];
            && (forall i :: 0 <= i < |c.events| - 1 ==> c.events[i].Delivered?)
            && c.cancels == (if c.closed then 1 else 0)
            && (c.closed <==> c.events != [] && c.events[|c.events| - 1].Cancelled?)
            && (s !in Run(ls).value.sessions ==> c.closed)
  {
    RunInv(ls);
    var st := Run(ls).value;
    assert Linked(st.clients[s], st.agents[st.clients[s].agent], s);
  }

  // ---- Parameters ------------------------------------------------------------------------

  /** In every reachable agent state a stored connection, exec or terminal entry has parameters
      stored for its session, SessionOpenOK was sent only with parameters in place, and a handler
      finds no parameters only for packets sent before their client had read SessionOpenOK. */
  lemma ParamsBeforeUse(ls: seq<Label>, a: nat)
    requires Run(ls).Some? && a in Run(ls).value.agents
    ensures var p := Run(ls).value.agents[a];
            && (forall k :: k in p.store && !k.ParamsKey? ==> HasParams(p.store, k.sid))
            && (forall i :: 0 <= i < |p.emitted| && p.emitted[i].pkt.typ == SessionOpenOK ==>
                  HasParams(p.store, SidOf(p.emitted[i].pkt)))
            && (forall n :: n in p.missed ==> n < |p.arrivals| && !p.arrivals[n].afterOk)
  {
    RunInv(ls);
    var p := Run(ls).value.agents[a];
    assert Owned(p);
    forall i | 0 <= i < |p.emitted| && p.emitted[i].pkt.typ == SessionOpenOK
      ensures HasParams(p.store, SidOf(p.emitted[i].pkt))
    {
      assert MsgOwned(p, p.emitted[i]);
    }
  }

  // ---- Registry --------------------------------------------------------------------------

  /** The registry lists every running agent stream. */
  predicate RegistryComplete(st: State) {
    forall a :: a in st.agents && st.agents[a].running ==>
      st.agents[a].name in st.registry && st.registry[st.agents[a].name] == a
  }

  /** No two running streams share an agent id. */
  predicate NoOverlap(st: State) {
    forall a, b |
      a in st.agents && b in st.agents && st.agents[a].running && st.agents[b].running && st.agents[a].name == st.agents[b].name
      :: a == b
  }

  lemma StepKeepsName(p: Process, l: AgentStep)
    requires Step(p, l).Some?
    ensures Step(p, l).value.name == p.name && Step(p, l).value.running == p.running
  {
  }

  lemma CompleteStep(st: State, l: Label)
    requires Next(st, l).Some? && RegistryComplete(st) && NoOverlap(st) && NoOverlap(Next(st, l).value)
    ensures RegistryComplete(Next(st, l).value)
  {
    match l
    case AgentConnects(a, name, setup) => ConnectComplete(st, a, name, setup);
    case AgentExits(a) =>
    case _ =>
      SameStreams(st, l);
  }

  lemma ConnectComplete(st: State, a: nat, name: string, setup: Setup)
    requires a !in st.agents && RegistryComplete(st) && NoOverlap(Next(st, AgentConnects(a, name, setup)).value)
    ensures RegistryComplete(Next(st, AgentConnects(a, name, setup)).value)
  {
    var st' := Next(st, AgentConnects(a, name, setup)).value;
    forall b | b in st'.agents && st'.agents[b].running && st'.agents[b].name == AgentName(name) ensures b == a {
      assert st'.agents[a].running;
    }
  }

  /** Every other step keeps the registry and the streams there are. */
  lemma SameStreams(st: State, l: Label)
    requires Next(st, l).Some? && !l.AgentConnects? && !l.AgentExits?
    ensures var st' := Next(st, l).value;
            && st'.registry == st.registry && st'.agents.Keys == st.agents.Keys
            && forall a :: a in st.agents ==> st'.agents[a].name == st.agents[a].name && st'.agents[a].running == st.agents[a].running
  {
    hide Step;
    if l.AgentActs? {
      StepKeepsName(st.agents[l.a], l.l);
    }
  }

  /** The state after the first `n` steps of a run. */
  function StateAt(ls: seq<Label>, n: nat): (st: State)
    requires n <= |ls|
  {
    if Run(ls[..n]).Some? then Run(ls[..n]).value else INIT
  }

  lemma {:induction false} RunPrefix(ls: seq<Label>, n: nat)
    requires Run(ls).Some? && n <= |ls|
    ensures Run(ls[..n]).Some?
    decreases |ls|
  {
    if n < |ls| {
      RunPrefix(ls[..|ls| - 1], n);
      assert ls[..|ls| - 1][..n] == ls[..n];
    } else {
      assert ls[..n] == ls;
    }
  }

  lemma {:induction false} CompleteUpTo(ls: seq<Label>, n: nat)
    requires Run(ls).Some? && n <= |ls|
    requires forall k :: 0 <= k <= |ls| ==> NoOverlap(StateAt(ls, k))
    ensures RegistryComplete(StateAt(ls, n))
  {
    RunPrefix(ls, n);
    if n > 0 {
      CompleteUpTo(ls, n - 1);
      assert ls[..n][..n - 1] == ls[..n - 1];
      RunPrefix(ls, n - 1);
      assert StateAt(ls, n) == Next(StateAt(ls, n - 1), ls[n - 1]).value;
      CompleteStep(StateAt(ls, n - 1), ls[n - 1]);
    }
  }

  /** In every run, every registered AgentConnection belongs to a running handler; and throughout
      a run the registry lists every running handler if and only if handlers with the same agent
      id never overlap in it. */
  lemma RegistryGuarantee(ls: seq<Label>)
    requires Run(ls).Some?
    ensures RegistrySound(Run(ls).value)
    ensures (forall n :: 0 <= n <= |ls| ==> RegistryComplete(StateAt(ls, n))) <==>
            (forall n :: 0 <= n <= |ls| ==> NoOverlap(StateAt(ls, n)))
  {
    RunInv(ls);
    if forall n :: 0 <= n <= |ls| ==> NoOverlap(StateAt(ls, n)) {
      forall n | 0 <= n <= |ls| ensures RegistryComplete(StateAt(ls, n)) {
        CompleteUpTo(ls, n);
      }
    }
    if forall n :: 0 <= n <= |ls| ==> RegistryComplete(StateAt(ls, n)) {
      forall n | 0 <= n <= |ls| ensures NoOverlap(StateAt(ls, n)) {
        assert RegistryComplete(StateAt(ls, n));
      }
    }
  }

  /** The registry really can miss a running agent: two streams with the same id, and the older
      one exits. */
  lemma RegistryCanMiss(setup: Setup)
    ensures exists ls :: Run(ls).Some? && !RegistryComplete(Run(ls).value) && 1 in Run(ls).value.agents
                         && Run(ls).value.agents[1].running && Run(ls).value.registry == map[]
  {
    var ls1 := [AgentConnects(0, "", setup)];
    var ls2 := ls1 + [AgentConnects(1, "", setup)];
    var ls3 := ls2 + [AgentExits(0)];
    assert ls1[..0] == [] && ls2[..1] == ls1 && ls3[..2] == ls2;
    assert Run([]) == Some(INIT);
    var st1 := Run(ls1).value;
    var st2 := Run(ls2).value;
    var st3 := Run(ls3).value;
    assert 1 in st3.agents && st3.agents[1].running;
    assert st3.registry == map[];
    assert !RegistryComplete(st3);
  }
}
