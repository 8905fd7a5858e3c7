/**
  Where commands get what they run with: the parameters of a command are those its own session's
  SessionOpen stands for, down to the layers of its environment.
 */
module Provenance {
  import opened Selection
  import opened Wire
  import opened ConnKeys
  import opened SessionSetup
  import opened AgentHandlers
  import opened AgentProcess
  import opened QueryClient
  import opened QueryTracking
  import opened SessionProtocol
  import opened ProtocolInvariant
  import opened SessionTheorems
  import EnvLayers
  import Binding

  // ---- One agent -------------------------------------------------------------------------

  /** Opening `o` was the work of a SessionOpen packet of session `sid`, and its parameters are what
      that packet stands for on this agent. */
  ghost predicate OpenedBy(p: Process, o: Opening, sid: string) {
    && o.cause < |p.arrivals| && p.arrivals[o.cause].pkt.typ == SessionOpen && SidOf(p.arrivals[o.cause].pkt) == sid
    && ParamsOf(p.setup, p.arrivals[o.cause].pkt) == Some(o.params)
  }

  /** `params` came out of a SessionOpen of session `sid`. */
  ghost predicate FromOpen(p: Process, params: Params, sid: string) {
    exists i :: 0 <= i < |p.opens| && p.opens[i].params == params && OpenedBy(p, p.opens[i], sid)
  }

  ghost predicate Traced(p: Process) {
    && p.taken <= |p.arrivals|
    && (forall k :: k in p.store && p.store[k].ParamsEntry? ==> FromOpen(p, p.store[k].params, k.sid))
    && (forall i :: 0 <= i < |p.runs| ==> FromOpen(p, p.runs[i].params, p.runs[i].sid))
    && (forall i :: 0 <= i < |p.opens| ==> p.opens[i].cause < p.taken)
    && (forall i, j :: 0 <= i < j < |p.opens| ==> p.opens[i].cause < p.opens[j].cause)
  }

  lemma OpenKept(p: Process, r: Process, params: Params, sid: string)
    requires FromOpen(p, params, sid) && p.arrivals <= r.arrivals && p.opens <= r.opens && r.setup == p.setup
    ensures FromOpen(r, params, sid)
  {
    hide ParamsOf;
    var i :| 0 <= i < |p.opens| && p.opens[i].params == params && OpenedBy(p, p.opens[i], sid);
    assert r.opens[i] == p.opens[i] && OpenedBy(r, r.opens[i], sid);
  }

  /** What a handler stores and runs. */
  ghost predicate ReactionTraced(t: Turn, store: Store, pkt: Packet, re: Reaction) {
    && (forall k :: k in re.store && re.store[k].ParamsEntry? ==>
          || (k in store && store[k] == re.store[k])
          || (k == ParamsKey(SidOf(pkt)) && re.decoded == Some(re.store[k].params)))
    && (re.decoded.Some? ==> pkt.typ == SessionOpen && ParamsOf(t.setup, pkt) == re.decoded)
    && (re.run.Some? ==> re.run.value.sid == SidOf(pkt) && HasParams(store, SidOf(pkt)) && re.run.value.params == store[ParamsKey(SidOf(pkt))].params)
  }

  lemma QueryTraced(t: Turn, store: Store, pkt: Packet, db: Protocol, out: Outcome)
    ensures var r := RunQuery(store, pkt, db, out); r.Some? ==> ReactionTraced(t, store, pkt, r.value)
  {
    hide QueryReplies, Close;
  }

  lemma ProxyTraced(t: Turn, store: Store, pkt: Packet, proto: Protocol, out: Outcome)
    ensures var r := ProxyWrite(t, store, pkt, proto, out); r.Some? ==> ReactionTraced(t, store, pkt, r.value)
  {
    hide Close;
  }

  lemma DirectTraced(t: Turn, store: Store, pkt: Packet, proto: Protocol, out: Outcome)
    ensures var r := DirectWrite(t, store, pkt, proto, out); r.Some? ==> ReactionTraced(t, store, pkt, r.value)
  {
    hide Close;
  }

  lemma TerminalTraced(t: Turn, store: Store, pkt: Packet, out: Outcome)
    ensures var r := Exec(t, store, pkt, out); r.Some? ==> ReactionTraced(t, store, pkt, r.value)
    ensures var r := TerminalWrite(t, store, pkt, out); r.Some? ==> ReactionTraced(t, store, pkt, r.value)
  {
    hide Close, CloseWithCode;
  }

  lemma OpenTraced(t: Turn, store: Store, pkt: Packet, out: Outcome)
    requires pkt.typ == SessionOpen
    ensures var r := OpenSession(t, store, pkt, out); r.Some? ==> ReactionTraced(t, store, pkt, r.value)
  {
  }

  lemma HandleTraced(t: Turn, store: Store, pkt: Packet, out: Outcome)
    requires Handle(t, store, pkt, out).Some?
    ensures ReactionTraced(t, store, pkt, Handle(t, store, pkt, out).value)
  {
    hide OpenSession, Exec, RunQuery, DirectWrite, ProxyWrite, TerminalWrite, Contains, Render;
    match pkt.typ
    case SessionOpen => OpenTraced(t, store, pkt, out);
    case AgentWrite(proto) =>
      QueryTraced(t, store, pkt, proto, out);
      DirectTraced(t, store, pkt, proto, out);
      ProxyTraced(t, store, pkt, proto, out);
    case _ => TerminalTraced(t, store, pkt, out);
  }

  lemma JustOpened(p: Process, re: Reaction)
    requires p.taken < |p.arrivals| && re.decoded.Some? && p.arrivals[p.taken].pkt.typ == SessionOpen
    requires ParamsOf(p.setup, p.arrivals[p.taken].pkt) == re.decoded
    ensures FromOpen(React(p, re), re.decoded.value, SidOf(p.arrivals[p.taken].pkt))
  {
    var r := React(p, re);
    var o := r.opens[|p.opens|];
    assert o.params == re.decoded.value && OpenedBy(r, o, SidOf(p.arrivals[p.taken].pkt));
  }

  lemma StoreTraced(p: Process, re: Reaction, k: StoreKey)
    requires Traced(p) && p.taken < |p.arrivals| && ReactionTraced(TurnOf(p), p.store, p.arrivals[p.taken].pkt, re)
    requires k in re.store && re.store[k].ParamsEntry?
    ensures FromOpen(React(p, re), re.store[k].params, k.sid)
  {
    hide FromOpen, OpenedBy;
    if re.decoded.Some? {
      JustOpened(p, re);
    }
    if k in p.store && p.store[k] == re.store[k] {
      OpenKept(p, React(p, re), p.store[k].params, k.sid);
    }
  }

  lemma RunTracedNext(p: Process, re: Reaction, i: nat)
    requires Traced(p) && p.taken < |p.arrivals| && ReactionTraced(TurnOf(p), p.store, p.arrivals[p.taken].pkt, re)
    requires i < |React(p, re).runs|
    ensures var r := React(p, re); FromOpen(r, r.runs[i].params, r.runs[i].sid)
  {
    hide FromOpen, OpenedBy;
    var sid := SidOf(p.arrivals[p.taken].pkt);
    if i < |p.runs| {
      OpenKept(p, React(p, re), p.runs[i].params, p.runs[i].sid);
    } else {
      OpenKept(p, React(p, re), p.store[ParamsKey(sid)].params, sid);
    }
  }

  lemma ReactTraced(p: Process, re: Reaction)
    requires Traced(p) && p.taken < |p.arrivals| && ReactionTraced(TurnOf(p), p.store, p.arrivals[p.taken].pkt, re)
    ensures Traced(React(p, re))
  {
    hide FromOpen, OpenedBy, ParamsOf;
    var r := React(p, re);
    forall k | k in r.store && r.store[k].ParamsEntry? ensures FromOpen(r, r.store[k].params, k.sid) {
      StoreTraced(p, re, k);
    }
    forall i | 0 <= i < |r.runs| ensures FromOpen(r, r.runs[i].params, r.runs[i].sid) {
      RunTracedNext(p, re, i);
    }
  }

  /** Steps that change neither arrivals nor parameters nor history. */
  lemma TracedFrame(p: Process, r: Process)
    requires Traced(p) && p.arrivals <= r.arrivals && r.taken == p.taken && r.setup == p.setup
    requires r.opens == p.opens && r.runs == p.runs
    requires forall k :: k in r.store && r.store[k].ParamsEntry? ==> k in p.store && p.store[k] == r.store[k]
    ensures Traced(r)
  {
    forall k | k in r.store && r.store[k].ParamsEntry? ensures FromOpen(r, r.store[k].params, k.sid) {
      OpenKept(p, r, p.store[k].params, k.sid);
    }
    forall i | 0 <= i < |r.runs| ensures FromOpen(r, r.runs[i].params, r.runs[i].sid) {
      OpenKept(p, r, p.runs[i].params, p.runs[i].sid);
    }
  }

  lemma StepTraced(p: Process, l: AgentStep)
    requires Traced(p) && Step(p, l).Some?
    ensures Traced(Step(p, l).value)
  {
    hide Traced;
    if l.Take? {
      HandleTraced(TurnOf(p), p.store, p.arrivals[p.taken].pkt, l.out);
      ReactTraced(p, Handle(TurnOf(p), p.store, p.arrivals[p.taken].pkt, l.out).value);
    } else {
      TracedFrame(p, Step(p, l).value);
    }
  }

  // ---- Every run -------------------------------------------------------------------------

  ghost predicate AllTraced(st: State) {
    forall a :: a in st.agents ==> Traced(st.agents[a])
  }

  lemma NextTraced(st: State, l: Label)
    requires AllTraced(st) && Next(st, l).Some?
    ensures AllTraced(Next(st, l).value)
  {
    hide Traced, Step;
    var st' := Next(st, l).value;
    forall a | a in st'.agents ensures Traced(st'.agents[a]) {
      if a !in st.agents {
        NewTraced(st'.agents[a].name, st'.agents[a].setup);
      } else if l.AgentActs? && l.a == a {
        StepTraced(st.agents[a], l.l);
      } else {
        TracedFrame(st.agents[a], st'.agents[a]);
      }
    }
  }

  lemma NewTraced(name: string, setup: Setup)
    ensures Traced(NewProcess(name, setup))
  {
  }

  lemma {:induction false} RunTraced(ls: seq<Label>)
    requires Run(ls).Some?
    ensures AllTraced(Run(ls).value)
  {
    hide Next, Traced;
    if ls != [] {
      RunTraced(ls[..|ls| - 1]);
      NextTraced(Run(ls[..|ls| - 1]).value, ls[|ls| - 1]);
    }
  }

  /** A packet of session `s` that its agent took is one that its own client sent, stamped. */
  lemma OwnPacket(ls: seq<Label>, a: nat, cause: nat)
    requires Run(ls).Some? && a in Run(ls).value.agents && cause < |Run(ls).value.agents[a].arrivals|
    ensures var st := Run(ls).value;
            var sid := SidOf(st.agents[a].arrivals[cause].pkt);
            sid != "" ==>
              && sid in st.clients && st.clients[sid].agent == a
              && exists j :: 0 <= j < |st.clients[sid].sent| && Stamp(st.clients[sid].sent[j].pkt, sid) == st.agents[a].arrivals[cause].pkt
  {
    hide Owned, Tracked, QuerySent, Downlink, Lifecycle, UpPackets;
    RunInv(ls);
    var st := Run(ls).value;
    var sid := SidOf(st.agents[a].arrivals[cause].pkt);
    assert Bound(st, a);
    if sid != "" {
      assert Linked(st.clients[sid], st.agents[a], sid);
      CauseIsOwn(st.clients[sid], st.agents[a], sid, cause);
    }
  }

  /** In every run: each command an agent ran, for whatever client and database, ran with
      parameters that came out of a SessionOpen of its own session. */
  lemma RunsUseOwnParams(ls: seq<Label>, a: nat, i: nat)
    requires Run(ls).Some? && a in Run(ls).value.agents && i < |Run(ls).value.agents[a].runs|
    ensures var p := Run(ls).value.agents[a];
            FromOpen(p, p.runs[i].params, p.runs[i].sid)
  {
    RunTraced(ls);
    assert Traced(Run(ls).value.agents[a]);
  }

  /** What a mysql or mongodb `executeQuery` sent that an agent takes as SessionOpen: only its
      first packet. */
  lemma FirstIsOpen(c: Session, p: Process, s: string, cause: nat)
    requires Linked(c, p, s) && Direct(c) && cause < |p.arrivals|
    requires SidOf(p.arrivals[cause].pkt) == s && p.arrivals[cause].pkt.typ == SessionOpen
    ensures c.sent != [] && p.arrivals[cause].pkt == Stamp(c.sent[0].pkt, s)
  {
    hide Tracked, Lifecycle, QuerySent, Uplink, Select;
    CauseIsOwn(c, p, s, cause);
    var j :| 0 <= j < |c.sent| && Stamp(c.sent[j].pkt, s) == p.arrivals[cause].pkt;
    SecondIsQuery(c, s);
  }

  lemma SecondIsQuery(c: Session, s: string)
    requires Direct(c) && UpPackets(c.sent) == c.kind.st.sent && c.consumed <= |c.delivered| && QuerySent(c, s)
    ensures forall j :: 0 < j < |c.sent| ==> c.sent[j].pkt.typ == AgentWrite(c.kind.st.db)
  {
    hide Feed, Begin;
    var st := c.kind.st;
    assert forall j :: 0 <= j < |c.sent| ==> c.sent[j].pkt == st.sent[j];
    assert |st.sent| == 2 ==> Stamp(st.sent[1], s).typ == st.sent[1].typ;
  }

  /** The command a mysql or mongodb `executeQuery` made its agent run got exactly the parameters
      that this client's own SessionOpen packet stands for on that agent: its environment is the
      closed form over the variables the packet carries, the agent's secrets and configuration. */
  lemma QueryUsesOwnParams(ls: seq<Label>, s: string)
    requires Run(ls).Some? && s in Run(ls).value.clients
    requires Direct(Run(ls).value.clients[s])
    ensures var st := Run(ls).value;
            var c := st.clients[s];
            && c.agent in st.agents
            && var p := st.agents[c.agent];
               var runs := Select(p.runs, RunFor(s));
               runs != [] ==> RanWithOwn(c, p.setup, s, runs[0].params)
  {
    hide Owned, Traced, Linked;
    RunInv(ls);
    RunTraced(ls);
    var st := Run(ls).value;
    var c := st.clients[s];
    var p := st.agents[c.agent];
    assert Linked(c, p, s) && Traced(p);
    if Select(p.runs, RunFor(s)) != [] {
      RunWithOwn(c, p, s);
    }
  }

  /** `params` are what this client's first packet, stamped, stands for. */
  ghost predicate RanWithOwn(c: Session, setup: Setup, s: string, params: Params) {
    && c.sent != []
    && var open := Stamp(c.sent[0].pkt, s);
       && ParamsOf(setup, open) == Some(params)
       && EnvInputs(setup, open).Some?
       && EnvLayers.IsLayered(setup.platform, EnvInputs(setup, open).value, params.env)
       && params.command == ConnectionOf(setup, open).value.command
  }

  lemma RunWithOwn(c: Session, p: Process, s: string)
    requires Linked(c, p, s) && Direct(c) && Traced(p) && Select(p.runs, RunFor(s)) != []
    ensures RanWithOwn(c, p.setup, s, Select(p.runs, RunFor(s))[0].params)
  {
    hide Linked, Direct, RanWithOwn, ParamsOf;
    var runs := Select(p.runs, RunFor(s));
    SelectAll(p.runs, RunFor(s));
    assert runs[0] in p.runs;
    var n :| 0 <= n < |p.runs| && p.runs[n] == runs[0];
    assert FromOpen(p, p.runs[n].params, p.runs[n].sid);
    var i :| 0 <= i < |p.opens| && p.opens[i].params == runs[0].params && OpenedBy(p, p.opens[i], s);
    FirstIsOpen(c, p, s, p.opens[i].cause);
    OwnParams(c, p.setup, s, runs[0].params);
  }

  lemma OwnParams(c: Session, setup: Setup, s: string, params: Params)
    requires c.sent != [] && ParamsOf(setup, Stamp(c.sent[0].pkt, s)) == Some(params)
    ensures RanWithOwn(c, setup, s, params)
  {
    hide EnvInputs, EnvLayers.IsLayered, ConnectionOf;
  }

  // ---- The environment of a query, name by name ------------------------------------------

  /** The command an `executeQuery` on mysql made its agent run found the PASS of its layers under
      MYSQL_PWD, and the other two password names as the layers left them; it found the identity of its
      connection, user and own session.  A name the agent's host defines holds what the host says. */
  lemma MySqlEnvironment(ls: seq<Label>, s: string) returns (text: string, d: Decoded)
    requires Run(ls).Some? && s in Run(ls).value.clients
    requires Direct(Run(ls).value.clients[s]) && Run(ls).value.clients[s].kind.st.db == MySQL
    requires var st := Run(ls).value;
             st.clients[s].agent in st.agents && Select(st.agents[st.clients[s].agent].runs, RunFor(s)) != []
    ensures var c := Run(ls).value.clients[s];
            var setup := Run(ls).value.agents[c.agent].setup;
            var open := Stamp(OpenPacket(MySQL, c.kind.st.query, text), s);
            && c.sent != [] && c.sent[0].pkt == OpenPacket(MySQL, c.kind.st.query, text)
            && text != "" && setup.decodeParams(text) == Some(d)
            && ParamsOf(setup, open) == Some(Select(Run(ls).value.agents[c.agent].runs, RunFor(s))[0].params)
            && MySqlNames(setup, open, d, s, Select(Run(ls).value.agents[c.agent].runs, RunFor(s))[0].params.env)
  {
    hide Linked, Traced, ParamsOf, OpenPacket, Stamp, Select, MySqlNames, Binding.Eligible;
    QueryUsesOwnParams(ls, s);
    text := OpeningText(ls, s);
    var c := Run(ls).value.clients[s];
    var setup := Run(ls).value.agents[c.agent].setup;
    var open := Stamp(OpenPacket(MySQL, c.kind.st.query, text), s);
    d := OpenedWith(setup, c.kind.st.query, text, s);
    NamesHeld(setup, c.kind.st.query, text, s, d);
  }

  lemma OpeningText(ls: seq<Label>, s: string) returns (text: string)
    requires Run(ls).Some? && s in Run(ls).value.clients && Run(ls).value.clients[s].kind.Querying?
    ensures var c := Run(ls).value.clients[s];
            c.sent != [] && c.sent[0].pkt == OpenPacket(c.kind.st.db, c.kind.st.query, text)
  {
    hide Binding.Eligible, OpenPacket;
    var n := Binding.BoundAsRequested(ls, s);
    text := ls[n].who.params;
  }

  lemma OpenedWith(setup: Setup, query: string, text: string, s: string) returns (d: Decoded)
    requires ParamsOf(setup, Stamp(OpenPacket(MySQL, query, text), s)).Some?
    ensures text != "" && setup.decodeParams(text) == Some(d)
  {
    hide ParamsOf;
    OpensExactly(setup, Stamp(OpenPacket(MySQL, query, text), s));
    d := setup.decodeParams(text).value;
  }

  /** The names, each written out. */
  predicate MySqlNames(setup: Setup, open: Packet, d: Decoded, s: string, env: map<string, string>) {
    var e := setup.platform.encode;
    && (!HostHas(setup, "envvar:MYSQL_PWD") ==>
          At(env, "envvar:MYSQL_PWD") ==
          if SaidOf(setup, open, d, "envvar:PASS").Some? then SaidOf(setup, open, d, "envvar:PASS") else SaidOf(setup, open, d, "envvar:MYSQL_PWD"))
    && (!HostHas(setup, "envvar:PGPASSWORD") ==> At(env, "envvar:PGPASSWORD") == SaidOf(setup, open, d, "envvar:PGPASSWORD"))
    && (!HostHas(setup, "envvar:SQLCMDPASSWORD") ==> At(env, "envvar:SQLCMDPASSWORD") == SaidOf(setup, open, d, "envvar:SQLCMDPASSWORD"))
    && (!HostHas(setup, "envvar:HOOP_CONNECTION_NAME") ==> At(env, "envvar:HOOP_CONNECTION_NAME") == Some(e(d.connectionName)))
    && (!HostHas(setup, "envvar:HOOP_CONNECTION_TYPE") ==> At(env, "envvar:HOOP_CONNECTION_TYPE") == Some(e(d.connectionType)))
    && (!HostHas(setup, "envvar:HOOP_CLIENT_ORIGIN") ==> At(env, "envvar:HOOP_CLIENT_ORIGIN") == Some(e(d.clientOrigin)))
    && (!HostHas(setup, "envvar:HOOP_CLIENT_VERB") ==> At(env, "envvar:HOOP_CLIENT_VERB") == Some(e(d.clientVerb)))
    && (!HostHas(setup, "envvar:HOOP_USER_ID") ==> At(env, "envvar:HOOP_USER_ID") == Some(e(d.userID)))
    && (!HostHas(setup, "envvar:HOOP_USER_EMAIL") ==> At(env, "envvar:HOOP_USER_EMAIL") == Some(e(d.userEmail)))
    && (!HostHas(setup, "envvar:HOOP_SESSION_ID") ==> At(env, "envvar:HOOP_SESSION_ID") == Some(e(s)))
  }

  lemma NamesHeld(setup: Setup, query: string, text: string, s: string, d: Decoded)
    requires text != "" && setup.decodeParams(text) == Some(d)
    requires ParamsOf(setup, Stamp(OpenPacket(MySQL, query, text), s)).Some?
    ensures MySqlNames(setup, Stamp(OpenPacket(MySQL, query, text), s), d, s, ParamsOf(setup, Stamp(OpenPacket(MySQL, query, text), s)).value.env)
  {
    hide ParamsOf, SaidOf, HostHas, At;
    var open := Stamp(OpenPacket(MySQL, query, text), s);
    OpensWith(MySQL, query, text);
    assert Get(open.spec, ConnectionType) == "mysql" && Get(open.spec, EncodedParams) == text && SidOf(open) == s;
    SessionPassword(setup, open, d, "envvar:MYSQL_PWD");
    SessionPassword(setup, open, d, "envvar:PGPASSWORD");
    SessionPassword(setup, open, d, "envvar:SQLCMDPASSWORD");
    SessionIdentity(setup, open, d);
    EnvLayers.PasswordNamesDiffer(setup.platform, EnvLayers.Identity("", "", "", "", "", "", ""));
  }
}
