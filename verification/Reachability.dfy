/**
  Building runs: one agent stream, any clients bound to it, and the states they can reach.
 */
module Reachability {
  import opened Selection
  import opened Wire
  import opened ConnKeys
  import opened SessionSetup
  import opened AgentHandlers
  import opened Decimal
  import opened AgentProcess
  import opened SessionProtocol
  import Secrets
  import EnvLayers
  import AgentController
  import AgentRefinement

  ghost predicate Reachable(st: State) {
    exists ls :: Run(ls) == Some(st)
  }

  lemma Extends(st: State, l: Label)
    requires Reachable(st) && Next(st, l).Some?
    ensures Reachable(Next(st, l).value)
  {
    hide Next;
    var ls :| Run(ls) == Some(st);
    var longer := ls + [l];
    assert longer[..|longer| - 1] == ls;
    assert Run(longer) == Next(st, l);
  }

  const DEFAULT_AGENT := "agent-default"

  /** One agent stream and open sessions bound to it. */
  function Stage(p: Process, cs: map<string, Session>): (st: State) {
    State(map[DEFAULT_AGENT := 0], cs.Keys, map[0 := p], cs)
  }

  lemma AgentMoves(p: Process, cs: map<string, Session>, l: AgentStep)
    requires Reachable(Stage(p, cs)) && Step(p, l).Some?
    ensures Reachable(Stage(Step(p, l).value, cs))
  {
    hide Step;
    var st := Stage(p, cs);
    Extends(st, AgentActs(0, l));
    assert st.agents[0 := Step(p, l).value] == map[0 := Step(p, l).value];
    assert Next(st, AgentActs(0, l)).value == Stage(Step(p, l).value, cs);
  }

  lemma Forwards(p: Process, cs: map<string, Session>, s: string)
    requires Reachable(Stage(p, cs)) && s in cs
    requires cs[s].agent == 0 && cs[s].phase == Serving && p.running && cs[s].forwarded < |cs[s].sent|
    ensures Reachable(Stage(ForwardTo(p, cs[s].sent[cs[s].forwarded], s), cs[s := cs[s].(forwarded := cs[s].forwarded + 1)]))
  {
    var st := Stage(p, cs);
    var p', c' := ForwardTo(p, cs[s].sent[cs[s].forwarded], s), cs[s].(forwarded := cs[s].forwarded + 1);
    Extends(st, GatewayForwards(s));
    assert st.agents[0 := p'] == map[0 := p'] && cs[s := c'].Keys == cs.Keys;
    assert Next(st, GatewayForwards(s)).value == Stage(p', cs[s := c']);
  }

  /** The agent has dealt with everything it was sent. */
  predicate Idle(p: Process) {
    p.running && p.taken == |p.arrivals| && LoopIdle(p)
  }

  /** No goroutine has anything left to do. */
  predicate Quiet(p: Process) {
    forall i :: 0 <= i < |p.tasks| ==> p.tasks[i].acts == []
  }

  /** An arbitrary client that is being served and has nothing under way. */
  predicate Ready(c: Session) {
    c.kind.Arbitrary? && c.agent == 0 && c.phase == Serving && !c.closed && c.forwarded == |c.sent|
  }

  lemma Begins(setup: Setup) returns (p: Process)
    ensures Reachable(Stage(p, map[])) && Idle(p) && p.store == map[] && p.setup == setup
    ensures p.inputs == [] && Quiet(p)
  {
    assert Run([]) == Some(INIT);
    Extends(INIT, AgentConnects(0, "", setup));
    var p0 := NewProcess(DEFAULT_AGENT, setup);
    assert Next(INIT, AgentConnects(0, "", setup)).value == Stage(p0, map[]);
    AgentMoves(p0, map[], Take(Nothing));
    p := Step(p0, Take(Nothing)).value;
  }

  lemma Joins(p: Process, cs: map<string, Session>, s: string) returns (c: Session)
    requires Reachable(Stage(p, cs)) && ValidSid(s) && s !in cs
    ensures Reachable(Stage(p, cs[s := c])) && Ready(c)
  {
    c := NewSession(0, Anyone);
    var l := ClientConnects(s, "", DEFAULT_AGENT, Anyone);
    Extends(Stage(p, cs), l);
    assert cs[s := c].Keys == cs.Keys + {s};
    assert Next(Stage(p, cs), l).value == Stage(p, cs[s := c]);
  }

  /** A client sends a packet and the gateway forwards it. */
  lemma Sends(p: Process, cs: map<string, Session>, s: string, pkt: Packet) returns (u: Up, c: Session)
    requires Reachable(Stage(p, cs)) && s in cs && Ready(cs[s]) && p.running
    ensures u.pkt == pkt && Ready(c) && Reachable(Stage(ForwardTo(p, u, s), cs[s := c]))
  {
    hide Reachable, ForwardTo;
    u := Up(pkt, OkRead(cs[s]));
    var c1 := cs[s].(sent := cs[s].sent + [u]);
    Extends(Stage(p, cs), ClientSends(s, pkt));
    assert cs[s := c1].Keys == cs.Keys;
    assert Next(Stage(p, cs), ClientSends(s, pkt)).value == Stage(p, cs[s := c1]);
    Forwards(p, cs[s := c1], s);
    c := c1.(forwarded := c1.forwarded + 1);
    assert cs[s := c1][s := c] == cs[s := c];
  }

  lemma {:induction false} Continues(p: Process, cs: map<string, Session>, i: nat, n: nat)
    requires Reachable(Stage(p, cs)) && AgentRefinement.Uninterrupted(p, i, n).Some?
    ensures var r := AgentRefinement.Uninterrupted(p, i, n).value;
            && Reachable(Stage(r, cs)) && r.running == p.running && r.taken == p.taken && r.arrivals == p.arrivals
            && r.setup == p.setup
            && (i < |p.tasks| && n <= |p.tasks[i].acts| && NoWrites(p.tasks[i].acts) ==> r.inputs == p.inputs)
    decreases n
  {
    hide Reachable;
    if n > 0 {
      AgentRefinement.PerformKeeps(p, i);
      AgentMoves(p, cs, AgentStep.Perform(i));
      Continues(Step(p, AgentStep.Perform(i)).value, cs, i, n - 1);
    }
  }

  /** The agent's store after a handler has run to its end. */
  function StoreAfter(re: Reaction): (r: Store) {
    AgentController.PerformAll(AgentController.Effects(re.store, [], [], []), re.main).store
  }

  lemma {:induction false} StoreOnly(e: AgentController.Effects, f: AgentController.Effects, acts: seq<Act>)
    requires e.store == f.store
    ensures AgentController.PerformAll(e, acts).store == AgentController.PerformAll(f, acts).store
    decreases |acts|
  {
    if acts != [] {
      StoreOnly(AgentController.Perform(e, acts[0]), AgentController.Perform(f, acts[0]), acts[1..]);
    }
  }

  /** What the handler of the next packet of `p` leaves: its store, the goroutine it spawned, and
      what it handed over. */
  predicate Handled(p: Process, r: Process, re: Reaction) {
    && r.store == StoreAfter(re)
    && r.tasks == p.tasks + [Task(p.taken, []), Task(p.taken, re.spawn)]
    && r.inputs == if re.input.Some? then p.inputs + [Handed(p.taken, p.taken + 1, re.input.value)] else p.inputs
  }

  /** The agent takes the packet it was just sent, and its handler runs to the end. */
  lemma Handles(p: Process, cs: map<string, Session>, out: Outcome) returns (r: Process)
    requires Reachable(Stage(p, cs)) && p.running && p.taken + 1 == |p.arrivals| && LoopIdle(p)
    requires Handle(TurnOf(p), p.store, p.arrivals[p.taken].pkt, out).Some?
    ensures Reachable(Stage(r, cs)) && Idle(r) && r.setup == p.setup && r.arrivals == p.arrivals
    ensures Handled(p, r, Handle(TurnOf(p), p.store, p.arrivals[p.taken].pkt, out).value)
  {
    hide Reachable, Handle, AgentRefinement.Uninterrupted;
    var re := Handle(TurnOf(p), p.store, p.arrivals[p.taken].pkt, out).value;
    AgentRefinement.DispatchIsSteps(p, out);
    AgentMoves(p, cs, Take(out));
    var q := Step(p, Take(out)).value;
    Continues(q, cs, q.current, |re.main|);
    r := AgentRefinement.Uninterrupted(q, q.current, |re.main|).value;
    StoreOnly(AgentController.Handing(AgentRefinement.EffectsOf(p), re), AgentController.Effects(re.store, [], [], []), re.main);
  }

  /** A packet of one client, all the way through the agent. */
  lemma Serves(p: Process, cs: map<string, Session>, s: string, pkt: Packet, out: Outcome) returns (r: Process, c: Session)
    requires Reachable(Stage(p, cs)) && s in cs && Ready(cs[s]) && Idle(p)
    requires Handle(TurnOf(p), p.store, Stamp(pkt, s), out).Some?
    ensures Reachable(Stage(r, cs[s := c])) && Idle(r) && Ready(c) && r.setup == p.setup
    ensures exists afterOk :: r.arrivals == p.arrivals + [Up(Stamp(pkt, s), afterOk)]
    ensures Handled(p, r, Handle(TurnOf(p), p.store, Stamp(pkt, s), out).value)
  {
    hide Reachable, Handle, StoreAfter;
    var u;
    u, c := Sends(p, cs, s, pkt);
    var q := ForwardTo(p, u, s);
    assert q.arrivals[q.taken].pkt == Stamp(pkt, s);
    r := Handles(q, cs[s := c], out);
    assert r.arrivals == p.arrivals + [Up(Stamp(pkt, s), u.afterOk)];
  }

  // ---- An agent to run things on ---------------------------------------------------------

  /** An agent on which every SessionOpen with parameters succeeds. */
  const PLAIN_SETUP := Setup(
    text => Some(Decoded("", "", "", "", "", "", "", map[])), text => None,
    Secrets.Backend(text => None, text => text, kind => false, (kind, id) => None),
    EnvLayers.Platform(text => text, text => text, name => None), map[], None)

  const OPEN_REQUEST := Packet(SessionOpen, "", map[EncodedParams := "params"])

  lemma PlainOpens(s: string)
    ensures ParamsOf(PLAIN_SETUP, Stamp(OPEN_REQUEST, s)).Some?
  {
  }

  lemma PlainReaction(t: Turn, store: Store, s: string)
    requires t.setup == PLAIN_SETUP
    ensures var r := Handle(t, store, Stamp(OPEN_REQUEST, s), Outcome.Opens(None));
            && r.Some? && r.value.input.None? && StoreAfter(r.value) == r.value.store
            && r.value.store.Keys == store.Keys + {ParamsKey(s)} && HasParams(r.value.store, s)
  {
    hide ParamsOf, Exec, RunQuery, DirectWrite, ProxyWrite, TerminalWrite, Cleanup, TcpClose;
    PlainOpens(s);
  }

  /** A client opens its session on such an agent. */
  lemma OpensPlain(p: Process, cs: map<string, Session>, s: string) returns (r: Process, c: Session)
    requires Reachable(Stage(p, cs)) && s in cs && Ready(cs[s]) && Idle(p) && p.setup == PLAIN_SETUP && Quiet(p)
    ensures Reachable(Stage(r, cs[s := c])) && Idle(r) && Ready(c) && r.setup == PLAIN_SETUP
    ensures r.store.Keys == p.store.Keys + {ParamsKey(s)} && HasParams(r.store, s)
    ensures r.inputs == p.inputs
  {
    hide Reachable, Idle, Ready, ParamsOf, Exec, RunQuery, DirectWrite, ProxyWrite, TerminalWrite, Cleanup, TcpClose;
    PlainOpens(s);
    PlainReaction(TurnOf(p), p.store, s);
    hide OpenSession, Handle;
    r, c := Serves(p, cs, s, OPEN_REQUEST, Outcome.Opens(None));
  }

  function TcpWrite(conn: string, data: string): (p: Packet) {
    Packet(AgentWrite(TCP), data, map[ConnectionId := conn])
  }

  /** A client with an open session opens a raw connection under an id of its choice; its copier has
      yet to run. */
  lemma Dials(p: Process, cs: map<string, Session>, s: string, conn: string, data: string) returns (r: Process, c: Session)
    requires Reachable(Stage(p, cs)) && s in cs && Ready(cs[s]) && Idle(p)
    requires HasParams(p.store, s) && ConnKey(s, conn) !in p.store && conn != ""
    ensures Reachable(Stage(r, cs[s := c])) && Idle(r) && Ready(c) && r.setup == p.setup
    ensures exists afterOk :: r.arrivals == p.arrivals + [Up(Stamp(TcpWrite(conn, data), s), afterOk)]
    ensures var pkt := Stamp(TcpWrite(conn, data), s);
            var proxy := NewProxy(TurnOf(p), pkt, TCP, CopyFinished);
            && r.store == p.store[ConnKey(s, conn) := ConnEntry(proxy)]
            && r.tasks == p.tasks + [Task(p.taken, []), Task(p.taken, Copier(TurnOf(p), pkt, proxy, ProxyStarts))]
            && r.inputs == p.inputs
  {
    hide Reachable, Idle, Ready, Copier, OpenSession, Exec, RunQuery, ProxyWrite, TerminalWrite, Cleanup, TcpClose;
    var pkt := Stamp(TcpWrite(conn, data), s);
    assert ConnOf(pkt) == conn;
    var proxy := NewProxy(TurnOf(p), pkt, TCP, CopyFinished);
    r, c := Serves(p, cs, s, TcpWrite(conn, data), ProxyStarts);
    AgentController.PerformOne(AgentController.Effects(p.store, [], [], []), Put(ConnKey(s, conn), proxy));
  }
}
