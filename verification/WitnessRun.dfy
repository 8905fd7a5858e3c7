/**
  The end-to-end guarantee is not empty: for every query, every output and every exit code there
  is a run in which `executeQuery` returns exactly them.
 */
module WitnessRun {
  import opened Selection
  import opened Decimal
  import opened Wire
  import opened ConnKeys
  import opened SessionSetup
  import opened AgentHandlers
  import opened AgentProcess
  import opened QueryClient
  import opened SessionProtocol
  import opened Reachability

  /** One agent stream and one session bound to it. */
  function Pair(p: Process, s: string, c: Session): (st: State) {
    Stage(p, map[s := c])
  }

  lemma AgentStepsOn(p: Process, s: string, c: Session, l: AgentStep)
    requires Reachable(Pair(p, s, c)) && Step(p, l).Some?
    ensures Reachable(Pair(Step(p, l).value, s, c))
  {
    AgentMoves(p, map[s := c], l);
  }

  lemma GatewayStepsOn(p: Process, s: string, c: Session)
    requires Reachable(Pair(p, s, c)) && c.agent == 0 && c.phase == Serving && p.running && c.forwarded < |c.sent|
    ensures Reachable(Pair(ForwardTo(p, c.sent[c.forwarded], s), s, c.(forwarded := c.forwarded + 1)))
  {
    var c' := c.(forwarded := c.forwarded + 1);
    Forwards(p, map[s := c], s);
    assert map[s := c][s := c'] == map[s := c'];
  }

  lemma Routes(p: Process, s: string, c: Session)
    requires Reachable(Pair(p, s, c)) && p.running && p.carrying.None? && p.routed < |p.emitted|
    requires SidOf(p.emitted[p.routed].pkt) == s && !c.closed && !c.broken
    ensures Reachable(Pair(p.(routed := p.routed + 1), s, SendToClient(c, p.emitted[p.routed])))
  {
    hide SendToClient;
    var st := Pair(p, s, c);
    var m := p.emitted[p.routed];
    var p1 := p.(routed := p.routed + 1, carrying := Some(m));
    Extends(st, GatewayLooksUp(0));
    assert st.agents[0 := p1] == map[0 := p1];
    assert Next(st, GatewayLooksUp(0)).value == Pair(p1, s, c);
    var p2 := p1.(carrying := None);
    assert p2 == p.(routed := p.routed + 1);
    Extends(Pair(p1, s, c), GatewayDelivers(0));
    var c' := SendToClient(c, m);
    assert Pair(p1, s, c).agents[0 := p2] == map[0 := p2] && Pair(p1, s, c).clients[s := c'] == map[s := c'];
    assert Next(Pair(p1, s, c), GatewayDelivers(0)).value == Pair(p2, s, c');
  }

  lemma Receives(p: Process, s: string, c: Session)
    requires Reachable(Pair(p, s, c)) && c.consumed < |c.delivered| && c.kind.Querying? && c.kind.st.status == Running
    ensures Reachable(Pair(p, s, Receive(c)))
  {
    hide Receive;
    var st := Pair(p, s, c);
    Extends(st, ClientReceives(s));
    assert st.clients[s := Receive(c)] == map[s := Receive(c)];
    assert Next(st, ClientReceives(s)).value == Pair(p, s, Receive(c));
  }

  /** Deliver the next packet and let the client read it. */
  lemma RoutesAndReceives(p: Process, s: string, c: Session)
    requires Reachable(Pair(p, s, c)) && p.running && p.carrying.None? && p.routed < |p.emitted|
    requires SidOf(p.emitted[p.routed].pkt) == s && !c.closed && !c.broken && c.consumed == |c.delivered|
    requires c.kind.Querying? && c.kind.st.status == Running
    ensures Reachable(Pair(p.(routed := p.routed + 1), s, Receive(SendToClient(c, p.emitted[p.routed]))))
  {
    hide Receive;
    Routes(p, s, c);
    Receives(p.(routed := p.routed + 1), s, SendToClient(c, p.emitted[p.routed]));
  }

  /** What a client that has read everything looks like after one more packet. */
  predicate Grown(c: Session, r: Session, st: QueryState)
    requires c.kind.Querying?
  {
    && r.kind == Querying(st) && r.consumed == |r.delivered|
    && r.closed == c.closed && r.broken == c.broken && r.agent == c.agent && r.phase == c.phase && r.forwarded == c.forwarded
    && (|st.sent| <= |c.kind.st.sent| ==> r.sent == c.sent)
    && (|st.sent| > |c.kind.st.sent| ==> r.sent == c.sent + [Up(st.sent[|c.kind.st.sent|], true)])
  }

  lemma AfterPacket(c: Session, m: Msg)
    requires !c.closed && !c.broken && c.consumed == |c.delivered| && c.kind.Querying?
    ensures Grown(c, Receive(SendToClient(c, m)), OnPacket(c.kind.st, m.pkt))
  {
    hide OnPacket;
    var d := SendToClient(c, m);
    assert d.delivered[d.consumed] == m;
  }

  // ---- The run ---------------------------------------------------------------------------

  predicate Opened(p: Process, s: string, params: Params) {
    && p.running && p.carrying.None? && p.taken == |p.arrivals| && LoopIdle(p)
    && p.store == map[ParamsKey(s) := ParamsEntry(params)]
    && p.routed == |p.emitted| && p.runs == []
  }

  lemma Connects(setup: Setup, s: string, db: Protocol, query: string, text: string)
    requires ValidSid(s) && (db.MySQL? || db.MongoDB?)
    ensures Reachable(Pair(NewProcess("agent-default", setup), s, NewSession(0, Queries(db, query, text))))
  {
    hide NewProcess, NewSession;
    assert Run([]) == Some(INIT);
    Extends(INIT, AgentConnects(0, "", setup));
    var st1 := Next(INIT, AgentConnects(0, "", setup)).value;
    var p := NewProcess("agent-default", setup);
    assert st1 == State(map["agent-default" := 0], {}, map[0 := p], map[]);
    var l := ClientConnects(s, "", "agent-default", Queries(db, query, text));
    Extends(st1, l);
    assert Next(st1, l).value == Pair(p, s, NewSession(0, Queries(db, query, text)));
  }

  /** The process that has opened the session and answered. */
  function OpenedProcess(setup: Setup, s: string, open: Packet, params: Params): (p: Process) {
    var arrivals := [Up(CONNECT_OK, false), Up(Stamp(open, s), false)];
    var ok := Send(OpenOkPacket(s, Stamp(open, s), params.command));
    Process("agent-default", true, arrivals, 2, map[ParamsKey(s) := ParamsEntry(params)],
            [Task(0, []), Task(0, []), Task(1, []), Task(1, [ok])], 2, [], [], 0, None, [], {}, [Opening(1, params)], [None, None], [], [], setup)
  }

  lemma OpensSession(setup: Setup, s: string, open: Packet, params: Params, c: Session)
    requires ValidSid(s) && open.typ == SessionOpen && ParamsOf(setup, Stamp(open, s)) == Some(params)
    requires Reachable(Pair(NewProcess("agent-default", setup), s, c))
    requires c.agent == 0 && c.phase == Serving && c.forwarded == 0 && c.sent == [Up(open, false)]
    ensures Reachable(Pair(OpenedProcess(setup, s, open, params), s, c.(forwarded := 1)))
  {
    hide Reachable, ParamsOf;
    var p0 := NewProcess("agent-default", setup);
    GatewayStepsOn(p0, s, c);
    var c1 := c.(forwarded := 1);
    var p1 := ForwardTo(p0, c.sent[0], s);
    assert p1.arrivals == [Up(CONNECT_OK, false), Up(Stamp(open, s), false)];
    AgentStepsOn(p1, s, c1, Take(Nothing));
    var p2 := Step(p1, Take(Nothing)).value;
    assert p2 == p1.(taken := 1, tasks := [Task(0, []), Task(0, [])], lookups := [None]);
    TakesOpen(setup, s, open, params, p2);
    AgentStepsOn(p2, s, c1, Take(Opens(None)));
    assert Step(p2, Take(Opens(None))).value == OpenedProcess(setup, s, open, params);
  }

  lemma TakesOpen(setup: Setup, s: string, open: Packet, params: Params, p: Process)
    requires open.typ == SessionOpen && ParamsOf(setup, Stamp(open, s)) == Some(params)
    requires p == NewProcess("agent-default", setup).(
                    arrivals := [Up(CONNECT_OK, false), Up(Stamp(open, s), false)],
                    taken := 1, tasks := [Task(0, []), Task(0, [])], lookups := [None])
    ensures Step(p, Take(Opens(None))) == Some(OpenedProcess(setup, s, open, params))
  {
    hide ParamsOf, Exec, RunQuery, DirectWrite, ProxyWrite, TerminalWrite, Cleanup, TcpClose;
    var r := Step(p, Take(Opens(None))).value;
    var ok := Send(OpenOkPacket(s, Stamp(open, s), params.command));
    assert [] + [ok] == [ok];
    assert r.store == map[ParamsKey(s) := ParamsEntry(params)];
    assert r.tasks == [Task(0, []), Task(0, []), Task(1, []), Task(1, [ok])];
    assert r.lookups == [None, None] && r.opens == [Opening(1, params)];
    assert r == OpenedProcess(setup, s, open, params);
  }

  lemma SendsAnswer(p: Process, s: string, c: Session, i: nat, q: Packet)
    requires Reachable(Pair(p, s, c)) && i < |p.tasks| && p.tasks[i].acts != [] && p.tasks[i].acts[0] == Send(q)
    ensures Reachable(Pair(Pop(p, i).(emitted := p.emitted + [Msg(p.tasks[i].cause, q)]), s, c))
  {
    AgentStepsOn(p, s, c, AgentStep.Perform(i));
  }

  /** Perform the next act of a goroutine, a send, and let its packet travel to the client. */
  lemma AnswerTravels(p: Process, s: string, c: Session, i: nat, q: Packet) returns (p': Process, c': Session)
    requires Reachable(Pair(p, s, c)) && i < |p.tasks| && p.tasks[i].acts != [] && p.tasks[i].acts[0] == Send(q)
    requires p.running && p.carrying.None? && p.routed == |p.emitted| && SidOf(q) == s
    requires !c.closed && !c.broken && c.consumed == |c.delivered| && c.kind.Querying? && c.kind.st.status == Running
    ensures Reachable(Pair(p', s, c'))
    ensures p' == Pop(p, i).(emitted := p'.emitted, routed := p'.routed) && p'.routed == |p'.emitted|
    ensures i < |p'.tasks| && p'.tasks[i].acts == p.tasks[i].acts[1..]
    ensures Grown(c, c', OnPacket(c.kind.st, q))
  {
    hide Reachable, OnPacket, Receive;
    SendsAnswer(p, s, c, i, q);
    var m := Msg(p.tasks[i].cause, q);
    var p1 := Pop(p, i).(emitted := p.emitted + [m]);
    RoutesAndReceives(p1, s, c);
    AfterPacket(c, m);
    p', c' := p1.(routed := p1.routed + 1), Receive(SendToClient(c, m));
  }

  /** Up to the client having sent its query. */
  lemma ReachesQuery(setup: Setup, s: string, db: Protocol, query: string, text: string, params: Params)
    returns (p: Process, c: Session)
    requires ValidSid(s) && (db.MySQL? || db.MongoDB?)
    requires ParamsOf(setup, Stamp(OpenPacket(db, query, text), s)) == Some(params)
    ensures Reachable(Pair(p, s, c)) && Opened(p, s, params) && Asking(c, s, db, query)
  {
    hide Reachable, Pair, ParamsOf;
    var open := OpenPacket(db, query, text);
    var c0 := NewSession(0, Queries(db, query, text));
    Connects(setup, s, db, query, text);
    OpensSession(setup, s, open, params, c0);
    var p0 := OpenedProcess(setup, s, open, params);
    var ok := OpenOkPacket(s, Stamp(open, s), params.command);
    var c1 := c0.(forwarded := 1);
    OpenedShape(setup, s, open, params);
    BeginShape(db, query, text);
    hide OpenedProcess, NewSession, OnPacket, Grown;
    p, c := AnswerTravels(p0, s, c1, 3, ok);
    OpenedStays(setup, s, open, params, p);
    AsksNext(db, s, query, text, ok, c);
  }

  lemma OpenedShape(setup: Setup, s: string, open: Packet, params: Params)
    ensures var p := OpenedProcess(setup, s, open, params);
            && |p.tasks| == 4 && p.tasks[3].acts == [Send(OpenOkPacket(s, Stamp(open, s), params.command))]
            && p.running && p.carrying.None? && p.routed == |p.emitted|
  {
  }

  lemma BeginShape(db: Protocol, query: string, text: string)
    requires db.MySQL? || db.MongoDB?
    ensures var c := NewSession(0, Queries(db, query, text));
            && c.agent == 0 && c.phase == Serving && c.forwarded == 0 && c.sent == [Up(OpenPacket(db, query, text), false)]
            && !c.closed && !c.broken && c.consumed == |c.delivered| && c.kind.Querying? && c.kind.st.status == Running
  {
  }

  lemma OpenedStays(setup: Setup, s: string, open: Packet, params: Params, p: Process)
    requires var q := OpenedProcess(setup, s, open, params);
             p == Pop(q, 3).(emitted := p.emitted, routed := p.routed) && p.routed == |p.emitted|
    ensures Opened(p, s, params)
  {
    hide Stamp, OpenOkPacket;
  }

  /** Having read SessionOpenOK, the client has sent its query. */
  lemma AsksNext(db: Protocol, s: string, query: string, text: string, ok: Packet, c: Session)
    requires (db.MySQL? || db.MongoDB?) && ok.typ == SessionOpenOK && SidOf(ok) == s
    requires var c1 := NewSession(0, Queries(db, query, text)).(forwarded := 1); Grown(c1, c, OnPacket(c1.kind.st, ok))
    ensures Asking(c, s, db, query)
  {
  }

  /** The query is sent and not yet forwarded. */
  predicate Asking(c: Session, s: string, db: Protocol, query: string) {
    && c.agent == 0 && c.phase == Serving && !c.closed && !c.broken && c.consumed == |c.delivered|
    && c.forwarded == 1 && |c.sent| == 2 && c.sent[1] == Up(QueryPacket(db, s, query), true)
    && c.kind.Querying? && c.kind.st.status == Running && c.kind.st.db == db && c.kind.st.query == query
    && c.kind.st.results == ""
  }

  /** The agent after it has taken the query and run its command. */
  lemma RunsQuery(p: Process, s: string, c: Session, db: Protocol, query: string, params: Params, output: string, code: Int64)
    returns (q: Process, acts: seq<Act>)
    requires ValidSid(s) && (db.MySQL? || db.MongoDB?)
    requires Reachable(Pair(p, s, c)) && Opened(p, s, params) && Asking(c, s, db, query)
    ensures Reachable(Pair(q, s, c.(forwarded := 2)))
    ensures q.running && q.carrying.None? && q.routed == |q.emitted| && q.current < |q.tasks|
    ensures q.runs == [Execution(s, db, query, params, output, code)]
    ensures q.tasks[q.current].acts == acts && Replies(acts, s, db, output, code)
  {
    hide Reachable, ToText;
    var up := c.sent[1];
    GatewayStepsOn(p, s, c);
    var p1 := ForwardTo(p, up, s);
    var pkt := Stamp(up.pkt, s);
    assert p1.arrivals[p1.taken].pkt == pkt;
    assert pkt.payload == query && ConnOf(pkt) == "web-conn-1";
    AgentStepsOn(p1, s, c.(forwarded := 2), Take(Executes(output, code)));
    q := Step(p1, Take(Executes(output, code))).value;
    acts := QueryReplies(pkt, db, output, code);
    assert q.tasks[q.current].acts == acts;
  }

  /** The command's output, if any, and then the close with its exit code. */
  predicate Replies(acts: seq<Act>, s: string, db: Protocol, output: string, code: Int64) {
    && |acts| == (if output == "" then 1 else 2)
    && acts[|acts| - 1] == Send(ClosePacket(s, if code == 0 then "" else "failed", ToText(code)))
    && (output != "" ==>
          && acts[0].Send? && acts[0].p.typ == ClientWrite(db) && acts[0].p.payload == output && SidOf(acts[0].p) == s)
  }

  /** Every answer is possible, on every agent that can open the session. */
  lemma QueryCanReturn(setup: Setup, s: string, db: Protocol, query: string, text: string, params: Params, output: string, code: Int64)
    requires ValidSid(s) && (db.MySQL? || db.MongoDB?)
    requires ParamsOf(setup, Stamp(OpenPacket(db, query, text), s)) == Some(params)
    ensures exists p, c ::
              && Reachable(Pair(p, s, c)) && p.runs == [Execution(s, db, query, params, output, code)]
              && c.kind.Querying? && c.kind.st.status == Returned(true)
              && c.kind.st.query == query && c.kind.st.results == output && c.kind.st.exitCode == code
  {
    hide Reachable, Pair, Opened, ToText, OnPacket, ParamsOf, Replies;
    var p, c := ReachesQuery(setup, s, db, query, text, params);
    var q, acts := RunsQuery(p, s, c, db, query, params, output, code);
    var r, d := RepliesTravel(q, s, c.(forwarded := 2), acts, db, output, code);
  }

  /** The replies of a query's command travel to the client one after the other. */
  lemma RepliesTravel(q: Process, s: string, c: Session, acts: seq<Act>, db: Protocol, output: string, code: Int64)
    returns (r: Process, d: Session)
    requires Reachable(Pair(q, s, c)) && q.current < |q.tasks| && q.tasks[q.current].acts == acts && Replies(acts, s, db, output, code)
    requires q.running && q.carrying.None? && q.routed == |q.emitted|
    requires !c.closed && !c.broken && c.consumed == |c.delivered| && c.kind.Querying?
    requires c.kind.st.status == Running && c.kind.st.db == db && c.kind.st.results == ""
    ensures Reachable(Pair(r, s, d)) && r.runs == q.runs && d.kind.Querying?
    ensures var st := d.kind.st;
            st.status == Returned(true) && st.query == c.kind.st.query && st.results == output && st.exitCode == code
  {
    hide Reachable, Pair, ToText, OnPacket;
    RepliesRead(c.kind.st, acts, s, output, code);
    var i := q.current;
    r, d := q, c;
    if output != "" {
      r, d := AnswerTravels(q, s, c, i, acts[0].p);
      assert acts[1..][0] == acts[1];
    }
    r, d := AnswerTravels(r, s, d, i, acts[|acts| - 1].p);
  }

  lemma RepliesRead(st: QueryState, acts: seq<Act>, s: string, output: string, code: Int64)
    requires st.status == Running && st.results == "" && Replies(acts, s, st.db, output, code)
    ensures output != "" ==> OnPacket(st, acts[0].p).status == Running
    ensures var r := OnPacket(if output == "" then st else OnPacket(st, acts[0].p), acts[|acts| - 1].p);
            r.status == Returned(true) && r.query == st.query && r.results == output && r.exitCode == code
  {
    hide ToText, Scan;
    ScanToText(code);
  }

  /** There are such agents. */
  lemma PlainQueryOpens(s: string, db: Protocol, query: string, text: string)
    requires text != ""
    ensures ParamsOf(PLAIN_SETUP, Stamp(OpenPacket(db, query, text), s)).Some?
  {
  }
}
