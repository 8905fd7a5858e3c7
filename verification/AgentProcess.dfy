/**
  One agent process as a state machine over its atomic steps: taking a packet from its
  stream, performing the next act of some goroutine, output of a live proxy, and a proxy
  calling back.  Queues are kept as histories with a cursor.
 */
module AgentProcess {
  import opened Selection
  import opened Decimal
  import opened Wire
  import opened ConnKeys
  import opened SessionSetup
  import opened AgentHandlers

  /** A client packet on its way to the agent.  `afterOk` is a history tag: the client had
      already read SessionOpenOK when it sent this packet. */
  datatype Up = Up(pkt: Packet, afterOk: bool)

  /** A goroutine's remaining acts; `cause` indexes the packet whose handler created it. */
  datatype Task = Task(cause: nat, acts: seq<Act>)

  datatype Live = Live(cause: nat, proxy: Proxy)

  /** A packet the agent sent, with the packet that caused it. */
  datatype Msg = Msg(cause: nat, pkt: Packet)

  /** Parameters that the handler of packet `cause` decoded and stored. */
  datatype Opening = Opening(cause: nat, params: Params)

  /** Bytes from packet `cause` handed to a connection, when `at` packets had been taken. */
  datatype Handed = Handed(cause: nat, at: nat, input: Input)

  /** Proxy `live` called back with an exit code and a message. */
  datatype Report = Report(live: nat, code: Int64, msg: string)

  datatype Process = Process(
    name: string, running: bool,     // gateway registry id; whether the gateway handler is alive
    arrivals: seq<Up>, taken: nat,   // forwarded by the gateway; dispatched so far
    store: Store,
    tasks: seq<Task>, current: nat,  // `current` is the dispatch loop's own task
    proxies: seq<Live>,
    emitted: seq<Msg>, routed: nat,  // sent by the agent; received so far by the gateway handler
    carrying: Option<Msg>,           // a packet whose session the gateway handler has looked up
    runs: seq<Execution>,
    missed: set<nat>,                // causes whose handler found no connection parameters
    opens: seq<Opening>,             // parameters decoded and stored
    lookups: seq<Option<nat>>,       // for each packet taken, the stored connection its handler found
    inputs: seq<Handed>,             // bytes handed to connections
    reports: seq<Report>,            // what connections, executions and terminals reported at their end
    setup: Setup)                    // the agent's configuration and surroundings

  datatype AgentStep =
    | Take(out: Outcome)
    | Perform(i: nat)
    | Emit(i: nat, typ: PacketType, payload: string)
    | CallBack(i: nat, code: Int64, msg: string)

  /** The dispatch loop takes the next packet only when the previous handler has returned. */
  predicate LoopIdle(p: Process) {
    p.current < |p.tasks| ==> p.tasks[p.current].acts == []
  }

  function PerformAct(p: Process, cause: nat, act: Act): (r: Process) {
    match act
    case Send(q) => p.(emitted := p.emitted + [Msg(cause, q)])
    case Put(k, proxy) => p.(store := p.store[k := ConnEntry(proxy)])
    case Del(k) => p.(store := p.store - {k})
    case Start(proxy) => p.(proxies := p.proxies + [Live(cause, proxy)])
    case Write(input) => p.(inputs := p.inputs + [Handed(cause, p.taken, input)])
  }

  function Pop(p: Process, i: nat): (r: Process)
    requires i < |p.tasks| && p.tasks[i].acts != []
  {
    p.(tasks := p.tasks[i := p.tasks[i].(acts := p.tasks[i].acts[1..])])
  }

  /** The turn of the next packet. */
  function TurnOf(p: Process): (t: Turn) {
    Turn(p.setup, p.taken)
  }

  function TakeStep(p: Process, out: Outcome): (r: Option<Process>) {
    if p.taken >= |p.arrivals| || !LoopIdle(p) then None
    else
      var re := Handle(TurnOf(p), p.store, p.arrivals[p.taken].pkt, out);
      if re.None? then None
      else
        Some(React(p, re.value))
  }

  function React(p: Process, re: Reaction): (r: Process) {
    p.(taken := p.taken + 1,
       store := re.store,
       tasks := p.tasks + [Task(p.taken, re.main), Task(p.taken, re.spawn)],
       current := |p.tasks|,
       runs := if re.run.Some? then p.runs + [re.run.value] else p.runs,
       missed := if re.missing then p.missed + {p.taken} else p.missed,
       opens := if re.decoded.Some? then p.opens + [Opening(p.taken, re.decoded.value)] else p.opens,
       lookups := p.lookups + [re.found],
       inputs := if re.input.Some? then p.inputs + [Handed(p.taken, p.taken + 1, re.input.value)] else p.inputs)
  }

  function Step(p: Process, l: AgentStep): (r: Option<Process>) {
    match l
    case Take(out) => TakeStep(p, out)
    case Perform(i) =>
      if i >= |p.tasks| || p.tasks[i].acts == [] then None
      else
        Some(PerformAct(Pop(p, i), p.tasks[i].cause, p.tasks[i].acts[0]))
    case Emit(i, typ, payload) =>
      if i >= |p.proxies| || typ !in p.proxies[i].proxy.types then None
      else
        var v := p.proxies[i];
        Some(p.(emitted := p.emitted + [Msg(v.cause, Packet(typ, payload, v.proxy.spec))]))
    case CallBack(i, code, msg) =>
      if i >= |p.proxies| then None
      else
        var v := p.proxies[i];
        Some(p.(tasks := p.tasks + [Task(v.cause, CallbackActs(v.proxy, code, msg))],
                reports := p.reports + [Report(i, code, msg)]))
  }

  // ---- What every step of an agent keeps -------------------------------------------------

  /** Everything a proxy can ever send or touch belongs to session `sid`. */
  predicate ProxyOwned(proxy: Proxy, sid: string) {
    && Get(proxy.spec, SessionId) == sid
    && SessionOpenOK !in proxy.types
    && proxy.key.sid == sid && !proxy.key.ParamsKey?
  }

  predicate ActOwned(act: Act, sid: string, store: Store) {
    match act
    case Send(q) => SidOf(q) == sid && (q.typ == SessionOpenOK ==> ParamsKey(sid) in store)
    case Put(k, proxy) => ProxyOwned(proxy, sid) && k == proxy.key && ParamsKey(sid) in store
    case Del(k) => k.sid == sid && !k.ParamsKey?
    case Start(proxy) => ProxyOwned(proxy, sid)
    case Write(input) => input.key.sid == sid
  }

  predicate ActsOwned(acts: seq<Act>, sid: string, store: Store) {
    forall i :: 0 <= i < |acts| ==> ActOwned(acts[i], sid, store)
  }

  function CauseSid(p: Process, cause: nat): (s: string) {
    if cause < |p.arrivals| then SidOf(p.arrivals[cause].pkt) else ""
  }

  predicate TaskOwned(p: Process, t: Task) {
    t.cause < p.taken && ActsOwned(t.acts, CauseSid(p, t.cause), p.store)
  }

  predicate LiveOwned(p: Process, v: Live) {
    v.cause < p.taken && ProxyOwned(v.proxy, CauseSid(p, v.cause))
  }

  predicate MsgOwned(p: Process, m: Msg) {
    && m.cause < p.taken
    && SidOf(m.pkt) == CauseSid(p, m.cause)
    && (m.pkt.typ == SessionOpenOK ==> ParamsKey(SidOf(m.pkt)) in p.store)
  }

  /** Every stored connection, exec or terminal entry has parameters stored for its session. */
  predicate StoreOwned(store: Store) {
    forall k :: k in store ==>
      && (k.ParamsKey? <==> store[k].ParamsEntry?)
      && (store[k].ConnEntry? ==> ProxyOwned(store[k].proxy, k.sid))
      && ParamsKey(k.sid) in store
  }

  /** The agent has taken a packet of session `sid`. */
  predicate Seen(p: Process, sid: string) {
    exists i | 0 <= i < p.taken && i < |p.arrivals| :: SidOf(p.arrivals[i].pkt) == sid
  }

  ghost predicate Owned(p: Process) {
    && p.taken <= |p.arrivals|
    && p.routed <= |p.emitted|
    && (p.carrying.Some? ==> p.routed > 0 && p.carrying.value == p.emitted[p.routed - 1])
    && StoreOwned(p.store)
    && (forall i :: 0 <= i < |p.tasks| ==> TaskOwned(p, p.tasks[i]))
    && (forall i :: 0 <= i < |p.proxies| ==> LiveOwned(p, p.proxies[i]))
    && (forall i :: 0 <= i < |p.emitted| ==> MsgOwned(p, p.emitted[i]))
    && (forall i :: 0 <= i < |p.arrivals| && p.arrivals[i].afterOk ==> ParamsKey(SidOf(p.arrivals[i].pkt)) in p.store)
    && (forall c :: c in p.missed ==> c < p.taken && !p.arrivals[c].afterOk)
    && (forall k :: k in p.store ==> Seen(p, k.sid))
    && (forall i :: 0 <= i < |p.runs| ==> Seen(p, p.runs[i].sid))
  }

  /** How an agent's own steps may change what the rest of the system can see. */
  predicate Advances(p: Process, r: Process) {
    && r.name == p.name && r.running == p.running
    && r.arrivals == p.arrivals && p.taken <= r.taken
    && p.emitted <= r.emitted && r.routed == p.routed && r.carrying == p.carrying
    && forall k :: k in p.store && k.ParamsKey? ==> k in r.store
  }

  /** A reaction that acts only on behalf of session `sid` and forgets no parameters. */
  predicate ReactionOwned(store: Store, sid: string, r: Reaction) {
    && StoreOwned(r.store)
    && (forall k :: k in store && k.ParamsKey? ==> k in r.store)
    && ActsOwned(r.main, sid, r.store)
    && ActsOwned(r.spawn, sid, r.store)
    && (r.missing ==> ParamsKey(sid) !in store)
    && (forall k :: k in r.store ==> k in store || k == ParamsKey(sid))
    && (r.run.Some? ==> r.run.value.sid == sid)
  }

  lemma CloseOwned(sid: string, msg: string, code: string, store: Store)
    ensures ActsOwned(CloseWithCode(sid, msg, code), sid, store)
    ensures ActsOwned(Close(sid, msg), sid, store)
  {
  }

  lemma OpenOwned(t: Turn, store: Store, pkt: Packet, out: Outcome)
    requires StoreOwned(store) && OpenSession(t, store, pkt, out).Some?
    ensures ReactionOwned(store, SidOf(pkt), OpenSession(t, store, pkt, out).value)
  {
    hide ParamsOf, ReactionOwned;
    if out.OpenFails? {
      RespondOwned(store, SidOf(pkt), OpenSession(t, store, pkt, out).value.main);
    } else {
      OpensOwned(store, pkt, ParamsOf(t.setup, pkt).value, OpenSession(t, store, pkt, out).value);
    }
  }

  lemma RespondOwned(store: Store, sid: string, acts: seq<Act>)
    requires StoreOwned(store) && ActsOwned(acts, sid, store)
    ensures ReactionOwned(store, sid, Respond(store, acts))
  {
  }

  lemma OpensOwned(store: Store, pkt: Packet, params: Params, r: Reaction)
    requires StoreOwned(store) && r.store == store[ParamsKey(SidOf(pkt)) := ParamsEntry(params)]
    requires r.main == [] && ActsOwned(r.spawn, SidOf(pkt), r.store) && !r.missing && r.run.None?
    ensures ReactionOwned(store, SidOf(pkt), r)
  {
  }

  lemma RepliesOwned(store: Store, pkt: Packet, db: Protocol, output: string, code: Int64)
    ensures ActsOwned(QueryReplies(pkt, db, output, code), SidOf(pkt), store)
  {
  }

  lemma QueryOwned(store: Store, pkt: Packet, db: Protocol, out: Outcome)
    requires StoreOwned(store) && RunQuery(store, pkt, db, out).Some?
    ensures ReactionOwned(store, SidOf(pkt), RunQuery(store, pkt, db, out).value)
  {
    var sid := SidOf(pkt);
    if HasParams(store, sid) && !HasConn(store, ConnKey(sid, ConnOf(pkt))) && out.Executes? {
      RepliesOwned(store, pkt, db, out.output, out.code);
    }
    CloseOwned(sid, PARAMS_NOT_FOUND, INTERNAL_EXIT_CODE, store);
  }

  lemma NewProxyOwned(t: Turn, pkt: Packet, proto: Protocol, cb: Callback)
    ensures ProxyOwned(NewProxy(t, pkt, proto, cb), SidOf(pkt))
  {
  }

  lemma ConnectOwned(t: Turn, store: Store, pkt: Packet, proto: Protocol, out: Outcome)
    requires StoreOwned(store) && HasParams(store, SidOf(pkt)) && ConnectProxy(t, store, pkt, proto, out).Some?
    ensures ReactionOwned(store, SidOf(pkt), ConnectProxy(t, store, pkt, proto, out).value)
  {
    NewProxyOwned(t, pkt, proto, if proto.SSH? then ForgetAndClose else CloseOnDone);
    if out.ProxyStartsWriteFails? || out.ProxyFails? {
      CloseOwned(SidOf(pkt), "connect: " + out.reason, INTERNAL_EXIT_CODE, store);
    }
  }

  lemma ProxyWriteOwned(t: Turn, store: Store, pkt: Packet, proto: Protocol, out: Outcome)
    requires StoreOwned(store) && ProxyWrite(t, store, pkt, proto, out).Some?
    ensures ReactionOwned(store, SidOf(pkt), ProxyWrite(t, store, pkt, proto, out).value)
  {
    if HasParams(store, SidOf(pkt)) && ConnectProxy(t, store, pkt, proto, out).Some? {
      ConnectOwned(t, store, pkt, proto, out);
    }
  }

  lemma CopierOwned(t: Turn, pkt: Packet, proxy: Proxy, out: Outcome, store: Store)
    requires ProxyOwned(proxy, SidOf(pkt))
    ensures ActsOwned(Copier(t, pkt, proxy, out), SidOf(pkt), store)
  {
  }

  lemma ConnectDirectOwned(t: Turn, store: Store, pkt: Packet, proto: Protocol, out: Outcome)
    requires StoreOwned(store) && HasParams(store, SidOf(pkt)) && ConnectDirect(t, store, pkt, proto, out).Some?
    ensures ReactionOwned(store, SidOf(pkt), ConnectDirect(t, store, pkt, proto, out).value)
  {
    hide Copier;
    var proxy := NewProxy(t, pkt, proto, if proto.TCP? then CopyFinished else NoCallback);
    NewProxyOwned(t, pkt, proto, proxy.cb);
    CopierOwned(t, pkt, proxy, out, store);
    if out.ProxyFails? {
      CloseOwned(SidOf(pkt), "connect: " + out.reason, INTERNAL_EXIT_CODE, store);
    }
  }

  lemma DirectWriteOwned(t: Turn, store: Store, pkt: Packet, proto: Protocol, out: Outcome)
    requires StoreOwned(store) && DirectWrite(t, store, pkt, proto, out).Some?
    ensures ReactionOwned(store, SidOf(pkt), DirectWrite(t, store, pkt, proto, out).value)
  {
    hide ConnectDirect;
    if ConnectDirect(t, store, pkt, proto, out).Some? && HasParams(store, SidOf(pkt)) {
      ConnectDirectOwned(t, store, pkt, proto, out);
    }
    if out.WriteFails? {
      CloseOwned(SidOf(pkt), "write: " + out.reason, INTERNAL_EXIT_CODE, store);
    }
  }

  lemma TerminalOwned(t: Turn, store: Store, pkt: Packet, out: Outcome)
    requires StoreOwned(store)
    ensures Exec(t, store, pkt, out).Some? ==> ReactionOwned(store, SidOf(pkt), Exec(t, store, pkt, out).value)
    ensures TerminalWrite(t, store, pkt, out).Some? ==> ReactionOwned(store, SidOf(pkt), TerminalWrite(t, store, pkt, out).value)
  {
  }

  /** A handler acts only on behalf of the session stamped on its packet. */
  lemma HandleOwned(t: Turn, store: Store, pkt: Packet, out: Outcome)
    requires StoreOwned(store) && Handle(t, store, pkt, out).Some?
    ensures ReactionOwned(store, SidOf(pkt), Handle(t, store, pkt, out).value)
  {
    hide OpenSession, Exec, RunQuery, DirectWrite, ProxyWrite, TerminalWrite, Contains, Render;
    match pkt.typ
    case SessionOpen => OpenOwned(t, store, pkt, out);
    case AgentWrite(proto) =>
      if proto.MySQL? || proto.MongoDB? {
        QueryOwned(store, pkt, proto, out);
      } else if proto.TCP? || proto.HttpProxy? {
        DirectWriteOwned(t, store, pkt, proto, out);
      } else {
        ProxyWriteOwned(t, store, pkt, proto, out);
      }
    case _ => TerminalOwned(t, store, pkt, out);
  }

  lemma CallbackActsOwned(proxy: Proxy, code: Int64, msg: string, sid: string, store: Store)
    requires ProxyOwned(proxy, sid)
    ensures ActsOwned(CallbackActs(proxy, code, msg), sid, store)
  {
  }

  /** Tasks, proxies and messages stay owned when parameters are only added. */
  lemma OwnedFrame(p: Process, r: Process)
    requires r.arrivals == p.arrivals && p.taken <= r.taken
    requires forall k :: k in p.store && k.ParamsKey? ==> k in r.store
    ensures forall t :: TaskOwned(p, t) ==> TaskOwned(r, t)
    ensures forall v :: LiveOwned(p, v) ==> LiveOwned(r, v)
    ensures forall m :: MsgOwned(p, m) ==> MsgOwned(r, m)
    ensures forall s :: Seen(p, s) ==> Seen(r, s)
  {
    forall t | TaskOwned(p, t) ensures TaskOwned(r, t) {
      var sid := CauseSid(p, t.cause);
      forall i | 0 <= i < |t.acts| ensures ActOwned(t.acts[i], sid, r.store) {
        assert ActOwned(t.acts[i], sid, p.store);
      }
    }
  }

  lemma ReactOwned(p: Process, re: Reaction)
    requires Owned(p) && p.taken < |p.arrivals|
    requires ReactionOwned(p.store, SidOf(p.arrivals[p.taken].pkt), re)
    ensures Owned(React(p, re)) && Advances(p, React(p, re))
  {
    hide TaskOwned, LiveOwned, MsgOwned, StoreOwned, Seen, ActsOwned;
    var r := React(p, re);
    OwnedFrame(p, r);
    NewTasksOwned(p, re);
    forall i | 0 <= i < |r.tasks| ensures TaskOwned(r, r.tasks[i]) {
      if i < |p.tasks| {
        assert TaskOwned(p, p.tasks[i]);
      }
    }
  }

  lemma NewTasksOwned(p: Process, re: Reaction)
    requires p.taken < |p.arrivals| && ReactionOwned(p.store, SidOf(p.arrivals[p.taken].pkt), re)
    ensures var r := React(p, re);
            && Seen(r, SidOf(r.arrivals[p.taken].pkt))
            && TaskOwned(r, r.tasks[|p.tasks|]) && TaskOwned(r, r.tasks[|p.tasks| + 1])
  {
  }

  lemma PopOwned(p: Process, i: nat)
    requires Owned(p) && i < |p.tasks| && p.tasks[i].acts != []
    ensures Owned(Pop(p, i))
    ensures ActOwned(p.tasks[i].acts[0], CauseSid(p, p.tasks[i].cause), p.store)
  {
    var t := p.tasks[i];
    assert TaskOwned(p, t);
    OwnedFrame(p, Pop(p, i));
  }

  lemma PerformActOwned(p: Process, cause: nat, act: Act)
    requires Owned(p) && cause < p.taken
    requires ActOwned(act, CauseSid(p, cause), p.store)
    ensures Owned(PerformAct(p, cause, act)) && Advances(p, PerformAct(p, cause, act))
  {
    hide TaskOwned, LiveOwned, MsgOwned, StoreOwned, Seen, ActOwned;
    var r := PerformAct(p, cause, act);
    ActEffect(p, cause, act);
    OwnedFrame(p, r);
  }

  /** What one act adds is owned, and it forgets no parameters. */
  lemma ActEffect(p: Process, cause: nat, act: Act)
    requires StoreOwned(p.store) && cause < p.taken <= |p.arrivals| && ActOwned(act, CauseSid(p, cause), p.store)
    ensures var r := PerformAct(p, cause, act);
            && StoreOwned(r.store)
            && (forall k :: k in p.store && k.ParamsKey? ==> k in r.store)
            && (forall k :: k in r.store ==> k in p.store || Seen(p, k.sid))
            && (act.Send? ==> MsgOwned(r, Msg(cause, act.p)))
            && (act.Start? ==> LiveOwned(r, Live(cause, act.proxy)))
  {
    assert Seen(p, CauseSid(p, cause));
  }

  lemma TakeOwned(p: Process, out: Outcome)
    requires Owned(p) && TakeStep(p, out).Some?
    ensures Owned(TakeStep(p, out).value) && Advances(p, TakeStep(p, out).value)
  {
    var pkt := p.arrivals[p.taken].pkt;
    HandleOwned(TurnOf(p), p.store, pkt, out);
    ReactOwned(p, Handle(TurnOf(p), p.store, pkt, out).value);
  }

  lemma PerformOwned(p: Process, i: nat)
    requires Owned(p) && i < |p.tasks| && p.tasks[i].acts != []
    ensures Owned(Step(p, Perform(i)).value) && Advances(p, Step(p, Perform(i)).value)
  {
    assert TaskOwned(p, p.tasks[i]);
    PopOwned(p, i);
    PerformActOwned(Pop(p, i), p.tasks[i].cause, p.tasks[i].acts[0]);
  }

  lemma EmitOwned(p: Process, l: AgentStep)
    requires Owned(p) && l.Emit? && Step(p, l).Some?
    ensures Owned(Step(p, l).value) && Advances(p, Step(p, l).value)
  {
    assert LiveOwned(p, p.proxies[l.i]);
    OwnedFrame(p, Step(p, l).value);
  }

  lemma CallBackOwned(p: Process, l: AgentStep)
    requires Owned(p) && l.CallBack? && Step(p, l).Some?
    ensures Owned(Step(p, l).value) && Advances(p, Step(p, l).value)
  {
    var v := p.proxies[l.i];
    assert LiveOwned(p, v);
    CallbackActsOwned(v.proxy, l.code, l.msg, CauseSid(p, v.cause), p.store);
    OwnedFrame(p, Step(p, l).value);
  }

  /** Every step of an agent keeps ownership: whatever it stores, schedules or sends belongs
      to the session of the packet that caused it. */
  lemma StepOwned(p: Process, l: AgentStep)
    requires Owned(p) && Step(p, l).Some?
    ensures Owned(Step(p, l).value) && Advances(p, Step(p, l).value)
  {
    match l
    case Take(out) => TakeOwned(p, out);
    case Perform(i) => PerformOwned(p, i);
    case Emit(_, _, _) => EmitOwned(p, l);
    case CallBack(_, _, _) => CallBackOwned(p, l);
  }
}
