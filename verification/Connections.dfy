/**
  What connections, executions and terminals are handed.  A connection is told apart by the number
  of the packet that opened it.  It gets only payloads of its own session's packets that name it,
  each at most once; they come in order of arrival exactly when no later packet reaches a raw
  connection before its copier has written the opening payload.
 */
module Connections {
  import opened Selection
  import opened Decimal
  import opened Wire
  import opened ConnKeys
  import opened SessionSetup
  import opened AgentHandlers
  import opened AgentProcess
  import opened SessionProtocol
  import opened ProtocolInvariant
  import opened Reachability
  import Provenance
  import SessionTheorems

  /** The key a packet names. */
  function Target(pkt: Packet): (k: Option<StoreKey>) {
    match pkt.typ
    case AgentWrite(_) => Some(ConnKey(SidOf(pkt), ConnOf(pkt)))
    case ExecWriteStdin => Some(ExecKey(SidOf(pkt)))
    case TerminalWriteStdin => Some(CmdKey(SidOf(pkt)))
    case _ => None
  }

  /** The opening payload of such a packet is written by the copier, after the handler. */
  predicate Raw(pkt: Packet) {
    pkt.typ == AgentWrite(TCP) && ServerConnect !in pkt.spec
  }

  predicate Pending(acts: seq<Act>) {
    acts != [] && acts[0].Write?
  }

  /** Nothing but the first act writes. */
  predicate WritesFirst(acts: seq<Act>) {
    forall i :: 0 < i < |acts| ==> !acts[i].Write?
  }

  // ---- What handlers do ------------------------------------------------------------------

  /** An act of packet `number` touches only a connection that this packet names and opens. */
  predicate ActNamed(act: Act, number: nat, pkt: Packet) {
    match act
    case Put(k, proxy) => proxy.opener == number && Target(pkt) == Some(k)
    case Write(input) => input.conn == number && Target(pkt) == Some(input.key) && input.data == pkt.payload && Raw(pkt)
    case _ => true
  }

  predicate ActsNamed(acts: seq<Act>, number: nat, pkt: Packet) {
    forall i :: 0 <= i < |acts| ==> ActNamed(acts[i], number, pkt)
  }

  predicate ReactionNamed(t: Turn, store: Store, pkt: Packet, re: Reaction) {
    && (forall k :: k in re.store && re.store[k].ConnEntry? ==> k in store && store[k] == re.store[k])
    && ActsNamed(re.main, t.number, pkt) && ActsNamed(re.spawn, t.number, pkt)
    && NoWrites(re.main) && WritesFirst(re.spawn)
    && (Pending(re.spawn) ==> re.input.None? && re.found.None?)
    && (re.found.Some? ==> re.input.Some? && re.input.value.conn == re.found.value
                           && HasConn(store, re.input.value.key) && store[re.input.value.key].proxy.opener == re.found.value)
    && (re.input.Some? ==>
          && Target(pkt) == Some(re.input.value.key) && re.input.value.data == pkt.payload
          && (re.found.None? ==> re.input.value.conn == t.number))
  }

  lemma QueryNamed(t: Turn, store: Store, pkt: Packet, db: Protocol, out: Outcome)
    requires pkt.typ == AgentWrite(db)
    ensures var r := RunQuery(store, pkt, db, out); r.Some? ==> ReactionNamed(t, store, pkt, r.value)
  {
  }

  lemma ConnectNamed(t: Turn, store: Store, pkt: Packet, proto: Protocol, out: Outcome)
    requires pkt.typ == AgentWrite(proto)
    ensures var r := ConnectProxy(t, store, pkt, proto, out); r.Some? ==> ReactionNamed(t, store, pkt, r.value)
  {
  }

  lemma ConnectDirectNamed(t: Turn, store: Store, pkt: Packet, proto: Protocol, out: Outcome)
    requires pkt.typ == AgentWrite(proto)
    ensures var r := ConnectDirect(t, store, pkt, proto, out); r.Some? ==> ReactionNamed(t, store, pkt, r.value)
  {
  }

  lemma StoredNamed(t: Turn, store: Store, pkt: Packet, proto: Protocol, out: Outcome)
    requires pkt.typ == AgentWrite(proto) && HasConn(store, ConnKey(SidOf(pkt), ConnOf(pkt)))
    ensures var r := WriteToStored(store, pkt, out); r.Some? ==> ReactionNamed(t, store, pkt, r.value)
  {
  }

  lemma ProxyNamed(t: Turn, store: Store, pkt: Packet, proto: Protocol, out: Outcome)
    requires pkt.typ == AgentWrite(proto)
    ensures var r := ProxyWrite(t, store, pkt, proto, out); r.Some? ==> ReactionNamed(t, store, pkt, r.value)
  {
    hide ConnectProxy, WriteToStored;
    ConnectNamed(t, store, pkt, proto, out);
    if HasConn(store, ConnKey(SidOf(pkt), ConnOf(pkt))) {
      StoredNamed(t, store, pkt, proto, out);
    }
  }

  lemma DirectNamed(t: Turn, store: Store, pkt: Packet, proto: Protocol, out: Outcome)
    requires pkt.typ == AgentWrite(proto)
    ensures var r := DirectWrite(t, store, pkt, proto, out); r.Some? ==> ReactionNamed(t, store, pkt, r.value)
  {
    hide ConnectDirect, WriteToStored;
    ConnectDirectNamed(t, store, pkt, proto, out);
    if HasConn(store, ConnKey(SidOf(pkt), ConnOf(pkt))) {
      StoredNamed(t, store, pkt, proto, out);
    }
  }

  lemma ExecNamed(t: Turn, store: Store, pkt: Packet, out: Outcome)
    requires pkt.typ == ExecWriteStdin
    ensures var r := Exec(t, store, pkt, out); r.Some? ==> ReactionNamed(t, store, pkt, r.value)
  {
  }

  lemma TerminalNamed(t: Turn, store: Store, pkt: Packet, out: Outcome)
    requires pkt.typ == TerminalWriteStdin
    ensures var r := TerminalWrite(t, store, pkt, out); r.Some? ==> ReactionNamed(t, store, pkt, r.value)
  {
  }

  lemma OpenNamed(t: Turn, store: Store, pkt: Packet, out: Outcome)
    ensures var r := OpenSession(t, store, pkt, out); r.Some? ==> ReactionNamed(t, store, pkt, r.value)
  {
    hide ParamsOf;
  }

  lemma HandleNamed(t: Turn, store: Store, pkt: Packet, out: Outcome)
    requires Handle(t, store, pkt, out).Some?
    ensures ReactionNamed(t, store, pkt, Handle(t, store, pkt, out).value)
  {
    hide OpenSession, Exec, RunQuery, DirectWrite, ProxyWrite, TerminalWrite, Contains, Render;
    match pkt.typ
    case SessionOpen => OpenNamed(t, store, pkt, out);
    case AgentWrite(proto) =>
      QueryNamed(t, store, pkt, proto, out);
      ProxyNamed(t, store, pkt, proto, out);
      DirectNamed(t, store, pkt, proto, out);
    case ExecWriteStdin => ExecNamed(t, store, pkt, out);
    case TerminalWriteStdin => TerminalNamed(t, store, pkt, out);
    case _ =>
  }

  // ---- Every connection is named by the packets that reach it ----------------------------

  /** Connection `o` was opened by a packet that names key `k`. */
  predicate Opener(p: Process, o: nat, k: StoreKey) {
    o < p.taken && o < |p.arrivals| && Target(p.arrivals[o].pkt) == Some(k)
  }

  /** The handler of packet `t` found an older connection, opened under the key packet `t` names. */
  predicate FoundNamed(p: Process, t: nat)
    requires t < |p.lookups| && p.lookups[t].Some?
  {
    && t < |p.arrivals| && p.lookups[t].value < t && Target(p.arrivals[t].pkt).Some?
    && Opener(p, p.lookups[t].value, Target(p.arrivals[t].pkt).value)
  }

  /** What was handed to a connection is the payload of a packet that names it: the one that opened
      it, or one whose handler found it. */
  predicate HandedBy(p: Process, h: Handed) {
    && h.cause < p.taken && h.cause < |p.arrivals| && h.cause < |p.lookups|
    && h.input.data == p.arrivals[h.cause].pkt.payload
    && Target(p.arrivals[h.cause].pkt) == Some(h.input.key)
    && Opener(p, h.input.conn, h.input.key)
    && (h.input.conn == h.cause || p.lookups[h.cause] == Some(h.input.conn))
  }

  predicate TaskNamed(p: Process, t: Task) {
    t.cause < p.taken && t.cause < |p.arrivals| && ActsNamed(t.acts, t.cause, p.arrivals[t.cause].pkt)
  }

  ghost predicate Named(p: Process) {
    && p.taken <= |p.arrivals| && |p.lookups| == p.taken
    && (forall k :: k in p.store && p.store[k].ConnEntry? ==> Opener(p, p.store[k].proxy.opener, k))
    && (forall i :: 0 <= i < |p.tasks| ==> TaskNamed(p, p.tasks[i]))
    && (forall i :: 0 <= i < |p.proxies| ==> p.proxies[i].cause < p.taken)
    && (forall t :: 0 <= t < |p.lookups| && p.lookups[t].Some? ==> FoundNamed(p, t))
    && (forall i :: 0 <= i < |p.inputs| ==> HandedBy(p, p.inputs[i]))
  }

  /** Everything named stays so as packets arrive and are taken. */
  lemma NamedFrame(p: Process, r: Process)
    requires p.taken <= |p.arrivals| && p.arrivals <= r.arrivals && p.taken <= r.taken && p.lookups <= r.lookups
    ensures forall o, k :: Opener(p, o, k) ==> Opener(r, o, k)
    ensures forall h :: HandedBy(p, h) ==> HandedBy(r, h)
    ensures forall t :: TaskNamed(p, t) ==> TaskNamed(r, t)
    ensures forall t :: 0 <= t < |p.lookups| && p.lookups[t].Some? && FoundNamed(p, t) ==> FoundNamed(r, t)
  {
  }

  lemma NewNamed(p: Process, re: Reaction)
    requires Named(p) && p.taken < |p.arrivals| && ReactionNamed(TurnOf(p), p.store, p.arrivals[p.taken].pkt, re)
    ensures var r := React(p, re);
            && TaskNamed(r, Task(p.taken, re.main)) && TaskNamed(r, Task(p.taken, re.spawn))
            && (re.found.Some? ==> FoundNamed(r, p.taken))
            && (re.input.Some? ==> HandedBy(r, Handed(p.taken, p.taken + 1, re.input.value)))
  {
    hide ActNamed;
    var r := React(p, re);
    if re.found.Some? {
      var k := re.input.value.key;
      assert Opener(p, p.store[k].proxy.opener, k);
    }
  }

  lemma TakeNamed(p: Process, re: Reaction)
    requires Named(p) && p.taken < |p.arrivals| && ReactionNamed(TurnOf(p), p.store, p.arrivals[p.taken].pkt, re)
    ensures Named(React(p, re))
  {
    hide Opener, HandedBy, TaskNamed, FoundNamed;
    NamedFrame(p, React(p, re));
    NewNamed(p, re);
  }

  lemma PerformNamed(p: Process, i: nat)
    requires Named(p) && i < |p.tasks| && p.tasks[i].acts != []
    ensures Named(Step(p, Perform(i)).value)
  {
    var t := p.tasks[i];
    var r := Step(p, Perform(i)).value;
    assert TaskNamed(p, t);
    NamedFrame(p, r);
    ActDone(p, t);
    hide Opener, HandedBy, TaskNamed, FoundNamed, ActNamed;
    forall j | 0 <= j < |r.tasks| ensures TaskNamed(r, r.tasks[j]) { }
  }

  /** What the next act of a goroutine adds is named. */
  lemma ActDone(p: Process, t: Task)
    requires Named(p) && TaskNamed(p, t) && t.acts != []
    ensures TaskNamed(p, Task(t.cause, t.acts[1..]))
    ensures var act := t.acts[0];
            && (act.Put? ==> Opener(p, act.proxy.opener, act.k))
            && (act.Write? ==> HandedBy(p, Handed(t.cause, p.taken, act.input)))
  {
    assert ActNamed(t.acts[0], t.cause, p.arrivals[t.cause].pkt);
  }

  lemma CallBackNamed(p: Process, l: AgentStep)
    requires Named(p) && (l.CallBack? || l.Emit?) && Step(p, l).Some?
    ensures Named(Step(p, l).value)
  {
    hide Opener, HandedBy, FoundNamed;
    NamedFrame(p, Step(p, l).value);
    if l.CallBack? {
      CallbackNamed(p.proxies[l.i].proxy, l.code, l.msg, p.proxies[l.i].cause, p.arrivals[p.proxies[l.i].cause].pkt);
    }
  }

  lemma CallbackNamed(proxy: Proxy, code: Int64, msg: string, number: nat, pkt: Packet)
    ensures var acts := CallbackActs(proxy, code, msg); ActsNamed(acts, number, pkt) && NoWrites(acts)
  {
    hide ToText, Target, Raw, ClosePacket, TcpClosePacket;
  }

  lemma StepNamed(p: Process, l: AgentStep)
    requires Named(p) && Step(p, l).Some?
    ensures Named(Step(p, l).value)
  {
    hide Named;
    match l
    case Take(out) =>
      HandleNamed(TurnOf(p), p.store, p.arrivals[p.taken].pkt, out);
      TakeNamed(p, Handle(TurnOf(p), p.store, p.arrivals[p.taken].pkt, out).value);
    case Perform(i) => PerformNamed(p, i);
    case _ => CallBackNamed(p, l);
  }

  // ---- In what order ---------------------------------------------------------------------

  /** The opening payload of a connection, as against what later packets brought. */
  predicate IsOpening(h: Handed) { h.input.conn == h.cause }

  /** What the handler of packet `t` handed to the connection it found is on record. */
  ghost predicate Recorded(p: Process, t: nat)
    requires t < |p.lookups| && p.lookups[t].Some?
  {
    exists i :: 0 <= i < |p.inputs| && p.inputs[i].cause == t && p.inputs[i].input.conn == p.lookups[t].value && p.inputs[i].at == t + 1
  }

  /** When an input was handed over: at once, but for the opening payload of a raw connection. */
  predicate Timely(p: Process, h: Handed) {
    && h.cause < h.at <= p.taken && h.cause < |p.arrivals|
    && (h.at == h.cause + 1 || (IsOpening(h) && Raw(p.arrivals[h.cause].pkt)))
  }

  /** Of two inputs, the one handed over first. */
  predicate Before(h: Handed, g: Handed) {
    h.at <= g.at && h.cause != g.cause && (!IsOpening(g) ==> h.at <= g.cause)
  }

  /** A goroutine that still has its packet's payload to write. */
  predicate Owing(p: Process, t: Task) {
    WritesFirst(t.acts) && (Pending(t.acts) ==> t.cause < p.taken && t.acts[0].input.conn == t.cause)
  }

  ghost predicate Ordered(p: Process) {
    && p.taken <= |p.arrivals| && |p.lookups| == p.taken
    && (forall i :: 0 <= i < |p.inputs| ==> Timely(p, p.inputs[i]))
    && (forall i, j :: 0 <= i < j < |p.inputs| ==> Before(p.inputs[i], p.inputs[j]))
    && (forall t :: 0 <= t < |p.lookups| && p.lookups[t].Some? ==> Recorded(p, t))
    && (forall i :: 0 <= i < |p.tasks| ==> Owing(p, p.tasks[i]))
    && (forall i, k :: 0 <= i < |p.tasks| && Pending(p.tasks[i].acts) && 0 <= k < |p.inputs| ==> p.inputs[k].cause != p.tasks[i].cause)
    && (forall i, j :: 0 <= i < j < |p.tasks| && Pending(p.tasks[i].acts) && Pending(p.tasks[j].acts) ==> p.tasks[i].cause != p.tasks[j].cause)
  }

  lemma RecordKept(p: Process, r: Process, t: nat)
    requires t < |p.lookups| && p.lookups[t].Some? && Recorded(p, t) && p.lookups <= r.lookups && p.inputs <= r.inputs
    ensures Recorded(r, t)
  {
    var i :| 0 <= i < |p.inputs| && p.inputs[i].cause == t && p.inputs[i].input.conn == p.lookups[t].value && p.inputs[i].at == t + 1;
    assert r.inputs[i] == p.inputs[i];
  }

  lemma TakeOrdered(p: Process, re: Reaction)
    requires Ordered(p) && Named(p) && p.taken < |p.arrivals|
    requires ReactionNamed(TurnOf(p), p.store, p.arrivals[p.taken].pkt, re)
    ensures Ordered(React(p, re))
  {
    hide Named, Recorded, WritesFirst;
    var r := React(p, re);
    forall t | 0 <= t < |r.lookups| && r.lookups[t].Some? ensures Recorded(r, t) {
      if t < |p.lookups| {
        RecordKept(p, r, t);
      } else {
        NewRecord(p, re);
      }
    }
    NewOwing(p, re);
    TakeBefore(p, re);
    TakePending(p, re);
  }

  lemma NewRecord(p: Process, re: Reaction)
    requires |p.lookups| == p.taken && re.found.Some? && re.input.Some? && re.input.value.conn == re.found.value
    ensures Recorded(React(p, re), p.taken)
  {
    var r := React(p, re);
    assert r.inputs[|p.inputs|].cause == p.taken;
  }

  lemma NewOwing(p: Process, re: Reaction)
    requires p.taken < |p.arrivals| && ReactionNamed(TurnOf(p), p.store, p.arrivals[p.taken].pkt, re)
    ensures var r := React(p, re);
            Owing(r, Task(p.taken, re.main)) && Owing(r, Task(p.taken, re.spawn)) && !Pending(re.main)
  {
    assert re.spawn != [] ==> ActNamed(re.spawn[0], p.taken, p.arrivals[p.taken].pkt);
  }

  lemma TakeBefore(p: Process, re: Reaction)
    requires Ordered(p)
    ensures var r := React(p, re); forall i, j :: 0 <= i < j < |r.inputs| ==> Before(r.inputs[i], r.inputs[j])
  {
    hide Recorded, Owing, Pending;
    var r := React(p, re);
    forall i, j | 0 <= i < j < |r.inputs| ensures Before(r.inputs[i], r.inputs[j]) {
      assert Timely(p, p.inputs[i]);
      if j < |p.inputs| {
        assert Before(p.inputs[i], p.inputs[j]);
      }
    }
  }

  lemma TakePending(p: Process, re: Reaction)
    requires Ordered(p) && !Pending(re.main) && (Pending(re.spawn) ==> re.input.None?)
    ensures var r := React(p, re);
            && (forall i, k :: 0 <= i < |r.tasks| && Pending(r.tasks[i].acts) && 0 <= k < |r.inputs| ==> r.inputs[k].cause != r.tasks[i].cause)
            && (forall i, j :: 0 <= i < j < |r.tasks| && Pending(r.tasks[i].acts) && Pending(r.tasks[j].acts) ==> r.tasks[i].cause != r.tasks[j].cause)
  {
    hide Recorded, Before, WritesFirst, Pending;
    var r := React(p, re);
    var n := |p.tasks|;
    assert r.tasks[n].acts == re.main && r.tasks[n + 1].acts == re.spawn;
    forall i, k | 0 <= i < |r.tasks| && Pending(r.tasks[i].acts) && 0 <= k < |r.inputs| ensures r.inputs[k].cause != r.tasks[i].cause {
      if i < n {
        assert Owing(p, p.tasks[i]);
      }
      if k < |p.inputs| {
        assert Timely(p, p.inputs[k]);
      }
    }
    forall i, j | 0 <= i < j < |r.tasks| && Pending(r.tasks[i].acts) && Pending(r.tasks[j].acts) ensures r.tasks[i].cause != r.tasks[j].cause {
      if i < n {
        assert Owing(p, p.tasks[i]);
      }
    }
  }

  lemma PerformOrdered(p: Process, i: nat)
    requires Ordered(p) && Named(p) && i < |p.tasks| && p.tasks[i].acts != []
    ensures Ordered(Step(p, Perform(i)).value)
  {
    hide Recorded, Named;
    var t := p.tasks[i];
    var r := Step(p, Perform(i)).value;
    assert Owing(p, t);
    forall j | 0 <= j < |r.lookups| && r.lookups[j].Some? ensures Recorded(r, j) {
      RecordKept(p, r, j);
    }
    assert !Pending(t.acts[1..]) && WritesFirst(t.acts[1..]);
    if t.acts[0].Write? {
      LateWrite(p, i);
    } else {
      NotPending(p, r, i);
    }
  }

  /** A copier's write comes after everything handed over so far. */
  lemma LateWrite(p: Process, i: nat)
    requires Ordered(p) && Named(p) && i < |p.tasks| && Pending(p.tasks[i].acts)
    ensures var r := Step(p, Perform(i)).value;
            && (forall j :: 0 <= j < |r.inputs| ==> Timely(r, r.inputs[j]))
            && (forall j, k :: 0 <= j < k < |r.inputs| ==> Before(r.inputs[j], r.inputs[k]))
            && (forall j :: 0 <= j < |r.tasks| ==> Owing(r, r.tasks[j]))
            && (forall j, k :: 0 <= j < |r.tasks| && Pending(r.tasks[j].acts) && 0 <= k < |r.inputs| ==> r.inputs[k].cause != r.tasks[j].cause)
            && (forall j, k :: 0 <= j < k < |r.tasks| && Pending(r.tasks[j].acts) && Pending(r.tasks[k].acts) ==> r.tasks[j].cause != r.tasks[k].cause)
  {
    hide Recorded, HandedBy, FoundNamed, Opener;
    var t := p.tasks[i];
    assert Owing(p, t) && TaskNamed(p, t) && ActNamed(t.acts[0], t.cause, p.arrivals[t.cause].pkt);
    assert !Pending(t.acts[1..]) && WritesFirst(t.acts[1..]);
    hide Pending, WritesFirst, ActsNamed, TaskNamed, ActNamed;
    var r := Step(p, Perform(i)).value;
    var h := Handed(t.cause, p.taken, t.acts[0].input);
    assert r.inputs == p.inputs + [h] && r.tasks == p.tasks[i := Task(t.cause, t.acts[1..])];
    forall j | 0 <= j < |p.inputs| ensures Before(p.inputs[j], h) {
      assert Timely(p, p.inputs[j]);
    }
  }

  /** Any other act leaves inputs alone. */
  lemma NotPending(p: Process, r: Process, i: nat)
    requires Ordered(p) && i < |p.tasks| && p.tasks[i].acts != [] && !p.tasks[i].acts[0].Write? && r == Step(p, Perform(i)).value
    ensures r.inputs == p.inputs && r.taken == p.taken && r.arrivals == p.arrivals && r.lookups == p.lookups
    ensures r.tasks == p.tasks[i := Task(p.tasks[i].cause, p.tasks[i].acts[1..])]
  {
  }

  lemma CallBackOrdered(p: Process, l: AgentStep)
    requires Ordered(p) && Named(p) && (l.CallBack? || l.Emit?) && Step(p, l).Some?
    ensures Ordered(Step(p, l).value)
  {
    hide Recorded, HandedBy, FoundNamed, Opener, TaskNamed, Before;
    var r := Step(p, l).value;
    forall j | 0 <= j < |r.lookups| && r.lookups[j].Some? ensures Recorded(r, j) {
      RecordKept(p, r, j);
    }
    if l.CallBack? {
      var v := p.proxies[l.i];
      CallbackNamed(v.proxy, l.code, l.msg, v.cause, p.arrivals[v.cause].pkt);
      hide CallbackActs, ActsNamed;
      assert !Pending(CallbackActs(v.proxy, l.code, l.msg));
    }
  }

  lemma StepOrdered(p: Process, l: AgentStep)
    requires Ordered(p) && Named(p) && Step(p, l).Some?
    ensures Ordered(Step(p, l).value)
  {
    hide Ordered, Named;
    match l
    case Take(out) =>
      HandleNamed(TurnOf(p), p.store, p.arrivals[p.taken].pkt, out);
      TakeOrdered(p, Handle(TurnOf(p), p.store, p.arrivals[p.taken].pkt, out).value);
    case Perform(i) => PerformOrdered(p, i);
    case _ => CallBackOrdered(p, l);
  }

  /** The inputs of connection `o` so far are in the order in which their packets arrived. */
  ghost predicate InOrder(p: Process, o: nat) {
    forall i, j :: 0 <= i < j < |p.inputs| && p.inputs[i].input.conn == o && p.inputs[j].input.conn == o ==>
      p.inputs[i].cause < p.inputs[j].cause
  }

  /** Packet `t` found connection `o`, and was taken before the opening payload of `o`, input `i`,
      had been handed over. */
  predicate Overtakes(p: Process, o: nat, t: int, i: int) {
    && 0 <= i < |p.inputs| && p.inputs[i].input.conn == o && p.inputs[i].cause == o
    && o < t < p.inputs[i].at && t < |p.lookups| && p.lookups[t] == Some(o)
  }

  /** Exactly when a connection's inputs are in order: no packet finds it between the one that opened
      it and its opening payload being handed over. */
  lemma OrderedExactly(p: Process, o: nat)
    requires Ordered(p) && Named(p)
    ensures InOrder(p, o) <==> !exists t, i :: Overtakes(p, o, t, i)
  {
    hide Ordered, Named;
    if exists t, i :: Overtakes(p, o, t, i) {
      var t, j :| Overtakes(p, o, t, j);
      OvertakenOutOfOrder(p, o, t, j);
    } else {
      forall i, j | 0 <= i < j < |p.inputs| && p.inputs[i].input.conn == o && p.inputs[j].input.conn == o
        ensures p.inputs[i].cause < p.inputs[j].cause
      {
        PairInOrder(p, o, i, j);
      }
    }
  }

  lemma OvertakenOutOfOrder(p: Process, o: nat, t: int, j: int)
    requires Ordered(p) && Overtakes(p, o, t, j)
    ensures !InOrder(p, o)
  {
    hide Owing, Pending, WritesFirst, Timely;
    assert Recorded(p, t);
    var i :| 0 <= i < |p.inputs| && p.inputs[i].cause == t && p.inputs[i].input.conn == p.lookups[t].value && p.inputs[i].at == t + 1;
    assert j < i ==> Before(p.inputs[j], p.inputs[i]);
    assert i < j;
  }

  lemma PairInOrder(p: Process, o: nat, i: nat, j: nat)
    requires Ordered(p) && Named(p) && i < j < |p.inputs| && p.inputs[i].input.conn == o && p.inputs[j].input.conn == o
    requires !Overtakes(p, o, p.inputs[i].cause, j)
    ensures p.inputs[i].cause < p.inputs[j].cause
  {
    hide Owing, Pending, WritesFirst, Recorded, TaskNamed, Opener;
    var h, g := p.inputs[i], p.inputs[j];
    assert Before(h, g) && Timely(p, h) && Timely(p, g) && HandedBy(p, h) && HandedBy(p, g);
    if h.cause != o {
      assert FoundNamed(p, h.cause);
    }
    if g.cause != o {
      assert FoundNamed(p, g.cause);
    }
  }

  /** The inputs of every connection but a raw one with an opening payload are always in order. */
  lemma PromptInOrder(p: Process, o: nat)
    requires Ordered(p) && Named(p) && o < |p.arrivals| && !Raw(p.arrivals[o].pkt)
    ensures InOrder(p, o)
  {
    OrderedExactly(p, o);
    forall t, i ensures !Overtakes(p, o, t, i) {
      if 0 <= i < |p.inputs| {
        assert Timely(p, p.inputs[i]);
      }
    }
  }

  /** So are those of a raw one whose client sends nothing more for it until then. */
  lemma PatientInOrder(p: Process, o: nat)
    requires Ordered(p) && Named(p) && o < |p.arrivals|
    requires forall i, t :: 0 <= i < |p.inputs| && p.inputs[i].input.conn == o && p.inputs[i].cause == o && o < t < p.inputs[i].at && t < |p.arrivals| ==>
               Target(p.arrivals[t].pkt) != Target(p.arrivals[o].pkt)
    ensures InOrder(p, o)
  {
    OrderedExactly(p, o);
    forall t, i ensures !Overtakes(p, o, t, i) {
      if 0 <= t < |p.lookups| && p.lookups[t] == Some(o) {
        assert FoundNamed(p, t);
      }
    }
  }

  // ---- Replies carry the connection id ---------------------------------------------------

  /** What a connection's client is to get back. */
  predicate Reply(q: Packet) {
    q.typ.ClientWrite? || q.typ.ClientTCPClose?
  }

  predicate ProxyMarked(proxy: Proxy, pkt: Packet) {
    && (forall t :: t in proxy.types && t.ClientWrite? ==> Get(proxy.spec, ConnectionId) == ConnOf(pkt))
    && (forall t :: t in proxy.types ==> !t.ClientTCPClose?)
    && (proxy.key.ConnKey? ==> proxy.key.conn == ConnOf(pkt))
  }

  predicate ActMarked(act: Act, pkt: Packet) {
    match act
    case Send(q) => Reply(q) ==> ConnOf(q) == ConnOf(pkt)
    case Start(proxy) => ProxyMarked(proxy, pkt)
    case _ => true
  }

  predicate ActsMarked(acts: seq<Act>, pkt: Packet) {
    forall i :: 0 <= i < |acts| ==> ActMarked(acts[i], pkt)
  }

  predicate TaskMarked(p: Process, t: Task) {
    t.cause < p.taken && t.cause < |p.arrivals| && ActsMarked(t.acts, p.arrivals[t.cause].pkt)
  }

  predicate LiveMarked(p: Process, v: Live) {
    v.cause < p.taken && v.cause < |p.arrivals| && ProxyMarked(v.proxy, p.arrivals[v.cause].pkt)
  }

  predicate MsgMarked(p: Process, m: Msg) {
    && m.cause < p.taken && m.cause < |p.arrivals|
    && (Reply(m.pkt) ==> ConnOf(m.pkt) == ConnOf(p.arrivals[m.cause].pkt))
  }

  ghost predicate Marked(p: Process) {
    && p.taken <= |p.arrivals|
    && (forall i :: 0 <= i < |p.tasks| ==> TaskMarked(p, p.tasks[i]))
    && (forall i :: 0 <= i < |p.proxies| ==> LiveMarked(p, p.proxies[i]))
    && (forall i :: 0 <= i < |p.emitted| ==> MsgMarked(p, p.emitted[i]))
  }

  lemma CloseMarked(sid: string, msg: string, code: string, pkt: Packet)
    ensures ActsMarked(CloseWithCode(sid, msg, code), pkt) && ActsMarked(Close(sid, msg), pkt)
  {
  }

  lemma QueryMarked(store: Store, pkt: Packet, db: Protocol, out: Outcome)
    ensures var r := RunQuery(store, pkt, db, out); r.Some? ==> ActsMarked(r.value.main, pkt) && ActsMarked(r.value.spawn, pkt)
  {
    hide ToText;
  }

  lemma StoredMarked(store: Store, pkt: Packet, out: Outcome)
    ensures var r := WriteToStored(store, pkt, out); r.Some? ==> ActsMarked(r.value.main, pkt) && ActsMarked(r.value.spawn, pkt)
  {
  }

  lemma ConnectMarked(t: Turn, store: Store, pkt: Packet, proto: Protocol, out: Outcome)
    ensures var r := ConnectProxy(t, store, pkt, proto, out); r.Some? ==> ActsMarked(r.value.main, pkt) && ActsMarked(r.value.spawn, pkt)
    ensures var r := ConnectDirect(t, store, pkt, proto, out); r.Some? ==> ActsMarked(r.value.main, pkt) && ActsMarked(r.value.spawn, pkt)
  {
  }

  lemma ProxyWriteMarked(t: Turn, store: Store, pkt: Packet, proto: Protocol, out: Outcome)
    ensures var r := ProxyWrite(t, store, pkt, proto, out); r.Some? ==> ActsMarked(r.value.main, pkt) && ActsMarked(r.value.spawn, pkt)
    ensures var r := DirectWrite(t, store, pkt, proto, out); r.Some? ==> ActsMarked(r.value.main, pkt) && ActsMarked(r.value.spawn, pkt)
  {
    hide WriteToStored, ConnectProxy, ConnectDirect, ActMarked;
    StoredMarked(store, pkt, out);
    ConnectMarked(t, store, pkt, proto, out);
    CloseMarked(SidOf(pkt), PARAMS_NOT_FOUND, INTERNAL_EXIT_CODE, pkt);
    CloseMarked(SidOf(pkt), CONN_NOT_FOUND, INTERNAL_EXIT_CODE, pkt);
  }

  lemma TerminalMarked(t: Turn, store: Store, pkt: Packet, out: Outcome)
    ensures var r := Exec(t, store, pkt, out); r.Some? ==> ActsMarked(r.value.main, pkt) && ActsMarked(r.value.spawn, pkt)
    ensures var r := TerminalWrite(t, store, pkt, out); r.Some? ==> ActsMarked(r.value.main, pkt) && ActsMarked(r.value.spawn, pkt)
  {
  }

  lemma OpenMarked(t: Turn, store: Store, pkt: Packet, out: Outcome)
    ensures var r := OpenSession(t, store, pkt, out); r.Some? ==> ActsMarked(r.value.main, pkt) && ActsMarked(r.value.spawn, pkt)
  {
    hide ParamsOf;
  }

  lemma HandleMarked(t: Turn, store: Store, pkt: Packet, out: Outcome)
    requires Handle(t, store, pkt, out).Some?
    ensures var r := Handle(t, store, pkt, out).value; ActsMarked(r.main, pkt) && ActsMarked(r.spawn, pkt)
  {
    hide OpenSession, Exec, RunQuery, DirectWrite, ProxyWrite, TerminalWrite, Contains, Render;
    match pkt.typ
    case SessionOpen => OpenMarked(t, store, pkt, out);
    case AgentWrite(proto) =>
      QueryMarked(store, pkt, proto, out);
      ProxyWriteMarked(t, store, pkt, proto, out);
    case _ => TerminalMarked(t, store, pkt, out);
  }

  lemma CallbackMarked(proxy: Proxy, code: Int64, msg: string, pkt: Packet)
    requires ProxyMarked(proxy, pkt)
    ensures ActsMarked(CallbackActs(proxy, code, msg), pkt)
  {
    hide ToText;
  }

  lemma MarkedFrame(p: Process, r: Process)
    requires p.taken <= |p.arrivals| && p.arrivals <= r.arrivals && p.taken <= r.taken
    ensures forall t :: TaskMarked(p, t) ==> TaskMarked(r, t)
    ensures forall v :: LiveMarked(p, v) ==> LiveMarked(r, v)
    ensures forall m :: MsgMarked(p, m) ==> MsgMarked(r, m)
  {
  }

  lemma TakeMarked(p: Process, out: Outcome)
    requires Marked(p) && Step(p, Take(out)).Some?
    ensures Marked(Step(p, Take(out)).value)
  {
    var pkt := p.arrivals[p.taken].pkt;
    HandleMarked(TurnOf(p), p.store, pkt, out);
    var re := Handle(TurnOf(p), p.store, pkt, out).value;
    var r := React(p, re);
    assert TaskMarked(r, Task(p.taken, re.main)) && TaskMarked(r, Task(p.taken, re.spawn));
    MarkedFrame(p, r);
    hide TaskMarked, LiveMarked, MsgMarked, Handle;
    forall i | 0 <= i < |r.tasks| ensures TaskMarked(r, r.tasks[i]) {
      if i < |p.tasks| {
        assert TaskMarked(p, p.tasks[i]);
      }
    }
  }

  lemma PerformMarked(p: Process, i: nat)
    requires Marked(p) && i < |p.tasks| && p.tasks[i].acts != []
    ensures Marked(Step(p, Perform(i)).value)
  {
    var t := p.tasks[i];
    var r := Step(p, Perform(i)).value;
    assert TaskMarked(p, t) && ActMarked(t.acts[0], p.arrivals[t.cause].pkt);
    assert TaskMarked(r, Task(t.cause, t.acts[1..]));
    assert t.acts[0].Send? ==> MsgMarked(r, Msg(t.cause, t.acts[0].p));
    assert t.acts[0].Start? ==> LiveMarked(r, Live(t.cause, t.acts[0].proxy));
    MarkedFrame(p, r);
    hide TaskMarked, LiveMarked, MsgMarked;
    forall j | 0 <= j < |r.tasks| ensures TaskMarked(r, r.tasks[j]) { }
  }

  lemma ProxyStepMarked(p: Process, l: AgentStep)
    requires Marked(p) && (l.CallBack? || l.Emit?) && Step(p, l).Some?
    ensures Marked(Step(p, l).value)
  {
    var r := Step(p, l).value;
    var v := p.proxies[l.i];
    assert LiveMarked(p, v);
    if l.CallBack? {
      CallbackMarked(v.proxy, l.code, l.msg, p.arrivals[v.cause].pkt);
      assert TaskMarked(r, r.tasks[|p.tasks|]);
    } else {
      assert MsgMarked(r, r.emitted[|p.emitted|]);
    }
    MarkedFrame(p, r);
    hide TaskMarked, LiveMarked, MsgMarked;
  }

  lemma StepMarked(p: Process, l: AgentStep)
    requires Marked(p) && Step(p, l).Some?
    ensures Marked(Step(p, l).value)
  {
    hide Marked;
    match l
    case Take(out) => TakeMarked(p, out);
    case Perform(i) => PerformMarked(p, i);
    case _ => ProxyStepMarked(p, l);
  }

  // ---- Every run -------------------------------------------------------------------------

  ghost predicate Kept(p: Process) {
    Named(p) && Ordered(p) && Marked(p)
  }

  ghost predicate AllKept(st: State) {
    forall a :: a in st.agents ==> Kept(st.agents[a])
  }

  lemma StepKept(p: Process, l: AgentStep)
    requires Kept(p) && Step(p, l).Some?
    ensures Kept(Step(p, l).value)
  {
    hide Named, Ordered, Marked, Step;
    StepNamed(p, l);
    StepOrdered(p, l);
    StepMarked(p, l);
  }

  /** What the gateway does to a stream does not matter here. */
  lemma GatewayKept(p: Process, r: Process)
    requires Kept(p) && p.arrivals <= r.arrivals
    requires r == p.(running := r.running, routed := r.routed, carrying := r.carrying, arrivals := r.arrivals)
    ensures Kept(r)
  {
    hide Recorded, Opener, HandedBy, TaskNamed, FoundNamed, TaskMarked, LiveMarked, MsgMarked, Owing, Pending;
    NamedFrame(p, r);
    MarkedFrame(p, r);
    OrderFrame(p, r);
    forall t | 0 <= t < |r.lookups| && r.lookups[t].Some? ensures Recorded(r, t) {
      RecordKept(p, r, t);
    }
  }

  lemma OrderFrame(p: Process, r: Process)
    requires p.taken <= |p.arrivals| && p.arrivals <= r.arrivals && p.taken <= r.taken
    ensures forall t :: Owing(p, t) ==> Owing(r, t)
    ensures forall h :: Timely(p, h) ==> Timely(r, h)
  {
  }

  lemma NewKept(name: string, setup: Setup)
    ensures Kept(NewProcess(name, setup))
  {
  }

  lemma NextKept(st: State, l: Label)
    requires AllKept(st) && Next(st, l).Some?
    ensures AllKept(Next(st, l).value)
  {
    hide Kept, Step;
    var st' := Next(st, l).value;
    forall a | a in st'.agents ensures Kept(st'.agents[a]) {
      if a !in st.agents {
        NewKept(st'.agents[a].name, st'.agents[a].setup);
      } else if l.AgentActs? && l.a == a {
        StepKept(st.agents[a], l.l);
      } else {
        GatewayKept(st.agents[a], st'.agents[a]);
      }
    }
  }

  lemma {:induction false} RunKept(ls: seq<Label>)
    requires Run(ls).Some?
    ensures AllKept(Run(ls).value)
  {
    hide Next, Kept;
    if ls != [] {
      RunKept(ls[..|ls| - 1]);
      NextKept(Run(ls[..|ls| - 1]).value, ls[|ls| - 1]);
    }
  }

  /** In every run: what a connection, execution or terminal is handed is the payload of a packet
      that the client of the same session sent, that names it and was taken no earlier than the one
      that opened it; no packet is handed over twice. */
  lemma InputIsolation(ls: seq<Label>, a: nat, i: nat)
    requires Run(ls).Some? && a in Run(ls).value.agents && i < |Run(ls).value.agents[a].inputs|
    ensures var st := Run(ls).value;
            var p := st.agents[a];
            var h := p.inputs[i];
            && HandedBy(p, h) && h.input.conn <= h.cause
            && (forall j :: 0 <= j < |p.inputs| && j != i ==> p.inputs[j].cause != h.cause)
            && (h.input.key.sid != "" ==>
                  && h.input.key.sid in st.clients && st.clients[h.input.key.sid].agent == a
                  && exists j :: 0 <= j < |st.clients[h.input.key.sid].sent| &&
                       Stamp(st.clients[h.input.key.sid].sent[j].pkt, h.input.key.sid) == p.arrivals[h.cause].pkt)
  {
    hide Marked;
    RunKept(ls);
    var p := Run(ls).value.agents[a];
    assert Kept(p);
    InputFacts(p, i);
    Provenance.OwnPacket(ls, a, p.inputs[i].cause);
  }

  lemma InputFacts(p: Process, i: nat)
    requires Named(p) && Ordered(p) && i < |p.inputs|
    ensures var h := p.inputs[i];
            && HandedBy(p, h) && h.input.conn <= h.cause && h.cause < |p.arrivals| && SidOf(p.arrivals[h.cause].pkt) == h.input.key.sid
            && forall j :: 0 <= j < |p.inputs| && j != i ==> p.inputs[j].cause != h.cause
  {
    hide Recorded, Owing, TaskNamed, Opener;
    var h := p.inputs[i];
    assert HandedBy(p, h);
    if h.input.conn != h.cause {
      assert FoundNamed(p, h.cause);
    }
    forall j | 0 <= j < |p.inputs| && j != i ensures p.inputs[j].cause != h.cause {
      assert if i < j then Before(p.inputs[i], p.inputs[j]) else Before(p.inputs[j], p.inputs[i]);
    }
  }

  /** In every run: the inputs of connection `o` are in order of arrival if and only if no packet
      found the connection before its opening payload was handed over; that is always so unless it
      is raw and opened with a payload. */
  lemma InputOrder(ls: seq<Label>, a: nat, o: nat)
    requires Run(ls).Some? && a in Run(ls).value.agents
    ensures var p := Run(ls).value.agents[a];
            && (InOrder(p, o) <==> !exists t, i :: Overtakes(p, o, t, i))
            && (o < |p.arrivals| && !Raw(p.arrivals[o].pkt) ==> InOrder(p, o))
  {
    hide Named, Ordered, Marked, InOrder, Overtakes;
    RunKept(ls);
    var p := Run(ls).value.agents[a];
    assert Kept(p);
    OrderedExactly(p, o);
    if o < |p.arrivals| && !Raw(p.arrivals[o].pkt) {
      PromptInOrder(p, o);
    }
  }

  /** A client writes to a raw connection that is stored. */
  lemma WritesMore(p: Process, cs: map<string, Session>, s: string, conn: string, data: string) returns (r: Process, c: Session)
    requires Reachable(Stage(p, cs)) && s in cs && Ready(cs[s]) && Idle(p)
    requires HasParams(p.store, s) && HasConn(p.store, ConnKey(s, conn)) && conn != ""
    ensures Reachable(Stage(r, cs[s := c])) && p.tasks <= r.tasks
    ensures r.inputs == p.inputs + [Handed(p.taken, p.taken + 1, Input(ConnKey(s, conn), p.store[ConnKey(s, conn)].proxy.opener, data))]
  {
    hide Reachable, Idle, Ready, OpenSession, Exec, RunQuery, ProxyWrite, TerminalWrite, Cleanup, TcpClose, ConnectDirect;
    var pkt := Stamp(TcpWrite(conn, data), s);
    assert ConnOf(pkt) == conn && SidOf(pkt) == s && pkt.payload == data;
    r, c := Serves(p, cs, s, TcpWrite(conn, data), WriteSucceeds);
  }

  /** The copier's turn. */
  lemma CopierWrites(p: Process, cs: map<string, Session>, i: nat) returns (r: Process)
    requires Reachable(Stage(p, cs)) && i < |p.tasks| && Pending(p.tasks[i].acts)
    ensures Reachable(Stage(r, cs)) && r.inputs == p.inputs + [Handed(p.tasks[i].cause, p.taken, p.tasks[i].acts[0].input)]
  {
    hide Reachable;
    AgentMoves(p, cs, AgentStep.Perform(i));
    r := Step(p, AgentStep.Perform(i)).value;
  }

  /** Connection `o` of session `s` was handed "b" and then "a", the other way round than they came. */
  ghost predicate Reversed(p: Process, s: string, o: nat) {
    && |p.inputs| == 2 && p.inputs[0].cause > p.inputs[1].cause
    && p.inputs[0].input == Input(ConnKey(s, "1"), o, "b") && p.inputs[1].input == Input(ConnKey(s, "1"), o, "a")
    && !InOrder(p, o)
  }

  /** It really can fail: a client opens a raw connection with payload "a" and sends "b" for it; the
      connection is handed "b" and then "a". */
  lemma LaterPayloadCanComeFirst(s: string)
    requires ValidSid(s)
    ensures exists st, o: nat :: Reachable(st) && 0 in st.agents && Reversed(st.agents[0], s, o)
  {
    hide Reachable, Idle, Ready, InOrder, Pending, HasParams, HasConn;
    var p, cs, i := Dialled(s);
    var o := p.tasks[i].cause;
    var q, c := WritesMore(p, cs, s, "1", "b");
    assert q.tasks[i] == p.tasks[i];
    var r := CopierWrites(q, cs[s := c], i);
    OutOfOrder(r, o);
    var st := Stage(r, cs[s := c]);
    assert st.agents[0] == r && Reversed(st.agents[0], s, o);
  }

  lemma OutOfOrder(p: Process, o: nat)
    requires |p.inputs| == 2 && p.inputs[0].cause > p.inputs[1].cause && p.inputs[0].input.conn == o && p.inputs[1].input.conn == o
    ensures !InOrder(p, o)
  {
  }

  /** A raw connection is open, and its copier, goroutine `i`, has yet to write "a". */
  lemma Dialled(s: string) returns (p: Process, cs: map<string, Session>, i: nat)
    requires ValidSid(s)
    ensures Reachable(Stage(p, cs)) && s in cs && Ready(cs[s]) && Idle(p) && p.inputs == []
    ensures HasParams(p.store, s) && HasConn(p.store, ConnKey(s, "1"))
    ensures i < |p.tasks| && p.tasks[i].cause + 1 == p.taken && Pending(p.tasks[i].acts)
    ensures p.tasks[i].acts[0].input == Input(ConnKey(s, "1"), p.tasks[i].cause, "a")
    ensures p.store[ConnKey(s, "1")].proxy.opener == p.tasks[i].cause
  {
    hide Reachable, Ready, LoopIdle;
    var p0 := Begins(PLAIN_SETUP);
    var c := Joins(p0, map[], s);
    var p1, c1 := OpensPlain(p0, map[s := c], s);
    var cs1 := map[s := c][s := c1];
    var c2;
    p, c2 := Dials(p1, cs1, s, "1", "a");
    cs := cs1[s := c2];
    i := |p1.tasks| + 1;
    assert |p.arrivals| == |p1.arrivals| + 1;
  }

  /** In every run: a reply delivered to a client, output of a connection or its close, carries the
      connection id of the packet, sent by this same client, that caused it. */
  lemma ConnectionIsolation(ls: seq<Label>, s: string, i: nat)
    requires Run(ls).Some? && s in Run(ls).value.clients && i < |Run(ls).value.clients[s].delivered|
    requires Reply(Run(ls).value.clients[s].delivered[i].pkt)
    ensures var st := Run(ls).value;
            var c := st.clients[s];
            var m := c.delivered[i];
            && c.agent in st.agents && m.cause < |st.agents[c.agent].arrivals|
            && exists j :: 0 <= j < |c.sent| && Stamp(c.sent[j].pkt, s) == st.agents[c.agent].arrivals[m.cause].pkt
                           && ConnOf(c.sent[j].pkt) == ConnOf(m.pkt)
  {
    hide Named, Ordered;
    SessionTheorems.SessionIsolation(ls, s, i);
    RunKept(ls);
    var st := Run(ls).value;
    var c := st.clients[s];
    var p := st.agents[c.agent];
    var m := c.delivered[i];
    assert Kept(p);
    var k :| 0 <= k < |p.emitted| && p.emitted[k] == m;
    assert MsgMarked(p, p.emitted[k]);
    var j :| 0 <= j < |c.sent| && Stamp(c.sent[j].pkt, s) == p.arrivals[m.cause].pkt;
    assert ConnOf(Stamp(c.sent[j].pkt, s)) == ConnOf(c.sent[j].pkt);
  }
}
