/**
  Where the exit codes of SessionClose come from, in every run: a command's own exit code, what an
  execution, terminal or connection reported at its end, or a handler that refused or failed.
 */
module ExitCodes {
  import opened Selection
  import opened Decimal
  import opened Wire
  import opened ConnKeys
  import opened SessionSetup
  import opened AgentHandlers
  import opened HandlerOutcomes
  import opened AgentProcess
  import opened SessionProtocol
  import SessionTheorems

  /** The packet that caused something. */
  function CauseOf(p: Process, cause: nat): (pkt: Packet)
    requires cause < |p.arrivals|
  {
    p.arrivals[cause].pkt
  }

  /** A close as the handler of packet `pkt` sends it on its own account: with the internal exit code,
      or, when a write to a stored terminal fails, with 0 and no message. */
  predicate ByHandler(q: Packet, pkt: Packet, found: Option<nat>) {
    || Get(q.spec, ExitCode) == "254"
    || (pkt.typ == TerminalWriteStdin && found.Some? && Get(q.spec, ExitCode) == "0" && q.payload == "")
  }

  /** A close with the exit code of a command that ran for the session on a mysql or mongodb packet. */
  predicate ByCommand(q: Packet, pkt: Packet, e: Execution) {
    && (pkt.typ == AgentWrite(MySQL) || pkt.typ == AgentWrite(MongoDB))
    && e.sid == Get(pkt.spec, SessionId) && e.query == pkt.payload
    && Scan(Get(q.spec, ExitCode)) == Some(e.code) && (q.payload == "" <==> e.code == 0)
  }

  /** A close that passes on what was reported: the very code of an execution or a terminal; for a
      connection 0 without a message and 254 with one. */
  predicate ByReport(q: Packet, pkt: Packet, r: Report) {
    && q.payload == r.msg
    && match pkt.typ
       case ExecWriteStdin => Scan(Get(q.spec, ExitCode)) == Some(r.code)
       case TerminalWriteStdin => Scan(Get(q.spec, ExitCode)) == Some(r.code)
       case AgentWrite(proto) =>
         (proto.PG? || proto.MSSQL? || proto.SSH?) && Get(q.spec, ExitCode) == if r.msg == "" then "0" else "254"
       case _ => false
  }

  /** Report `i` came from something that packet `cause` opened. */
  predicate ReportOf(p: Process, i: int, cause: nat) {
    0 <= i < |p.reports| && p.reports[i].live < |p.proxies| && p.proxies[p.reports[i].live].cause == cause
  }

  ghost predicate Earned(p: Process, q: Packet, cause: nat)
    requires cause < |p.arrivals| && cause < |p.lookups|
  {
    q.typ == ClientSessionClose ==>
      || ByHandler(q, CauseOf(p, cause), p.lookups[cause])
      || (exists i :: 0 <= i < |p.runs| && ByCommand(q, CauseOf(p, cause), p.runs[i]))
      || (exists i :: ReportOf(p, i, cause) && ByReport(q, CauseOf(p, cause), p.reports[i]))
  }

  // ---- One agent -------------------------------------------------------------------------

  ghost predicate ActCoded(p: Process, act: Act, cause: nat)
    requires cause < |p.arrivals| && cause < |p.lookups|
  {
    match act
    case Send(q) => Earned(p, q, cause)
    case Start(proxy) => ProxyFits(proxy, CauseOf(p, cause))
    case _ => true
  }

  ghost predicate TaskCoded(p: Process, t: Task) {
    && t.cause < p.taken && t.cause < |p.arrivals| && t.cause < |p.lookups|
    && forall i :: 0 <= i < |t.acts| ==> ActCoded(p, t.acts[i], t.cause)
  }

  predicate LiveCoded(p: Process, v: Live) {
    v.cause < p.taken && v.cause < |p.arrivals| && v.cause < |p.lookups| && ProxyFits(v.proxy, CauseOf(p, v.cause))
  }

  ghost predicate MsgCoded(p: Process, m: Msg) {
    m.cause < p.taken && m.cause < |p.arrivals| && m.cause < |p.lookups| && Earned(p, m.pkt, m.cause)
  }

  ghost predicate Coded(p: Process) {
    && p.taken <= |p.arrivals| && |p.lookups| == p.taken
    && (forall i :: 0 <= i < |p.tasks| ==> TaskCoded(p, p.tasks[i]))
    && (forall i :: 0 <= i < |p.proxies| ==> LiveCoded(p, p.proxies[i]))
    && (forall i :: 0 <= i < |p.emitted| ==> MsgCoded(p, p.emitted[i]))
  }

  /** `r` is a later state of the agent. */
  predicate Later(p: Process, r: Process) {
    && p.arrivals <= r.arrivals && p.lookups <= r.lookups && p.runs <= r.runs
    && p.proxies <= r.proxies && p.reports <= r.reports && p.taken <= r.taken
  }

  lemma EarnedLater(p: Process, r: Process, q: Packet, cause: nat)
    requires Later(p, r) && cause < |p.arrivals| && cause < |p.lookups| && Earned(p, q, cause)
    ensures cause < |r.arrivals| && cause < |r.lookups| && Earned(r, q, cause)
  {
    hide ByHandler, ByCommand, ByReport;
    if i :| 0 <= i < |p.runs| && ByCommand(q, CauseOf(p, cause), p.runs[i]) {
      assert r.runs[i] == p.runs[i];
    }
    if i :| ReportOf(p, i, cause) && ByReport(q, CauseOf(p, cause), p.reports[i]) {
      assert ReportOf(r, i, cause) && r.reports[i] == p.reports[i];
    }
  }

  lemma CodedFrame(p: Process, r: Process)
    requires Later(p, r)
    ensures forall t :: TaskCoded(p, t) ==> TaskCoded(r, t)
    ensures forall v :: LiveCoded(p, v) ==> LiveCoded(r, v)
    ensures forall m :: MsgCoded(p, m) ==> MsgCoded(r, m)
  {
    hide Earned, ProxyFits;
    forall t | TaskCoded(p, t) ensures TaskCoded(r, t) {
      forall i | 0 <= i < |t.acts| ensures ActCoded(r, t.acts[i], t.cause) {
        assert ActCoded(p, t.acts[i], t.cause);
        if t.acts[i].Send? {
          EarnedLater(p, r, t.acts[i].p, t.cause);
        }
      }
    }
    forall m | MsgCoded(p, m) ensures MsgCoded(r, m) {
      EarnedLater(p, r, m.pkt, m.cause);
    }
  }

  // ---- What handlers send ----------------------------------------------------------------

  /** An act of a handler, judged by its packet, what it found and what it ran. */
  predicate Fits(act: Act, pkt: Packet, re: Reaction) {
    match act
    case Send(q) => q.typ == ClientSessionClose ==> ByHandler(q, pkt, re.found) || (re.run.Some? && ByCommand(q, pkt, re.run.value))
    case Start(proxy) => ProxyFits(proxy, pkt)
    case _ => true
  }

  predicate AllFit(acts: seq<Act>, pkt: Packet, re: Reaction) {
    forall i :: 0 <= i < |acts| ==> Fits(acts[i], pkt, re)
  }

  lemma ClosesFit(acts: seq<Act>, pkt: Packet, re: Reaction, sid: string, withMessage: bool)
    requires Closes(acts, sid, "254", withMessage)
    ensures AllFit(acts, pkt, re)
  {
  }

  lemma QueryFits(t: Turn, store: Store, pkt: Packet, db: Protocol, out: Outcome)
    requires pkt.typ == AgentWrite(db) && (db.MySQL? || db.MongoDB?) && Handle(t, store, pkt, out).Some?
    ensures var re := Handle(t, store, pkt, out).value; AllFit(re.main, pkt, re) && AllFit(re.spawn, pkt, re)
  {
    hide Handle, Scan, Closes;
    var re := Handle(t, store, pkt, out).value;
    QueryOutcome(t, store, pkt, db, out);
    if Closes(re.main, SidOf(pkt), "254", true) {
      ClosesFit(re.main, pkt, re, SidOf(pkt), true);
    }
  }

  lemma ProxyFit(t: Turn, store: Store, pkt: Packet, proto: Protocol, out: Outcome)
    requires pkt.typ == AgentWrite(proto) && (proto.PG? || proto.MSSQL? || proto.SSH?) && Handle(t, store, pkt, out).Some?
    ensures var re := Handle(t, store, pkt, out).value; AllFit(re.main, pkt, re) && AllFit(re.spawn, pkt, re)
  {
    hide Handle, Closes, ProxyFits;
    var re := Handle(t, store, pkt, out).value;
    ProxyOutcome(t, store, pkt, proto, out);
    if Closes(re.main, SidOf(pkt), "254", true) {
      ClosesFit(re.main, pkt, re, SidOf(pkt), true);
    }
    if re.main != [] && Closes(re.main[1..], SidOf(pkt), "254", true) {
      ClosesFit(re.main[1..], pkt, re, SidOf(pkt), true);
      assert forall i :: 0 < i < |re.main| ==> re.main[i] == re.main[1..][i - 1];
    }
  }

  lemma DirectFit(t: Turn, store: Store, pkt: Packet, proto: Protocol, out: Outcome)
    requires pkt.typ == AgentWrite(proto) && (proto.TCP? || proto.HttpProxy?) && Handle(t, store, pkt, out).Some?
    ensures var re := Handle(t, store, pkt, out).value; AllFit(re.main, pkt, re) && AllFit(re.spawn, pkt, re)
  {
    hide Handle, Closes, ProxyFits;
    var re := Handle(t, store, pkt, out).value;
    DirectOutcome(t, store, pkt, proto, out);
    CopierProxy(t, store, pkt, out);
    if Closes(re.main, SidOf(pkt), "254", true) {
      ClosesFit(re.main, pkt, re, SidOf(pkt), true);
    }
  }

  /** The copier starts the very connection that was stored. */
  lemma CopierProxy(t: Turn, store: Store, pkt: Packet, out: Outcome)
    ensures pkt.typ == AgentWrite(TCP) && Handle(t, store, pkt, out).Some? ==>
              forall i :: 0 <= i < |Handle(t, store, pkt, out).value.spawn| && Handle(t, store, pkt, out).value.spawn[i].Start? ==>
                ProxyFits(Handle(t, store, pkt, out).value.spawn[i].proxy, pkt)
  {
  }

  lemma TerminalFit(t: Turn, store: Store, pkt: Packet, out: Outcome)
    requires (pkt.typ == ExecWriteStdin || pkt.typ == TerminalWriteStdin) && Handle(t, store, pkt, out).Some?
    ensures var re := Handle(t, store, pkt, out).value; AllFit(re.main, pkt, re) && AllFit(re.spawn, pkt, re)
  {
    hide Handle, ProxyFits;
    if pkt.typ == ExecWriteStdin {
      ExecOutcome(t, store, pkt, out);
    } else {
      TerminalOutcome(t, store, pkt, out);
    }
  }

  lemma OpenFit(t: Turn, store: Store, pkt: Packet, out: Outcome)
    requires pkt.typ == SessionOpen && Handle(t, store, pkt, out).Some?
    ensures var re := Handle(t, store, pkt, out).value; AllFit(re.main, pkt, re) && AllFit(re.spawn, pkt, re)
  {
    hide Handle, ParamsOf;
    OpenOutcome(t, store, pkt, out);
  }

  lemma HandleFits(t: Turn, store: Store, pkt: Packet, out: Outcome)
    requires Handle(t, store, pkt, out).Some?
    ensures var re := Handle(t, store, pkt, out).value; AllFit(re.main, pkt, re) && AllFit(re.spawn, pkt, re)
  {
    hide Handle, Fits;
    match pkt.typ
    case SessionOpen => OpenFit(t, store, pkt, out);
    case AgentWrite(proto) =>
      if proto.MySQL? || proto.MongoDB? {
        QueryFits(t, store, pkt, proto, out);
      } else if proto.TCP? || proto.HttpProxy? {
        DirectFit(t, store, pkt, proto, out);
      } else {
        ProxyFit(t, store, pkt, proto, out);
      }
    case ExecWriteStdin => TerminalFit(t, store, pkt, out);
    case TerminalWriteStdin => TerminalFit(t, store, pkt, out);
    case _ => QuietOutcome(t, store, pkt, out);
  }

  // ---- Steps -----------------------------------------------------------------------------

  lemma FittingTask(p: Process, re: Reaction, acts: seq<Act>)
    requires p.taken < |p.arrivals| && |p.lookups| == p.taken && AllFit(acts, p.arrivals[p.taken].pkt, re)
    ensures TaskCoded(React(p, re), Task(p.taken, acts))
  {
    hide ByHandler, ByCommand, ProxyFits;
    var r := React(p, re);
    assert r.lookups[p.taken] == re.found;
    forall i | 0 <= i < |acts| ensures ActCoded(r, acts[i], p.taken) {
      assert Fits(acts[i], p.arrivals[p.taken].pkt, re);
      if re.run.Some? {
        assert r.runs[|p.runs|] == re.run.value;
      }
    }
  }

  lemma TakeCoded(p: Process, out: Outcome)
    requires Coded(p) && Step(p, Take(out)).Some?
    ensures Coded(Step(p, Take(out)).value)
  {
    hide Handle, TaskCoded, LiveCoded, MsgCoded, AllFit;
    var pkt := p.arrivals[p.taken].pkt;
    HandleFits(TurnOf(p), p.store, pkt, out);
    var re := Handle(TurnOf(p), p.store, pkt, out).value;
    var r := React(p, re);
    FittingTask(p, re, re.main);
    FittingTask(p, re, re.spawn);
    CodedFrame(p, r);
    forall i | 0 <= i < |r.tasks| ensures TaskCoded(r, r.tasks[i]) {
      if i < |p.tasks| {
        assert TaskCoded(p, p.tasks[i]);
      }
    }
  }

  lemma DoneCoded(p: Process, t: Task)
    requires TaskCoded(p, t) && t.acts != []
    ensures TaskCoded(p, Task(t.cause, t.acts[1..]))
    ensures t.acts[0].Send? ==> MsgCoded(p, Msg(t.cause, t.acts[0].p))
    ensures t.acts[0].Start? ==> LiveCoded(p, Live(t.cause, t.acts[0].proxy))
  {
    hide Earned, ProxyFits;
    assert ActCoded(p, t.acts[0], t.cause);
  }

  lemma PerformCoded(p: Process, i: nat)
    requires Coded(p) && i < |p.tasks| && p.tasks[i].acts != []
    ensures Coded(Step(p, Perform(i)).value)
  {
    hide TaskCoded, LiveCoded, MsgCoded;
    var r := Step(p, Perform(i)).value;
    assert TaskCoded(p, p.tasks[i]);
    DoneCoded(p, p.tasks[i]);
    CodedFrame(p, r);
  }

  /** A report goes out as it was made. */
  lemma ReportCoded(p: Process, l: AgentStep)
    requires Coded(p) && l.CallBack? && Step(p, l).Some?
    ensures var r := Step(p, l).value; TaskCoded(r, r.tasks[|p.tasks|])
  {
    hide TaskCoded, MsgCoded, CallbackActs, Scan;
    var r := Step(p, l).value;
    var v := p.proxies[l.i];
    assert LiveCoded(p, v);
    var pkt := CauseOf(p, v.cause);
    CallbackOutcome(v.proxy, pkt, l.code, l.msg);
    var n := |p.reports|;
    assert ReportOf(r, n, v.cause) && r.reports[n] == Report(l.i, l.code, l.msg);
    EndCoded(r, CallbackActs(v.proxy, l.code, l.msg), v.proxy, v.cause, n);
  }

  lemma EndCoded(r: Process, acts: seq<Act>, proxy: Proxy, cause: nat, n: nat)
    requires cause < r.taken && cause < |r.arrivals| && cause < |r.lookups| && ReportOf(r, n, cause) && ProxyFits(proxy, CauseOf(r, cause))
    requires acts == CallbackActs(proxy, r.reports[n].code, r.reports[n].msg)
    requires EndFits(acts, CauseOf(r, cause), r.reports[n].code, r.reports[n].msg)
    ensures TaskCoded(r, Task(cause, acts))
  {
    hide Scan, ToText, ByHandler, ByCommand, ByReport, CallbackActs, ProxyFits, EndFits;
    var pkt, rep := CauseOf(r, cause), r.reports[n];
    NothingStarts(proxy, rep.code, rep.msg);
    forall i | 0 <= i < |acts| ensures ActCoded(r, acts[i], cause) {
      if acts[i].Send? && acts[i].p.typ == ClientSessionClose {
        EndSends(acts, proxy, pkt, rep, i);
      }
    }
  }

  lemma NothingStarts(proxy: Proxy, code: Int64, msg: string)
    ensures forall i :: 0 <= i < |CallbackActs(proxy, code, msg)| ==> !CallbackActs(proxy, code, msg)[i].Start?
  {
    hide ToText;
  }

  /** Every close among what an end leads to is the one of the report. */
  lemma EndSends(acts: seq<Act>, proxy: Proxy, pkt: Packet, r: Report, i: nat)
    requires ProxyFits(proxy, pkt) && acts == CallbackActs(proxy, r.code, r.msg) && EndFits(acts, pkt, r.code, r.msg)
    requires i < |acts| && acts[i].Send? && acts[i].p.typ == ClientSessionClose
    ensures ByReport(acts[i].p, pkt, r)
  {
    hide Scan, ToText;
  }

  lemma EmitCoded(p: Process, l: AgentStep)
    requires Coded(p) && l.Emit? && Step(p, l).Some?
    ensures Coded(Step(p, l).value)
  {
    var r := Step(p, l).value;
    var v := p.proxies[l.i];
    assert LiveCoded(p, v);
    assert MsgCoded(r, Msg(v.cause, Packet(l.typ, l.payload, v.proxy.spec)));
    hide TaskCoded, LiveCoded, MsgCoded;
    CodedFrame(p, r);
  }

  lemma CallBackCoded(p: Process, l: AgentStep)
    requires Coded(p) && l.CallBack? && Step(p, l).Some?
    ensures Coded(Step(p, l).value)
  {
    ReportCoded(p, l);
    hide TaskCoded, LiveCoded, MsgCoded, CallbackActs;
    CodedFrame(p, Step(p, l).value);
  }

  lemma StepCoded(p: Process, l: AgentStep)
    requires Coded(p) && Step(p, l).Some?
    ensures Coded(Step(p, l).value)
  {
    hide Coded;
    match l
    case Take(out) => TakeCoded(p, out);
    case Perform(i) => PerformCoded(p, i);
    case Emit(_, _, _) => EmitCoded(p, l);
    case CallBack(_, _, _) => CallBackCoded(p, l);
  }

  // ---- Every run -------------------------------------------------------------------------

  ghost predicate AllCoded(st: State) {
    forall a :: a in st.agents ==> Coded(st.agents[a])
  }

  lemma NextCoded(st: State, l: Label)
    requires AllCoded(st) && Next(st, l).Some?
    ensures AllCoded(Next(st, l).value)
  {
    hide Coded, Step;
    var st' := Next(st, l).value;
    forall a | a in st'.agents ensures Coded(st'.agents[a]) {
      if a !in st.agents {
        NewCoded(st'.agents[a].name, st'.agents[a].setup);
      } else if l.AgentActs? && l.a == a {
        StepCoded(st.agents[a], l.l);
      } else {
        GatewayCoded(st.agents[a], st'.agents[a]);
      }
    }
  }

  lemma NewCoded(name: string, setup: Setup)
    ensures Coded(NewProcess(name, setup))
  {
  }

  lemma GatewayCoded(p: Process, r: Process)
    requires Coded(p) && p.arrivals <= r.arrivals
    requires r == p.(running := r.running, routed := r.routed, carrying := r.carrying, arrivals := r.arrivals)
    ensures Coded(r)
  {
    hide TaskCoded, LiveCoded, MsgCoded;
    CodedFrame(p, r);
  }

  lemma {:induction false} RunCoded(ls: seq<Label>)
    requires Run(ls).Some?
    ensures AllCoded(Run(ls).value)
  {
    hide Next, Coded;
    if ls != [] {
      RunCoded(ls[..|ls| - 1]);
      NextCoded(Run(ls[..|ls| - 1]).value, ls[|ls| - 1]);
    }
  }

  /** In every run: each SessionClose delivered to a client carries the exit code of a command that ran
      for a packet of its session, or exactly what was reported by an execution, a terminal or a
      connection that a packet of its session opened, or is a handler's own: the internal exit code, or
      0 without a message for a failed write to a terminal. */
  lemma ExitCodesEarned(ls: seq<Label>, s: string, i: nat)
    requires Run(ls).Some? && s in Run(ls).value.clients && i < |Run(ls).value.clients[s].delivered|
    requires Run(ls).value.clients[s].delivered[i].pkt.typ == ClientSessionClose
    ensures var st := Run(ls).value;
            var m := st.clients[s].delivered[i];
            && st.clients[s].agent in st.agents
            && var p := st.agents[st.clients[s].agent];
               && m.cause < |p.arrivals| && m.cause < |p.lookups| && SidOf(CauseOf(p, m.cause)) == s
               && (|| ByHandler(m.pkt, CauseOf(p, m.cause), p.lookups[m.cause])
                   || (exists k :: 0 <= k < |p.runs| && ByCommand(m.pkt, CauseOf(p, m.cause), p.runs[k]))
                   || (exists k :: ReportOf(p, k, m.cause) && ByReport(m.pkt, CauseOf(p, m.cause), p.reports[k])))
  {
    hide TaskCoded, LiveCoded, ByHandler, ByCommand, ByReport, Stamp;
    SessionTheorems.SessionIsolation(ls, s, i);
    RunCoded(ls);
    var st := Run(ls).value;
    var c := st.clients[s];
    var p := st.agents[c.agent];
    var m := c.delivered[i];
    assert Coded(p);
    var k :| 0 <= k < |p.emitted| && p.emitted[k] == m;
    assert MsgCoded(p, p.emitted[k]);
    var j :| 0 <= j < |c.sent| && Stamp(c.sent[j].pkt, s) == p.arrivals[m.cause].pkt;
    assert SidOf(Stamp(c.sent[j].pkt, s)) == s;
  }

  /** For an execution: a close that is not the internal 254 tells an exit code that this very
      execution, opened by that very packet, reported. */
  lemma ExecutionCode(ls: seq<Label>, s: string, i: nat)
    requires Run(ls).Some? && s in Run(ls).value.clients && i < |Run(ls).value.clients[s].delivered|
    requires var m := Run(ls).value.clients[s].delivered[i];
             m.pkt.typ == ClientSessionClose && Get(m.pkt.spec, ExitCode) != "254"
    requires var st := Run(ls).value;
             var m := st.clients[s].delivered[i];
             st.clients[s].agent in st.agents && m.cause < |st.agents[st.clients[s].agent].arrivals|
             && CauseOf(st.agents[st.clients[s].agent], m.cause).typ == ExecWriteStdin
    ensures var st := Run(ls).value;
            var m, p := st.clients[s].delivered[i], st.agents[st.clients[s].agent];
            exists k :: ReportOf(p, k, m.cause) && p.reports[k].msg == m.pkt.payload
                        && Scan(Get(m.pkt.spec, ExitCode)) == Some(p.reports[k].code)
  {
    hide Scan;
    ExitCodesEarned(ls, s, i);
    var st := Run(ls).value;
    var m, p := st.clients[s].delivered[i], st.agents[st.clients[s].agent];
    var k :| ReportOf(p, k, m.cause) && ByReport(m.pkt, CauseOf(p, m.cause), p.reports[k]);
  }

  /** What an agent step of a callback does: the report is on record and its goroutine does what the
      end of that connection, execution or terminal leads to. */
  lemma CallBackStep(p: Process, i: nat, code: Int64, msg: string)
    requires Coded(p) && i < |p.proxies|
    ensures var r := Step(p, CallBack(i, code, msg));
            && r.Some? && |r.value.tasks| == |p.tasks| + 1 && r.value.reports == p.reports + [Report(i, code, msg)]
            && r.value.tasks[|p.tasks|].cause == p.proxies[i].cause && p.proxies[i].cause < |p.arrivals|
            && EndFits(r.value.tasks[|p.tasks|].acts, CauseOf(p, p.proxies[i].cause), code, msg)
  {
    hide TaskCoded, MsgCoded, CallbackActs, EndFits, ProxyFits;
    assert LiveCoded(p, p.proxies[i]);
    CallbackOutcome(p.proxies[i].proxy, CauseOf(p, p.proxies[i].cause), code, msg);
  }

  /** What a writer sends: its own payload, of the type and with the spec of the packet that opened its
      connection, or on the standard streams of its session. */
  lemma EmitStep(p: Process, i: nat, typ: PacketType, payload: string)
    requires Coded(p) && i < |p.proxies| && Step(p, Emit(i, typ, payload)).Some?
    ensures var r, pkt := Step(p, Emit(i, typ, payload)).value, CauseOf(p, p.proxies[i].cause);
            && |r.emitted| == |p.emitted| + 1 && r.emitted[..|p.emitted|] == p.emitted
            && var m := r.emitted[|p.emitted|];
               && m.cause == p.proxies[i].cause && m.pkt.payload == payload
               && (match pkt.typ
                   case ExecWriteStdin => (m.pkt.typ == WriteStdout || m.pkt.typ == WriteStderr) && m.pkt.spec == map[SessionId := SidOf(pkt)]
                   case TerminalWriteStdin => m.pkt.typ == WriteStdout && m.pkt.spec == map[SessionId := SidOf(pkt)]
                   case AgentWrite(proto) => m.pkt.typ == ClientWrite(proto) && m.pkt.spec == pkt.spec
                   case _ => false)
  {
    hide TaskCoded, MsgCoded;
    assert LiveCoded(p, p.proxies[i]);
  }
}
