/**
  Every packet handler of the agent as a reader of the protocol sees it: which packet, store and
  answer of the world lead to which packets, connections, bytes and commands.  Nothing here is said
  through the handler functions' own helpers.
 */
module HandlerOutcomes {
  import opened Selection
  import opened Decimal
  import opened Wire
  import opened ConnKeys
  import opened SessionSetup
  import opened AgentHandlers

  // ---- What can come of a packet ---------------------------------------------------------

  /** The session is told that it is over, with a message and an exit code; a packet without a session
      has nobody to tell. */
  predicate Closes(acts: seq<Act>, sid: string, code: string, withMessage: bool) {
    if sid == "" then acts == []
    else
      && |acts| == 1 && acts[0].Send? && acts[0].p.typ == ClientSessionClose
      && acts[0].p.spec == map[SessionId := sid, ExitCode := code] && (acts[0].p.payload != "" <==> withMessage)
  }

  /** No connection, no bytes, no command, no parameters. */
  predicate Idle(r: Reaction, store: Store) {
    r.store == store && r.spawn == [] && r.run == None && r.decoded == None && r.found == None && r.input == None
  }

  /** The packet is refused: one close with the internal exit code. */
  predicate Refused(r: Reaction, store: Store, sid: string) {
    Idle(r, store) && Closes(r.main, sid, "254", true)
  }

  /** The message ends with the reason that was given. */
  predicate Tells(acts: seq<Act>, reason: string) {
    acts != [] && acts[0].Send? ==>
      |acts[0].p.payload| >= |reason| && acts[0].p.payload[|acts[0].p.payload| - |reason|..] == reason
  }

  /** The session has no parameters. */
  predicate NoParams(store: Store, sid: string) {
    ParamsKey(sid) !in store || !store[ParamsKey(sid)].ParamsEntry?
  }

  predicate Stored(store: Store, k: StoreKey) {
    k in store && store[k].ConnEntry?
  }

  /** The payload goes to the stored connection under `k`; a failing write closes the session with
      `code`. */
  predicate Written(r: Option<Reaction>, store: Store, k: StoreKey, pkt: Packet, out: Outcome, code: string)
    requires Stored(store, k)
  {
    if out.WriteSucceeds? || out.WriteFails? then
      && r.Some? && !r.value.missing
      && r.value.store == store && r.value.spawn == [] && r.value.run == None && r.value.decoded == None
      && r.value.found == Some(store[k].proxy.opener)
      && r.value.input == Some(Input(k, store[k].proxy.opener, pkt.payload))
      && (if out.WriteSucceeds? then r.value.main == [] else Closes(r.value.main, SidOf(pkt), code, code != "0"))
    else r == None
  }

  /** The connection, execution or terminal a packet opens: what its writer sends and with which spec,
      under which key it is kept, and what its end leads to. */
  predicate ProxyFits(proxy: Proxy, pkt: Packet) {
    var sid := Get(pkt.spec, SessionId);
    match pkt.typ
    case ExecWriteStdin =>
      proxy.types == {WriteStdout, WriteStderr} && proxy.spec == map[SessionId := sid] && proxy.key == ExecKey(sid) && proxy.cb == ExecFinished
    case TerminalWriteStdin =>
      proxy.types == {WriteStdout} && proxy.spec == map[SessionId := sid] && proxy.key == CmdKey(sid) && proxy.cb == TerminalFinished
    case AgentWrite(proto) =>
      && proxy.types == {ClientWrite(proto)} && proxy.spec == pkt.spec && proxy.key == ConnKey(sid, Get(pkt.spec, ConnectionId))
      && (match proto
          case PG => proxy.cb == CloseOnDone
          case MSSQL => proxy.cb == CloseOnDone
          case SSH => proxy.cb == ForgetAndClose
          case TCP => proxy.cb == CopyFinished
          case HttpProxy => proxy.cb == NoCallback
          case MySQL => false
          case MongoDB => false)
    case _ => false
  }

  /** A connection of the packet is opened: `acts` store and start it, once each, in that order or the
      other. */
  predicate Opened(acts: seq<Act>, pkt: Packet, number: nat, startFirst: bool) {
    && |acts| == 2
    && var put, start := if startFirst then acts[1] else acts[0], if startFirst then acts[0] else acts[1];
       && put.Put? && start.Start? && put.proxy == start.proxy && put.k == put.proxy.key
       && ProxyFits(put.proxy, pkt) && put.proxy.opener == number
  }

  /** Bytes of the packet go to the connection it opens. */
  predicate FirstInput(r: Reaction, pkt: Packet, number: nat, key: StoreKey) {
    r.input == Some(Input(key, number, pkt.payload)) && r.found == None
  }

  // ---- mysql and mongodb -----------------------------------------------------------------

  /** The command's output goes back under the packet's own spec, if there is any, and then its exit
      code. */
  predicate Answered(acts: seq<Act>, pkt: Packet, db: Protocol, output: string, code: Int64) {
    var sid := Get(pkt.spec, SessionId);
    var n := if output == "" then 0 else 1;
    && |acts| == n + (if sid == "" then 0 else 1)
    && (output != "" ==> acts[0] == Send(Packet(ClientWrite(db), output, pkt.spec)))
    && (sid != "" ==>
          && acts[n].Send? && acts[n].p.typ == ClientSessionClose
          && Get(acts[n].p.spec, SessionId) == sid && Scan(Get(acts[n].p.spec, ExitCode)) == Some(code)
          && (acts[n].p.payload == "" <==> code == 0))
  }

  /** The command runs, once, with the session's parameters and for exactly this query. */
  predicate Executed(r: Option<Reaction>, store: Store, pkt: Packet, db: Protocol, output: string, code: Int64)
    requires !NoParams(store, SidOf(pkt))
  {
    && r.Some? && r.value.store == store && r.value.spawn == [] && !r.value.missing
    && r.value.decoded == None && r.value.found == None && r.value.input == None
    && r.value.run == Some(Execution(SidOf(pkt), db, pkt.payload, store[ParamsKey(SidOf(pkt))].params, output, code))
    && Answered(r.value.main, pkt, db, output, code)
  }

  lemma QueryOutcome(t: Turn, store: Store, pkt: Packet, db: Protocol, out: Outcome)
    requires pkt.typ == AgentWrite(db) && (db.MySQL? || db.MongoDB?)
    ensures var r, sid, conn := Handle(t, store, pkt, out), Get(pkt.spec, SessionId), Get(pkt.spec, ConnectionId);
            var key := ConnKey(sid, conn);
            if NoParams(store, sid) then r.Some? && Refused(r.value, store, sid) && r.value.missing
            else if conn == "" && pkt.payload != "" then r.Some? && Refused(r.value, store, sid) && !r.value.missing
            else if Stored(store, key) then Written(r, store, key, pkt, out, "254")
            else match out
              case CredentialsMissing => r.Some? && Refused(r.value, store, sid) && !r.value.missing
              case Executes(output, code) => Executed(r, store, pkt, db, output, code)
              case _ => r == None
  {
    hide ToText, Scan, WriteToStored, QueryReplies, Answered, Written, Refused, Handle, Close;
    DispatchesQuery(t, store, pkt, db, out);
    if out.Executes? {
      AnswersFit(pkt, db, out.output, out.code);
    }
    if Stored(store, ConnKey(SidOf(pkt), ConnOf(pkt))) {
      StoredOutcome(store, pkt, out);
    }
    RefusalFits(store, SidOf(pkt), PARAMS_NOT_FOUND);
    RefusalFits(store, SidOf(pkt), CONN_NOT_FOUND);
    RefusalFits(store, SidOf(pkt), NO_CREDENTIALS);
  }

  lemma DispatchesQuery(t: Turn, store: Store, pkt: Packet, db: Protocol, out: Outcome)
    requires pkt.typ == AgentWrite(db) && (db.MySQL? || db.MongoDB?)
    ensures Handle(t, store, pkt, out) == RunQuery(store, pkt, db, out)
  {
    hide RunQuery, OpenSession, Exec, DirectWrite, ProxyWrite, TerminalWrite, Cleanup, TcpClose;
  }

  lemma RefusalFits(store: Store, sid: string, msg: string)
    requires msg != ""
    ensures Refused(Respond(store, Close(sid, msg)), store, sid) && !Respond(store, Close(sid, msg)).missing
    ensures Refused(Respond(store, Close(sid, msg)).(missing := true), store, sid)
  {
  }

  lemma AnswersFit(pkt: Packet, db: Protocol, output: string, code: Int64)
    ensures Answered(QueryReplies(pkt, db, output, code), pkt, db, output, code)
  {
    hide ToText, Scan;
    ScanToText(code);
  }

  lemma StoredOutcome(store: Store, pkt: Packet, out: Outcome)
    requires Stored(store, ConnKey(SidOf(pkt), ConnOf(pkt)))
    ensures Written(WriteToStored(store, pkt, out), store, ConnKey(SidOf(pkt), ConnOf(pkt)), pkt, out, "254")
  {
  }

  // ---- postgres, mssql and ssh -----------------------------------------------------------

  lemma ProxyOutcome(t: Turn, store: Store, pkt: Packet, proto: Protocol, out: Outcome)
    requires pkt.typ == AgentWrite(proto) && (proto.PG? || proto.MSSQL? || proto.SSH?)
    ensures var r, sid, conn := Handle(t, store, pkt, out), Get(pkt.spec, SessionId), Get(pkt.spec, ConnectionId);
            var key := ConnKey(sid, conn);
            if NoParams(store, sid) then r.Some? && Refused(r.value, store, sid) && r.value.missing
            else if conn == "" && (proto.PG? || pkt.payload != "") then r.Some? && Refused(r.value, store, sid) && !r.value.missing
            else if Stored(store, key) then Written(r, store, key, pkt, out, "254")
            else if out.CredentialsMissing? || out.ProxyFails? then r.Some? && Refused(r.value, store, sid) && !r.value.missing
            else if out.ProxyStarts? || out.ProxyStartsWriteFails? then
              && r.Some? && Idle(r.value.(input := None), store) && !r.value.missing && FirstInput(r.value, pkt, t.number, key)
              && if proto.SSH? && out.ProxyStartsWriteFails? then
                   && r.value.main != [] && r.value.main[0].Start? && ProxyFits(r.value.main[0].proxy, pkt)
                   && r.value.main[0].proxy.opener == t.number && Closes(r.value.main[1..], sid, "254", true)
                 else Opened(r.value.main, pkt, t.number, true)
            else r == None
  {
  }

  /** A connection, execution or terminal that cannot be opened is refused with the reason. */
  lemma FailureTold(t: Turn, store: Store, pkt: Packet, reason: string)
    requires pkt.typ.AgentWrite? || pkt.typ == ExecWriteStdin || pkt.typ == TerminalWriteStdin
    requires pkt.typ != AgentWrite(MySQL) && pkt.typ != AgentWrite(MongoDB)
    requires var sid, conn := Get(pkt.spec, SessionId), Get(pkt.spec, ConnectionId);
             !NoParams(store, sid) && conn != "" && !Stored(store, ConnKey(sid, conn)) && !Stored(store, CmdKey(sid))
    ensures var r := Handle(t, store, pkt, ProxyFails(reason)); r.Some? && Tells(r.value.main, reason)
  {
    Suffix("connect: ", reason);
    Suffix("command: ", reason);
  }

  lemma Suffix(a: string, b: string)
    ensures (a + b)[|a + b| - |b|..] == b
  {
  }

  // ---- raw tcp and http ------------------------------------------------------------------

  /** The goroutine of a raw connection: its opening payload, unless the packet only connects, and then
      the copying; when the payload cannot be written the client is told and the connection forgotten. */
  predicate CopierFits(acts: seq<Act>, pkt: Packet, number: nat, proxy: Proxy, fails: bool) {
    var sid, conn := Get(pkt.spec, SessionId), Get(pkt.spec, ConnectionId);
    var write := Write(Input(ConnKey(sid, conn), number, pkt.payload));
    if ServerConnect in pkt.spec then acts == [Start(proxy)]
    else if fails then
      acts == [write, Send(Packet(ClientTCPClose, "", map[SessionId := sid, ConnectionId := conn])), Del(ConnKey(sid, conn))]
    else acts == [write, Start(proxy)]
  }

  lemma DirectOutcome(t: Turn, store: Store, pkt: Packet, proto: Protocol, out: Outcome)
    requires pkt.typ == AgentWrite(proto) && (proto.TCP? || proto.HttpProxy?)
    ensures var r, sid, conn := Handle(t, store, pkt, out), Get(pkt.spec, SessionId), Get(pkt.spec, ConnectionId);
            var key := ConnKey(sid, conn);
            if conn == "" then r.Some? && Refused(r.value, store, sid) && !r.value.missing
            else if NoParams(store, sid) then r.Some? && Refused(r.value, store, sid) && r.value.missing
            else if Stored(store, key) then Written(r, store, key, pkt, out, "254")
            else if out.CredentialsMissing? || out.ProxyFails? then r.Some? && Refused(r.value, store, sid) && !r.value.missing
            else if out.ProxyStarts? || out.ProxyStartsWriteFails? then
              && r.Some? && !r.value.missing
              && if proto.HttpProxy? then
                   && Idle(r.value.(input := None), store) && FirstInput(r.value, pkt, t.number, key)
                   && Opened(r.value.main, pkt, t.number, true)
                 else
                   && Idle(r.value.(spawn := []), store) && |r.value.main| == 1 && r.value.main[0].Put? && r.value.main[0].k == key
                   && ProxyFits(r.value.main[0].proxy, pkt) && r.value.main[0].proxy.opener == t.number
                   && CopierFits(r.value.spawn, pkt, t.number, r.value.main[0].proxy, out.ProxyStartsWriteFails?)
            else r == None
  {
  }

  // ---- ad-hoc execution and terminal -----------------------------------------------------

  lemma ExecOutcome(t: Turn, store: Store, pkt: Packet, out: Outcome)
    requires pkt.typ == ExecWriteStdin
    ensures var r, sid := Handle(t, store, pkt, out), Get(pkt.spec, SessionId);
            if NoParams(store, sid) then r.Some? && Refused(r.value, store, sid) && r.value.missing
            else if out.ProxyFails? then r.Some? && Refused(r.value, store, sid) && !r.value.missing
            else if out.ProxyStarts? then
              && r.Some? && Idle(r.value.(input := None), store) && !r.value.missing
              && FirstInput(r.value, pkt, t.number, ExecKey(sid)) && Opened(r.value.main, pkt, t.number, false)
            else r == None
  {
  }

  lemma TerminalOutcome(t: Turn, store: Store, pkt: Packet, out: Outcome)
    requires pkt.typ == TerminalWriteStdin
    ensures var r, sid := Handle(t, store, pkt, out), Get(pkt.spec, SessionId);
            if NoParams(store, sid) then r.Some? && Refused(r.value, store, sid) && r.value.missing
            else if Stored(store, CmdKey(sid)) then Written(r, store, CmdKey(sid), pkt, out, "0")
            else if out.ProxyFails? then r.Some? && Refused(r.value, store, sid) && !r.value.missing
            else if out.ProxyStarts? then
              && r.Some? && Idle(r.value, store) && !r.value.missing && Opened(r.value.main, pkt, t.number, true)
            else r == None
  {
  }

  // ---- Opening and closing ---------------------------------------------------------------

  /** A packet that opens its session stores the parameters first; then a goroutine reports a failed
      port check, if any, and success in any case.  One that does not is answered by two closes. */
  lemma OpenOutcome(t: Turn, store: Store, pkt: Packet, out: Outcome)
    requires pkt.typ == SessionOpen
    ensures var r, sid, params := Handle(t, store, pkt, out), Get(pkt.spec, SessionId), ParamsOf(t.setup, pkt);
            match out
            case OpenFails(reason) =>
              if params.Some? then r == None
              else
                && r.Some? && r.value.store == store && r.value.spawn == [] && r.value.decoded == None && |r.value.main| == 2
                && (r.value.main[0].Send? ==> r.value.main[0].p.payload == reason)
                && (r.value.main[1].Send? ==> r.value.main[1].p.payload != "")
                && forall i :: 0 <= i < 2 ==>
                     && r.value.main[i].Send? && r.value.main[i].p.typ == ClientSessionClose
                     && r.value.main[i].p.spec == map[SessionId := sid, ExitCode := "254"]
            case Opens(liveness) =>
              if params.None? then r == None
              else
                && r.Some? && r.value.store == store[ParamsKey(sid) := ParamsEntry(params.value)]
                && r.value.main == [] && r.value.decoded == params
                && |r.value.spawn| == (if liveness.Some? then 2 else 1)
                && (liveness.Some? ==> r.value.spawn[0] == Send(Packet(ClientSessionClose, liveness.value, map[SessionId := sid, ExitCode := "254"])))
                && r.value.spawn[|r.value.spawn| - 1] == Send(Packet(SessionOpenOK, "", map[
                     SessionId := sid, ConnectionType := Get(pkt.spec, ConnectionType),
                     RequestPort := Get(pkt.spec, RequestPort), Command := params.value.command]))
            case _ => r == None
    ensures var r := Handle(t, store, pkt, out);
            r.Some? ==> r.value.run == None && r.value.found == None && r.value.input == None && !r.value.missing
  {
    hide ParamsOf;
  }

  /** The other packets send nothing, start nothing and touch the store at most by closing. */
  lemma QuietOutcome(t: Turn, store: Store, pkt: Packet, out: Outcome)
    requires !pkt.typ.SessionOpen? && !pkt.typ.AgentWrite? && !pkt.typ.ExecWriteStdin? && !pkt.typ.TerminalWriteStdin?
    ensures var r, sid := Handle(t, store, pkt, out), Get(pkt.spec, SessionId);
            && r.Some? && r.value.main == [] && !r.value.missing && Idle(r.value, r.value.store)
            && r.value.store == (if pkt.typ == AgentSessionClose then (if sid == "" then store else Cleanup(store, sid))
                                 else if pkt.typ == AgentTCPClose then TcpClose(store, sid, Get(pkt.spec, ConnectionId))
                                 else store)
  {
  }

  // ---- Completion ------------------------------------------------------------------------

  /** What the end of a connection leads to, by the packet that opened it. */
  predicate EndFits(acts: seq<Act>, pkt: Packet, code: Int64, msg: string) {
    var sid, conn := Get(pkt.spec, SessionId), Get(pkt.spec, ConnectionId);
    match pkt.typ
    case ExecWriteStdin => acts != [] && acts[0] == Del(ExecKey(sid)) && Reports(acts[1..], sid, code, msg)
    case TerminalWriteStdin => Reports(acts, sid, code, msg)
    case AgentWrite(proto) =>
      (match proto
       case PG => Ends(acts, sid, msg)
       case MSSQL => Ends(acts, sid, msg)
       case SSH => acts != [] && acts[0] == Del(ConnKey(sid, conn)) && Ends(acts[1..], sid, msg)
       case TCP =>
         acts == (if msg != "" then [Send(Packet(ClientTCPClose, "", map[SessionId := sid, ConnectionId := conn]))] else [])
                 + [Del(ConnKey(sid, conn))]
       case _ => true)
    case _ => true
  }

  /** One close that tells the exit code and the message reported. */
  predicate Reports(acts: seq<Act>, sid: string, code: Int64, msg: string) {
    if sid == "" then acts == []
    else
      && |acts| == 1 && acts[0].Send? && acts[0].p.typ == ClientSessionClose && acts[0].p.payload == msg
      && Get(acts[0].p.spec, SessionId) == sid && Scan(Get(acts[0].p.spec, ExitCode)) == Some(code)
  }

  /** One close: success without a message, the internal code with one. */
  predicate Ends(acts: seq<Act>, sid: string, msg: string) {
    Closes(acts, sid, if msg == "" then "0" else "254", msg != "") && (sid != "" ==> acts[0].p.payload == msg)
  }

  lemma CallbackOutcome(proxy: Proxy, pkt: Packet, code: Int64, msg: string)
    requires ProxyFits(proxy, pkt)
    ensures EndFits(CallbackActs(proxy, code, msg), pkt, code, msg)
  {
    hide ToText, Scan;
    ScanToText(code);
  }
}
