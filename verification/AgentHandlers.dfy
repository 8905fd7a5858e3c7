/**
  The agent's packet handlers (agent/controller).  A handler reads the connection store when
  it starts; what it does afterwards is a list of acts performed one at a time, so that other
  goroutines of the agent may run in between.
 */
module AgentHandlers {
  import opened Selection
  import opened Decimal
  import opened Wire
  import opened ConnKeys
  import opened SessionSetup

  /** What a handler knows besides the store and the packet: the agent it runs in, and the packet's
      number, by which a connection it opens is told apart from every other. */
  datatype Turn = Turn(setup: Setup, number: nat)

  /** What a proxy's completion callback does. */
  datatype Callback =
    | NoCallback        // http proxy: never run
    | CloseOnDone       // postgres, mssql
    | ForgetAndClose    // ssh
    | ExecFinished      // ad-hoc execution
    | TerminalFinished  // terminal
    | CopyFinished      // raw tcp copier goroutine

  /** A live connection: an arbitrary source of writer output and of callback calls.  Its
      stream writers send packets of type `types` that carry the captured `spec`.  `opener` is the
      number of the packet that opened it. */
  datatype Proxy = Proxy(types: set<PacketType>, spec: Spec, key: StoreKey, cb: Callback, opener: nat)

  datatype Entry = ParamsEntry(params: Params) | ConnEntry(proxy: Proxy)

  type Store = map<StoreKey, Entry>

  /** Bytes handed to connection, execution or terminal `conn`, which has or had the given key. */
  datatype Input = Input(key: StoreKey, conn: nat, data: string)

  datatype Act =
    | Send(p: Packet)
    | Put(k: StoreKey, proxy: Proxy)
    | Del(k: StoreKey)
    | Start(proxy: Proxy)
    | Write(input: Input)

  /** A command line executed for a query, with what came out of it. */
  datatype Execution = Execution(sid: string, db: Protocol, query: string, params: Params, output: string, code: Int64)

  /** What the world outside the agent decides while a handler runs. */
  datatype Outcome =
    | OpenFails(reason: string)                            // the text of the failure
    | Opens(liveness: Option<string>)                      // Some(error): the port check fails
    | WriteSucceeds | WriteFails(reason: string)           // writing to a stored connection
    | CredentialsMissing                                   // parseConnectionEnvVars fails
    | ProxyFails(reason: string) | ProxyStarts | ProxyStartsWriteFails(reason: string)
    | Executes(output: string, code: Int64)                // mysql and mongodb command lines
    | Nothing

  /** `missing` records that the handler found no connection parameters, `decoded` the parameters it
      decoded and stored, `found` the stored connection it found, and `input` what it handed to that
      one or to a new one before anything else could.  A handler looks its connection up and writes
      to it without touching anything else that is shared, so both are part of the same step. */
  datatype Reaction = Reaction(
    store: Store, main: seq<Act>, spawn: seq<Act>, run: Option<Execution>, missing: bool,
    decoded: Option<Params>, found: Option<nat>, input: Option<Input>)

  // Message texts are abbreviated; only whether a message is empty matters to the protocol.
  const PARAMS_NOT_FOUND := "no params"
  const CONN_NOT_FOUND := "no conn id"
  const NO_CREDENTIALS := "no creds"

  /** sendClientSessionCloseWithExitCode: silent without a session. */
  function CloseWithCode(sid: string, msg: string, code: string): (acts: seq<Act>) {
    if sid == "" then [] else [Send(ClosePacket(sid, msg, code))]
  }

  /** sendClientSessionClose: no message means success. */
  function Close(sid: string, msg: string): (acts: seq<Act>) {
    CloseWithCode(sid, msg, if msg == "" then "0" else INTERNAL_EXIT_CODE)
  }

  function OpenOkPacket(sid: string, open: Packet, command: string): (p: Packet) {
    Packet(SessionOpenOK, "", map[
      SessionId := sid,
      ConnectionType := Get(open.spec, ConnectionType),
      RequestPort := Get(open.spec, RequestPort),
      Command := command])
  }

  /** Only a copier writes from an act; a handler's own writes are part of its taking the packet. */
  predicate NoWrites(acts: seq<Act>) {
    forall i :: 0 <= i < |acts| ==> !acts[i].Write?
  }

  function Respond(store: Store, acts: seq<Act>): (r: Reaction) {
    Reaction(store, acts, [], None, false, None, None, None)
  }

  /** processSessionOpen: a decoding failure closes the session twice; otherwise parameters are
      stored first and a goroutine reports a failed port check and then, in any case, success.  Which of
      the two happens is up to the packet and the agent. */
  function OpenSession(t: Turn, store: Store, pkt: Packet, out: Outcome): (r: Option<Reaction>)
    ensures r.Some? ==> NoWrites(r.value.main)
  {
    var sid := SidOf(pkt);
    var decoded := ParamsOf(t.setup, pkt);
    match out
    case OpenFails(reason) =>
      if decoded.Some? then None
      else Some(Respond(store, [
        Send(ClosePacket(sid, reason, INTERNAL_EXIT_CODE)),
        Send(ClosePacket(sid, "bad params", INTERNAL_EXIT_CODE))]))
    case Opens(liveness) =>
      if decoded.None? then None
      else
      var params := decoded.value;
      var failed := if liveness.Some? then [Send(ClosePacket(sid, liveness.value, INTERNAL_EXIT_CODE))] else [];
      Some(Reaction(store[ParamsKey(sid) := ParamsEntry(params)], [],
                    failed + [Send(OpenOkPacket(sid, pkt, params.command))], None, false, Some(params), None, None))
    case _ => None
  }

  predicate HasParams(store: Store, sid: string) {
    ParamsKey(sid) in store && store[ParamsKey(sid)].ParamsEntry?
  }

  predicate HasConn(store: Store, k: StoreKey) {
    k in store && store[k].ConnEntry?
  }

  /** Acts that send a command's output, if any, and then close the session with its exit code. */
  function QueryReplies(pkt: Packet, db: Protocol, output: string, code: Int64): (acts: seq<Act>) {
    (if output != "" then [Send(Packet(ClientWrite(db), output, pkt.spec))] else []) +
    CloseWithCode(SidOf(pkt), if code == 0 then "" else "failed", ToText(code))
  }

  /** The stored connection a packet names. */
  function StoredUnder(store: Store, k: StoreKey): (o: nat) {
    if HasConn(store, k) then store[k].proxy.opener else 0
  }

  /** The payload is written to a stored connection; a failing write closes the session. */
  function WriteToStored(store: Store, pkt: Packet, out: Outcome): (r: Option<Reaction>)
    ensures r.Some? ==> NoWrites(r.value.main)
    ensures r.Some? ==> r.value.store == store && r.value.spawn == [] && r.value.run.None? && r.value.decoded.None?
  {
    var key := ConnKey(SidOf(pkt), ConnOf(pkt));
    var conn := StoredUnder(store, key);
    match out
    case WriteSucceeds =>
      Some(Respond(store, []).(found := Some(conn), input := Some(Input(key, conn, pkt.payload))))
    case WriteFails(reason) =>
      Some(Respond(store, Close(SidOf(pkt), "write: " + reason)).(found := Some(conn), input := Some(Input(key, conn, pkt.payload))))
    case _ => None
  }

  /** processMySQLProtocol and processMongoDBProtocol. */
  function RunQuery(store: Store, pkt: Packet, db: Protocol, out: Outcome): (r: Option<Reaction>)
    ensures r.Some? ==> NoWrites(r.value.main)
    ensures r.Some? ==> r.value.store == store && r.value.spawn == [] && r.value.decoded.None?
    ensures r.Some? && r.value.run.Some? ==> r.value.run.value.sid == SidOf(pkt)
  {
    var sid, conn := SidOf(pkt), ConnOf(pkt);
    if !HasParams(store, sid) then Some(Respond(store, Close(sid, PARAMS_NOT_FOUND)).(missing := true))
    else if conn == "" && pkt.payload != "" then Some(Respond(store, Close(sid, CONN_NOT_FOUND)))
    else if HasConn(store, ConnKey(sid, conn)) then WriteToStored(store, pkt, out)
    else match out
      case CredentialsMissing => Some(Respond(store, Close(sid, NO_CREDENTIALS)))
      case Executes(output, code) =>
        var params := store[ParamsKey(sid)].params;
        Some(Reaction(store, QueryReplies(pkt, db, output, code), [],
                      Some(Execution(sid, db, pkt.payload, params, output, code)), false, None, None, None))
      case _ => None
  }

  /** A connection that writes back through a stream writer with the packet's own spec. */
  function NewProxy(t: Turn, pkt: Packet, proto: Protocol, cb: Callback): (p: Proxy) {
    Proxy({ClientWrite(proto)}, pkt.spec, ConnKey(SidOf(pkt), ConnOf(pkt)), cb, t.number)
  }

  /** Connecting a new postgres, mssql or ssh proxy; only the ssh handler looks at the result
      of the first write. */
  function ConnectProxy(t: Turn, store: Store, pkt: Packet, proto: Protocol, out: Outcome): (r: Option<Reaction>)
    ensures r.Some? ==> NoWrites(r.value.main)
    ensures r.Some? ==> r.value.store == store && r.value.spawn == [] && r.value.run.None? && r.value.decoded.None?
  {
    var sid := SidOf(pkt);
    var proxy := NewProxy(t, pkt, proto, if proto.SSH? then ForgetAndClose else CloseOnDone);
    var input := Some(Input(proxy.key, t.number, pkt.payload));
    match out
    case CredentialsMissing => Some(Respond(store, Close(sid, NO_CREDENTIALS)))
    case ProxyFails(reason) => Some(Respond(store, Close(sid, "connect: " + reason)))
    case ProxyStarts => Some(Respond(store, [Start(proxy), Put(proxy.key, proxy)]).(input := input))
    case ProxyStartsWriteFails(reason) =>
      Some(Respond(store, [Start(proxy)] + if proto.SSH? then Close(sid, "connect: " + reason) else [Put(proxy.key, proxy)])
             .(input := input))
    case _ => None
  }

  /** processPGProtocol, processMSSQLProtocol and processSSHProtocol. */
  function ProxyWrite(t: Turn, store: Store, pkt: Packet, proto: Protocol, out: Outcome): (r: Option<Reaction>)
    ensures r.Some? ==> NoWrites(r.value.main)
    ensures r.Some? ==> r.value.store == store && r.value.spawn == [] && r.value.run.None? && r.value.decoded.None?
  {
    var sid, conn := SidOf(pkt), ConnOf(pkt);
    if !HasParams(store, sid) then Some(Respond(store, Close(sid, PARAMS_NOT_FOUND)).(missing := true))
    else if conn == "" && (proto.PG? || pkt.payload != "") then Some(Respond(store, Close(sid, CONN_NOT_FOUND)))
    else if HasConn(store, ConnKey(sid, conn)) then WriteToStored(store, pkt, out)
    else ConnectProxy(t, store, pkt, proto, out)
  }

  /** The goroutine of a new raw connection: it writes the opening payload, unless the packet only
      asks to connect, and then copies; a failing write ends it. */
  function Copier(t: Turn, pkt: Packet, proxy: Proxy, out: Outcome): (acts: seq<Act>) {
    var write := Write(Input(proxy.key, t.number, pkt.payload));
    if ServerConnect in pkt.spec then [Start(proxy)]
    else if out.ProxyStartsWriteFails? then [write, Send(TcpClosePacket(SidOf(pkt), ConnOf(pkt))), Del(proxy.key)]
    else [write, Start(proxy)]
  }

  /** Connecting a new raw or http connection.  A raw one is stored and left to its goroutine; an
      http proxy gets its first payload before it is stored. */
  function ConnectDirect(t: Turn, store: Store, pkt: Packet, proto: Protocol, out: Outcome): (r: Option<Reaction>)
    ensures r.Some? ==> NoWrites(r.value.main)
    ensures r.Some? ==> r.value.store == store && r.value.run.None? && r.value.decoded.None?
  {
    var sid := SidOf(pkt);
    var proxy := NewProxy(t, pkt, proto, if proto.TCP? then CopyFinished else NoCallback);
    match out
    case CredentialsMissing => Some(Respond(store, Close(sid, NO_CREDENTIALS)))
    case ProxyFails(reason) => Some(Respond(store, Close(sid, "connect: " + reason)))
    case ProxyStarts =>
      Some(if proto.TCP? then Respond(store, [Put(proxy.key, proxy)]).(spawn := Copier(t, pkt, proxy, out))
           else Respond(store, [Start(proxy), Put(proxy.key, proxy)]).(input := Some(Input(proxy.key, t.number, pkt.payload))))
    case ProxyStartsWriteFails(_) =>
      Some(if proto.TCP? then Respond(store, [Put(proxy.key, proxy)]).(spawn := Copier(t, pkt, proxy, out))
           else Respond(store, [Start(proxy), Put(proxy.key, proxy)]).(input := Some(Input(proxy.key, t.number, pkt.payload))))
    case _ => None
  }

  /** processTCPWriteServer and processHttpProxyWriteServer look at the connection id first. */
  function DirectWrite(t: Turn, store: Store, pkt: Packet, proto: Protocol, out: Outcome): (r: Option<Reaction>)
    ensures r.Some? ==> NoWrites(r.value.main)
    ensures r.Some? ==> r.value.store == store && r.value.run.None? && r.value.decoded.None?
  {
    var sid, conn := SidOf(pkt), ConnOf(pkt);
    if conn == "" then Some(Respond(store, Close(sid, CONN_NOT_FOUND)))
    else if !HasParams(store, sid) then Some(Respond(store, Close(sid, PARAMS_NOT_FOUND)).(missing := true))
    else if HasConn(store, ConnKey(sid, conn)) then WriteToStored(store, pkt, out)
    else ConnectDirect(t, store, pkt, proto, out)
  }

  /** doExec */
  function Exec(t: Turn, store: Store, pkt: Packet, out: Outcome): (r: Option<Reaction>)
    ensures r.Some? ==> NoWrites(r.value.main)
    ensures r.Some? ==> r.value.store == store && r.value.spawn == [] && r.value.run.None? && r.value.decoded.None?
  {
    var sid := SidOf(pkt);
    var key := ExecKey(sid);
    var proxy := Proxy({WriteStdout, WriteStderr}, map[SessionId := sid], key, ExecFinished, t.number);
    if !HasParams(store, sid) then Some(Respond(store, Close(sid, PARAMS_NOT_FOUND)).(missing := true))
    else match out
      case ProxyFails(reason) => Some(Respond(store, Close(sid, "command: " + reason)))
      case ProxyStarts => Some(Respond(store, [Put(key, proxy), Start(proxy)]).(input := Some(Input(key, t.number, pkt.payload))))
      case _ => None
  }

  /** doTerminalWriteAgentStdin */
  function TerminalWrite(t: Turn, store: Store, pkt: Packet, out: Outcome): (r: Option<Reaction>)
    ensures r.Some? ==> NoWrites(r.value.main)
    ensures r.Some? ==> r.value.store == store && r.value.spawn == [] && r.value.run.None? && r.value.decoded.None?
  {
    var sid := SidOf(pkt);
    var key := CmdKey(sid);
    var proxy := Proxy({WriteStdout}, map[SessionId := sid], key, TerminalFinished, t.number);
    var conn := StoredUnder(store, key);
    if !HasParams(store, sid) then
      Some(Respond(store, CloseWithCode(sid, PARAMS_NOT_FOUND, INTERNAL_EXIT_CODE)).(missing := true))
    else if HasConn(store, key) then
      match out
      case WriteSucceeds =>
        Some(Respond(store, []).(found := Some(conn), input := Some(Input(key, conn, pkt.payload))))
      case WriteFails(_) =>
        Some(Respond(store, CloseWithCode(sid, "", "0")).(found := Some(conn), input := Some(Input(key, conn, pkt.payload))))
      case _ => None
    else match out
      case ProxyFails(reason) => Some(Respond(store, CloseWithCode(sid, "command: " + reason, INTERNAL_EXIT_CODE)))
      case ProxyStarts => Some(Respond(store, [Start(proxy), Put(key, proxy)]))
      case _ => None
  }

  /** sessionCleanup: every closer whose key contains the session id. */
  function Cleanup(store: Store, sid: string): (r: Store) {
    map k | k in store && !(store[k].ConnEntry? && Contains(Render(k), sid)) :: store[k]
  }

  /** processTCPCloseConnection: every closer whose key starts with `sid:conn`. */
  function TcpClose(store: Store, sid: string, conn: string): (r: Store) {
    map k | k in store && !(store[k].ConnEntry? && Render(ConnKey(sid, conn)) <= Render(k)) :: store[k]
  }

  /** One iteration of the dispatch loop of Agent.Run; `None` when the outcome does not fit. */
  function Handle(t: Turn, store: Store, pkt: Packet, out: Outcome): (r: Option<Reaction>)
    ensures r.Some? ==> NoWrites(r.value.main)
    ensures r.Some? ==> forall k :: k in r.value.store ==> k in store || k == ParamsKey(SidOf(pkt))
    ensures r.Some? && r.value.run.Some? ==> r.value.run.value.sid == SidOf(pkt)
  {
    match pkt.typ
    case SessionOpen => OpenSession(t, store, pkt, out)
    case ExecWriteStdin => Exec(t, store, pkt, out)
    case AgentWrite(proto) =>
      (match proto
       case MySQL => RunQuery(store, pkt, MySQL, out)
       case MongoDB => RunQuery(store, pkt, MongoDB, out)
       case TCP => DirectWrite(t, store, pkt, TCP, out)
       case HttpProxy => DirectWrite(t, store, pkt, HttpProxy, out)
       case _ => ProxyWrite(t, store, pkt, proto, out))
    case TerminalWriteStdin => TerminalWrite(t, store, pkt, out)
    case AgentSessionClose =>
      Some(Respond(if SidOf(pkt) == "" then store else Cleanup(store, SidOf(pkt)), []))
    case AgentTCPClose => Some(Respond(TcpClose(store, SidOf(pkt), ConnOf(pkt)), []))
    case _ => Some(Respond(store, []))
  }

  /** What a proxy's owner does when the proxy calls back; also the tail of the tcp copier. */
  function CallbackActs(proxy: Proxy, code: Int64, msg: string): (acts: seq<Act>) {
    var sid := proxy.key.sid;
    match proxy.cb
    case NoCallback => []
    case CloseOnDone => Close(sid, msg)
    case ForgetAndClose => [Del(proxy.key)] + Close(sid, msg)
    case ExecFinished => [Del(proxy.key)] + CloseWithCode(sid, msg, ToText(code))
    case TerminalFinished => CloseWithCode(sid, msg, ToText(code))
    case CopyFinished =>
      (if msg != "" && proxy.key.ConnKey? then [Send(TcpClosePacket(sid, proxy.key.conn))] else []) + [Del(proxy.key)]
  }
}
