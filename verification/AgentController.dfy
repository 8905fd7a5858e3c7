/**
  The agent as the source writes it (agent/controller): an object whose methods change the
  connection store and send packets, one statement after the other, on string keys.  Each method
  is proved against the handler functions that the session protocol uses.  Most of them follow
  their function branch for branch; what is added here is the string-keyed store behind the
  structured keys, the loops of cleanup and TCP close, and the order of the statements.  What the
  handlers guarantee is stated over the functions, in AgentProcess and the modules that build on it.
 */
module AgentController {
  import opened Selection
  import opened Decimal
  import opened Wire
  import opened ConnKeys
  import opened SessionSetup
  import opened AgentHandlers
  import MemoryStore

  // ---- String keys and structured keys ---------------------------------------------------

  /** The string-keyed map holds exactly the entries of the structured one. */
  ghost predicate Represents(m: map<string, Entry>, view: Store) {
    && (forall k :: k in view ==> StampedSid(k.sid) && Render(k) in m && m[Render(k)] == view[k])
    && (forall s :: s in m ==> exists k :: k in view && Render(k) == s)
  }

  lemma RepresentsGet(m: map<string, Entry>, view: Store, k: StoreKey)
    requires Represents(m, view) && StampedSid(k.sid)
    ensures Render(k) in m <==> k in view
    ensures k in view ==> m[Render(k)] == view[k]
  {
    hide Render;
    if Render(k) in m {
      var k' :| k' in view && Render(k') == Render(k);
      RenderInjective(k, k');
    }
  }

  lemma RepresentsSet(m: map<string, Entry>, view: Store, k: StoreKey, e: Entry)
    requires Represents(m, view) && StampedSid(k.sid)
    ensures Represents(m[Render(k) := e], view[k := e])
  {
    hide Render;
    forall k' | k' in view ensures Render(k') == Render(k) ==> k' == k { RenderInjective(k, k'); }
    var m', view' := m[Render(k) := e], view[k := e];
    forall s | s in m' ensures exists k' :: k' in view' && Render(k') == s {
      if s == Render(k) {
        assert k in view';
      } else {
        var k' :| k' in view && Render(k') == s;
        assert k' in view';
      }
    }
  }

  /** Removing the entries whose keys pass a test, in both maps. */
  lemma RepresentsFilter(m: map<string, Entry>, view: Store, m': map<string, Entry>, view': Store, drop: string -> bool)
    requires Represents(m, view)
    requires m' == map s | s in m && !(m[s].ConnEntry? && drop(s)) :: m[s]
    requires view' == map k | k in view && !(view[k].ConnEntry? && drop(Render(k))) :: view[k]
    ensures Represents(m', view')
  {
    hide Render;
    forall s | s in m' ensures exists k :: k in view' && Render(k) == s {
      var k :| k in view && Render(k) == s;
      assert k in view';
    }
  }

  lemma RepresentsDel(m: map<string, Entry>, view: Store, k: StoreKey)
    requires Represents(m, view) && StampedSid(k.sid)
    ensures Represents(m - {Render(k)}, view - {k})
  {
    hide Render;
    forall k' | k' in view ensures Render(k') == Render(k) ==> k' == k { RenderInjective(k, k'); }
    forall s | s in m - {Render(k)} ensures exists k' :: k' in view - {k} && Render(k') == s {
      var k' :| k' in view && Render(k') == s;
      assert k' in view - {k};
    }
  }

  // ---- Effects ---------------------------------------------------------------------------

  /** What a handler can change: the store, the stream to the gateway, the proxies running, and
      what connections have been handed. */
  datatype Effects = Effects(store: Store, sent: seq<Packet>, proxies: seq<Proxy>, inputs: seq<Input>)

  function Perform(e: Effects, act: Act): (r: Effects) {
    match act
    case Send(p) => e.(sent := e.sent + [p])
    case Put(k, proxy) => e.(store := e.store[k := ConnEntry(proxy)])
    case Del(k) => e.(store := e.store - {k})
    case Start(proxy) => e.(proxies := e.proxies + [proxy])
    case Write(input) => e.(inputs := e.inputs + [input])
  }

  /** The acts of one goroutine, undisturbed. */
  function PerformAll(e: Effects, acts: seq<Act>): (r: Effects)
    decreases |acts|
  {
    if acts == [] then e else PerformAll(Perform(e, acts[0]), acts[1..])
  }

  lemma {:induction false} PerformAppend(e: Effects, a: seq<Act>, b: seq<Act>)
    ensures PerformAll(e, a + b) == PerformAll(PerformAll(e, a), b)
    decreases |a|
  {
    if a == [] {
      assert a + b == b;
    } else {
      assert (a + b)[1..] == a[1..] + b;
      PerformAppend(Perform(e, a[0]), a[1..], b);
    }
  }

  lemma PerformOne(e: Effects, a: Act)
    ensures PerformAll(e, [a]) == Perform(e, a)
  {
    assert PerformAll(Perform(e, a), []) == Perform(e, a);
  }

  lemma PerformTwo(e: Effects, a: Act, b: Act)
    ensures PerformAll(e, [a, b]) == Perform(Perform(e, a), b)
  {
    assert [a, b][1..] == [b];
    PerformOne(Perform(e, a), b);
  }

  lemma PerformThree(e: Effects, a: Act, b: Act, c: Act)
    ensures PerformAll(e, [a, b, c]) == Perform(Perform(Perform(e, a), b), c)
  {
    assert [a, b, c][1..] == [b, c];
    PerformTwo(Perform(e, a), b, c);
  }

  /** What the world outside answers while a handler runs; an error text means failure. */
  datatype World = World(
    decodeError: string, liveness: Option<string>,
    writeError: Option<string>, credentials: bool, connectError: Option<string>, firstWriteError: Option<string>,
    output: string, exitCode: Int64)

  /** The goroutines after a reaction that may start one. */
  function Spawned(before: seq<seq<Act>>, r: Reaction): (after: seq<seq<Act>>) {
    if r.spawn == [] then before else before + [r.spawn]
  }

  /** The state a reaction's acts start from: its store, and what it handed over at once. */
  function Handing(e: Effects, r: Reaction): (h: Effects) {
    e.(store := r.store, inputs := if r.input.Some? then e.inputs + [r.input.value] else e.inputs)
  }

  // ---- The agent -------------------------------------------------------------------------

  class Agent {
    const setup: Setup
    const connStore: MemoryStore.Store<Entry>
    var sent: seq<Packet>
    var proxies: seq<Proxy>
    var goroutines: seq<seq<Act>>
    var runs: seq<Execution>
    var inputs: seq<Input>
    ghost var view: Store

    ghost predicate Valid()
      reads this, connStore
    {
      Represents(connStore.m, view)
    }

    ghost function State(): (e: Effects)
      reads this
    {
      Effects(view, sent, proxies, inputs)
    }

    constructor (setup: Setup)
      ensures Valid() && fresh(connStore) && this.setup == setup
      ensures State() == Effects(map[], [], [], []) && goroutines == [] && runs == []
    {
      this.setup := setup;
      connStore := new MemoryStore.Store();
      sent, proxies, goroutines, runs, inputs := [], [], [], [], [];
      view := map[];
    }

    method SendPacket(p: Packet)
      requires Valid()
      modifies this`sent
      ensures Valid() && State() == Perform(old(State()), Send(p))
    {
      sent := sent + [p];
    }

    /** sendClientSessionCloseWithExitCode */
    method SendSessionCloseWithExitCode(sid: string, errMsg: string, exitCode: string)
      requires Valid()
      modifies this`sent
      ensures Valid() && State() == PerformAll(old(State()), CloseWithCode(sid, errMsg, exitCode))
    {
      if sid == "" {
        return;
      }
      PerformOne(State(), Send(ClosePacket(sid, errMsg, exitCode)));
      SendPacket(ClosePacket(sid, errMsg, exitCode));
    }

    /** sendClientSessionClose: without an error message it has ended with success. */
    method SendSessionClose(sid: string, errMsg: string)
      requires Valid()
      modifies this`sent
      ensures Valid() && State() == PerformAll(old(State()), Close(sid, errMsg))
    {
      var exitCode := "0";
      if errMsg != "" {
        exitCode := INTERNAL_EXIT_CODE;
      }
      SendSessionCloseWithExitCode(sid, errMsg, exitCode);
    }

    /** connectionParams */
    method ConnectionParams(sid: string) returns (r: Option<Params>)
      requires Valid() && StampedSid(sid)
      ensures r == if HasParams(view, sid) then Some(view[ParamsKey(sid)].params) else None
    {
      RepresentsGet(connStore.m, view, ParamsKey(sid));
      var entry := connStore.Get(sid);
      if entry.Some? && entry.value.ParamsEntry? {
        return Some(entry.value.params);
      }
      return None;
    }

    /** The identity of the connection stored under the key. */
    method OpenerOf(k: StoreKey) returns (conn: nat)
      requires Valid() && StampedSid(k.sid) && HasConn(view, k)
      ensures conn == StoredUnder(view, k)
    {
      RepresentsGet(connStore.m, view, k);
      var entry := connStore.Get(Render(k));
      return entry.value.proxy.opener;
    }

    /** Whether an open connection is stored under the key. */
    method StoredConn(k: StoreKey) returns (found: bool)
      requires Valid() && StampedSid(k.sid)
      ensures found <==> HasConn(view, k)
    {
      RepresentsGet(connStore.m, view, k);
      var entry := connStore.Get(Render(k));
      return entry.Some? && entry.value.ConnEntry?;
    }

    method StoreConn(k: StoreKey, proxy: Proxy)
      requires Valid() && StampedSid(k.sid)
      modifies connStore, this`view
      ensures Valid() && State() == Perform(old(State()), Put(k, proxy))
    {
      RepresentsSet(connStore.m, view, k, ConnEntry(proxy));
      connStore.Set(Render(k), ConnEntry(proxy));
      view := view[k := ConnEntry(proxy)];
    }

    method ForgetConn(k: StoreKey)
      requires Valid() && StampedSid(k.sid)
      modifies connStore, this`view
      ensures Valid() && State() == Perform(old(State()), Del(k))
    {
      RepresentsDel(connStore.m, view, k);
      connStore.Del(Render(k));
      view := view - {k};
    }

    /** Bytes written to a connection. */
    method HandOver(input: Input)
      requires Valid()
      modifies this`inputs
      ensures Valid() && State() == old(State()).(inputs := old(inputs) + [input])
    {
      inputs := inputs + [input];
    }

    /** Run of a libbifrost proxy, or the copying of a raw connection. */
    method RunProxy(proxy: Proxy)
      requires Valid()
      modifies this`proxies
      ensures Valid() && State() == Perform(old(State()), Start(proxy))
    {
      proxies := proxies + [proxy];
    }

    /** The write to a stored connection, and the close it leads to when it fails. */
    method WriteStored(pkt: Packet, w: World) returns (out: Outcome)
      requires Valid()
      modifies this`sent, this`inputs
      requires StampedSid(SidOf(pkt)) && HasConn(view, ConnKey(SidOf(pkt), ConnOf(pkt)))
      ensures Valid() && Reacted(old(State()), WriteToStored(old(view), pkt, out))
    {
      var key := ConnKey(SidOf(pkt), ConnOf(pkt));
      var conn := OpenerOf(key);
      HandOver(Input(key, conn, pkt.payload));
      if w.writeError.Some? {
        SendSessionClose(SidOf(pkt), "write: " + w.writeError.value);
        return WriteFails(w.writeError.value);
      }
      return WriteSucceeds;
    }

    // ---- The handlers --------------------------------------------------------------------

    /** The handler's reaction, performed to its end, and what it handed to a connection. */
    ghost predicate Reacted(before: Effects, r: Option<Reaction>)
      reads this
    {
      r.Some? && State() == PerformAll(Handing(before, r.value), r.value.main)
    }

    /** processMySQLProtocol and processMongoDBProtocol. */
    method ProcessQuery(pkt: Packet, db: Protocol, w: World) returns (out: Outcome)
      requires Valid() && StampedSid(SidOf(pkt))
      modifies this`sent, this`runs, this`inputs
      ensures Valid() && Reacted(old(State()), RunQuery(old(view), pkt, db, out))
      ensures var r := RunQuery(old(view), pkt, db, out).value;
              runs == if r.run.Some? then old(runs) + [r.run.value] else old(runs)
    {
      hide Represents, PerformAll, Perform, ToText, WriteToStored;
      out := Nothing;
      var sid := SidOf(pkt);
      var params := ConnectionParams(sid);
      if params.None? {
        SendSessionClose(sid, PARAMS_NOT_FOUND);
        return;
      }
      var conn := ConnOf(pkt);
      if conn == "" && pkt.payload != "" {
        SendSessionClose(sid, CONN_NOT_FOUND);
        return;
      }
      var stored := StoredConn(ConnKey(sid, conn));
      if stored {
        out := WriteStored(pkt, w);
        return;
      }
      if !w.credentials {
        SendSessionClose(sid, NO_CREDENTIALS);
        return CredentialsMissing;
      }
      out := Executes(w.output, w.exitCode);
      ExecuteQuery(pkt, db, params.value, w);
    }

    /** The command line, its output to the client, and the close with its exit code. */
    method ExecuteQuery(pkt: Packet, db: Protocol, params: Params, w: World)
      requires Valid()
      modifies this`sent, this`runs
      ensures Valid() && State() == PerformAll(old(State()), QueryReplies(pkt, db, w.output, w.exitCode))
      ensures runs == old(runs) + [Execution(SidOf(pkt), db, pkt.payload, params, w.output, w.exitCode)]
    {
      hide ToText, Perform;
      runs := runs + [Execution(SidOf(pkt), db, pkt.payload, params, w.output, w.exitCode)];
      ghost var write: seq<Act> := if w.output != "" then [Send(Packet(ClientWrite(db), w.output, pkt.spec))] else [];
      ghost var close := CloseWithCode(SidOf(pkt), if w.exitCode == 0 then "" else "failed", ToText(w.exitCode));
      PerformAppend(State(), write, close);
      if |w.output| > 0 {
        PerformOne(State(), Send(Packet(ClientWrite(db), w.output, pkt.spec)));
        SendPacket(Packet(ClientWrite(db), w.output, pkt.spec));
      }
      if w.exitCode == 0 {
        ZeroText();
        SendSessionCloseWithExitCode(SidOf(pkt), "", "0");
      } else {
        SendSessionCloseWithExitCode(SidOf(pkt), "failed", ToText(w.exitCode));
      }
    }

    /** processPGProtocol, processMSSQLProtocol and processSSHProtocol. */
    method ProcessProxy(number: nat, pkt: Packet, proto: Protocol, w: World) returns (out: Outcome)
      requires Valid() && StampedSid(SidOf(pkt))
      modifies connStore, this`sent, this`proxies, this`view, this`inputs
      ensures Valid() && Reacted(old(State()), ProxyWrite(Turn(setup, number), old(view), pkt, proto, out))
    {
      hide Represents, PerformAll, Perform, ConnectProxy;
      out := Nothing;
      var sid := SidOf(pkt);
      var params := ConnectionParams(sid);
      if params.None? {
        SendSessionClose(sid, PARAMS_NOT_FOUND);
        return;
      }
      var conn := ConnOf(pkt);
      if conn == "" && (proto.PG? || pkt.payload != "") {
        SendSessionClose(sid, CONN_NOT_FOUND);
        return;
      }
      var stored := StoredConn(ConnKey(sid, conn));
      if stored {
        out := WriteStored(pkt, w);
        return;
      }
      out := StartProxy(number, pkt, proto, w);
    }

    /** A new proxy is run first and stored last; only ssh gives up when its first write fails. */
    method StartProxy(number: nat, pkt: Packet, proto: Protocol, w: World) returns (out: Outcome)
      requires Valid() && StampedSid(SidOf(pkt))
      modifies connStore, this`sent, this`proxies, this`view, this`inputs
      ensures Valid() && Reacted(old(State()), ConnectProxy(Turn(setup, number), old(view), pkt, proto, out))
    {
      hide Represents, PerformAll, Perform;
      var sid := SidOf(pkt);
      if !w.credentials {
        SendSessionClose(sid, NO_CREDENTIALS);
        return CredentialsMissing;
      }
      if w.connectError.Some? {
        SendSessionClose(sid, "connect: " + w.connectError.value);
        return ProxyFails(w.connectError.value);
      }
      var proxy := NewProxy(Turn(setup, number), pkt, proto, if proto.SSH? then ForgetAndClose else CloseOnDone);
      out := if w.firstWriteError.Some? then ProxyStartsWriteFails(w.firstWriteError.value) else ProxyStarts;
      HandOver(Input(proxy.key, number, pkt.payload));
      PerformTwo(State(), Start(proxy), Put(proxy.key, proxy));
      PerformOne(State(), Start(proxy));
      if w.firstWriteError.Some? {
        PerformAppend(State(), [Start(proxy)], Close(sid, "connect: " + w.firstWriteError.value));
      }
      RunProxy(proxy);
      if proto.SSH? && w.firstWriteError.Some? {
        SendSessionClose(sid, "connect: " + w.firstWriteError.value);
        return;
      }
      StoreConn(proxy.key, proxy);
      assert [Start(proxy)] + [Put(proxy.key, proxy)] == [Start(proxy), Put(proxy.key, proxy)];
    }

    /** processTCPWriteServer and processHttpProxyWriteServer: the raw connection is stored before
        its copier starts. */
    method ProcessDirect(number: nat, pkt: Packet, proto: Protocol, w: World) returns (out: Outcome)
      requires Valid() && StampedSid(SidOf(pkt))
      modifies connStore, this`sent, this`view, this`proxies, this`inputs, this`goroutines
      ensures Valid() && Reacted(old(State()), DirectWrite(Turn(setup, number), old(view), pkt, proto, out))
      ensures goroutines == Spawned(old(goroutines), DirectWrite(Turn(setup, number), old(view), pkt, proto, out).value)
    {
      hide Represents, PerformAll, Perform, ConnectDirect, WriteToStored;
      out := Nothing;
      var sid, conn := SidOf(pkt), ConnOf(pkt);
      if conn == "" {
        SendSessionClose(sid, CONN_NOT_FOUND);
        return;
      }
      var params := ConnectionParams(sid);
      if params.None? {
        SendSessionClose(sid, PARAMS_NOT_FOUND);
        return;
      }
      var key := ConnKey(sid, conn);
      var stored := StoredConn(key);
      if stored {
        out := WriteStored(pkt, w);
        return;
      }
      out := OpenDirect(number, pkt, proto, w);
    }

    /** A new raw connection is stored and its copier started; a new http proxy is handed its first
        payload and stored. */
    method OpenDirect(number: nat, pkt: Packet, proto: Protocol, w: World) returns (out: Outcome)
      requires Valid() && StampedSid(SidOf(pkt))
      modifies connStore, this`sent, this`view, this`proxies, this`inputs, this`goroutines
      ensures Valid() && Reacted(old(State()), ConnectDirect(Turn(setup, number), old(view), pkt, proto, out))
      ensures goroutines == Spawned(old(goroutines), ConnectDirect(Turn(setup, number), old(view), pkt, proto, out).value)
    {
      hide Represents, PerformAll, Perform;
      var sid := SidOf(pkt);
      var key := ConnKey(sid, ConnOf(pkt));
      if !w.credentials {
        SendSessionClose(sid, NO_CREDENTIALS);
        return CredentialsMissing;
      }
      if w.connectError.Some? {
        SendSessionClose(sid, "connect: " + w.connectError.value);
        return ProxyFails(w.connectError.value);
      }
      out := if w.firstWriteError.Some? then ProxyStartsWriteFails(w.firstWriteError.value) else ProxyStarts;
      var proxy := NewProxy(Turn(setup, number), pkt, proto, if proto.TCP? then CopyFinished else NoCallback);
      if proto.TCP? {
        PerformOne(State(), Put(key, proxy));
        StoreConn(key, proxy);
        goroutines := goroutines + [Copier(Turn(setup, number), pkt, proxy, out)];
      } else {
        HandOver(Input(key, number, pkt.payload));
        PerformTwo(State(), Start(proxy), Put(key, proxy));
        RunProxy(proxy);
        StoreConn(key, proxy);
      }
    }

    /** The goroutine of a raw connection, undisturbed. */
    method CopyLoop(number: nat, pkt: Packet, proxy: Proxy, w: World) returns (out: Outcome)
      requires Valid() && StampedSid(SidOf(pkt)) && proxy.key == ConnKey(SidOf(pkt), ConnOf(pkt))
      modifies connStore, this`sent, this`proxies, this`view, this`inputs
      ensures Valid() && State() == PerformAll(old(State()), Copier(Turn(setup, number), pkt, proxy, out))
    {
      hide Represents;
      out := if w.firstWriteError.Some? then ProxyStartsWriteFails(w.firstWriteError.value) else ProxyStarts;
      ghost var before := State();
      if ServerConnect !in pkt.spec {
        HandOver(Input(proxy.key, number, pkt.payload));
        if w.firstWriteError.Some? {
          SendPacket(TcpClosePacket(SidOf(pkt), ConnOf(pkt)));
          ForgetConn(proxy.key);
          PerformThree(before, Write(Input(proxy.key, number, pkt.payload)), Send(TcpClosePacket(SidOf(pkt), ConnOf(pkt))), Del(proxy.key));
          return;
        }
        PerformTwo(before, Write(Input(proxy.key, number, pkt.payload)), Start(proxy));
      } else {
        PerformOne(before, Start(proxy));
      }
      RunProxy(proxy);
    }

    /** doExec */
    method DoExec(number: nat, pkt: Packet, w: World) returns (out: Outcome)
      requires Valid() && StampedSid(SidOf(pkt))
      modifies connStore, this`sent, this`proxies, this`view, this`inputs
      ensures Valid() && Reacted(old(State()), Exec(Turn(setup, number), old(view), pkt, out))
    {
      hide Represents, PerformAll, Perform;
      out := Nothing;
      var sid := SidOf(pkt);
      var params := ConnectionParams(sid);
      if params.None? {
        SendSessionClose(sid, PARAMS_NOT_FOUND);
        return;
      }
      if w.connectError.Some? {
        SendSessionClose(sid, "command: " + w.connectError.value);
        return ProxyFails(w.connectError.value);
      }
      out := ProxyStarts;
      var proxy := Proxy({WriteStdout, WriteStderr}, map[SessionId := sid], ExecKey(sid), ExecFinished, number);
      HandOver(Input(proxy.key, number, pkt.payload));
      PerformTwo(State(), Put(proxy.key, proxy), Start(proxy));
      StoreConn(proxy.key, proxy);
      RunProxy(proxy);
    }

    /** doTerminalWriteAgentStdin */
    method DoTerminalWrite(number: nat, pkt: Packet, w: World) returns (out: Outcome)
      requires Valid() && StampedSid(SidOf(pkt))
      modifies connStore, this`sent, this`proxies, this`view, this`inputs
      ensures Valid() && Reacted(old(State()), TerminalWrite(Turn(setup, number), old(view), pkt, out))
    {
      hide Represents, PerformAll, Perform;
      out := Nothing;
      var sid := SidOf(pkt);
      var params := ConnectionParams(sid);
      if params.None? {
        SendSessionCloseWithExitCode(sid, PARAMS_NOT_FOUND, INTERNAL_EXIT_CODE);
        return;
      }
      var stored := StoredConn(CmdKey(sid));
      if stored {
        var conn := OpenerOf(CmdKey(sid));
        HandOver(Input(CmdKey(sid), conn, pkt.payload));
        if w.writeError.Some? {
          SendSessionCloseWithExitCode(sid, "", "0");
          return WriteFails(w.writeError.value);
        }
        NoActs(State());
        return WriteSucceeds;
      }
      if w.connectError.Some? {
        SendSessionCloseWithExitCode(sid, "command: " + w.connectError.value, INTERNAL_EXIT_CODE);
        return ProxyFails(w.connectError.value);
      }
      out := ProxyStarts;
      var proxy := Proxy({WriteStdout}, map[SessionId := sid], CmdKey(sid), TerminalFinished, number);
      PerformTwo(State(), Start(proxy), Put(proxy.key, proxy));
      RunProxy(proxy);
      StoreConn(proxy.key, proxy);
    }

    /** processSessionOpen: parameters are stored before the goroutine that answers is started. */
    method ProcessSessionOpen(number: nat, pkt: Packet, w: World) returns (out: Outcome)
      requires Valid() && StampedSid(SidOf(pkt))
      modifies connStore, this`sent, this`goroutines, this`view
      ensures Valid() && Reacted(old(State()), OpenSession(Turn(setup, number), old(view), pkt, out))
      ensures goroutines == Spawned(old(goroutines), OpenSession(Turn(setup, number), old(view), pkt, out).value)
    {
      hide Represents;
      var sid := SidOf(pkt);
      var decoded := BuildParams(setup, pkt);
      if decoded.None? {
        PerformTwo(State(), Send(ClosePacket(sid, w.decodeError, INTERNAL_EXIT_CODE)), Send(ClosePacket(sid, "bad params", INTERNAL_EXIT_CODE)));
        SendPacket(ClosePacket(sid, w.decodeError, INTERNAL_EXIT_CODE));
        SendPacket(ClosePacket(sid, "bad params", INTERNAL_EXIT_CODE));
        return OpenFails(w.decodeError);
      }
      var params := decoded.value;
      RepresentsSet(connStore.m, view, ParamsKey(sid), ParamsEntry(params));
      connStore.Set(Render(ParamsKey(sid)), ParamsEntry(params));
      view := view[ParamsKey(sid) := ParamsEntry(params)];
      var body: seq<Act> := [];
      if w.liveness.Some? {
        body := [Send(ClosePacket(sid, w.liveness.value, INTERNAL_EXIT_CODE))];
      }
      body := body + [Send(OpenOkPacket(sid, pkt, params.command))];
      goroutines := goroutines + [body];
      out := Opens(w.liveness);
    }

    /** sessionCleanup: closers whose key contains the session id, in any order. */
    method SessionCleanup(sid: string)
      requires Valid()
      modifies connStore, this`view
      ensures Valid() && view == Cleanup(old(view), sid)
    {
      hide Represents, Contains, Render;
      ghost var m0 := connStore.m;
      var filterFn := k => Contains(k, sid);
      var found := connStore.Filter(filterFn);
      var keys := found.Keys;
      while keys != {}
        invariant view == old(view) && keys <= found.Keys
        invariant connStore.m == map k | k in m0 && !(k in found && k !in keys && m0[k].ConnEntry?) :: m0[k]
        decreases keys
      {
        var key :| key in keys;
        if found[key].ConnEntry? {
          connStore.Del(key);
        }
        keys := keys - {key};
      }
      assert connStore.m == map k | k in m0 && !(m0[k].ConnEntry? && filterFn(k)) :: m0[k];
      assert Cleanup(view, sid) == map k | k in view && !(view[k].ConnEntry? && filterFn(Render(k))) :: view[k];
      RepresentsFilter(m0, view, connStore.m, Cleanup(view, sid), filterFn);
      view := Cleanup(view, sid);
    }

    /** processTCPCloseConnection: closers whose key starts with `sid:conn`, in any order. */
    method ProcessTcpClose(pkt: Packet)
      requires Valid()
      modifies connStore, this`view
      ensures Valid() && view == TcpClose(old(view), SidOf(pkt), ConnOf(pkt))
    {
      hide Represents, Render;
      ghost var m0 := connStore.m;
      var filterKey := Render(ConnKey(SidOf(pkt), ConnOf(pkt)));
      var filterFn := k => filterKey <= k;
      var found := connStore.Filter(filterFn);
      var keys := found.Keys;
      while keys != {}
        invariant view == old(view) && keys <= found.Keys
        invariant connStore.m == map k | k in m0 && !(k in found && k !in keys && m0[k].ConnEntry?) :: m0[k]
        decreases keys
      {
        var key :| key in keys;
        if found[key].ConnEntry? {
          connStore.Del(key);
        }
        keys := keys - {key};
      }
      ghost var after := TcpClose(view, SidOf(pkt), ConnOf(pkt));
      assert connStore.m == map k | k in m0 && !(m0[k].ConnEntry? && filterFn(k)) :: m0[k];
      assert after == map k | k in view && !(view[k].ConnEntry? && filterFn(Render(k))) :: view[k];
      RepresentsFilter(m0, view, connStore.m, after, filterFn);
      view := after;
    }

    /** processSessionClose */
    method ProcessSessionClose(pkt: Packet)
      requires Valid()
      modifies connStore, this`view
      ensures Valid() && view == if SidOf(pkt) == "" then old(view) else Cleanup(old(view), SidOf(pkt))
    {
      if SidOf(pkt) == "" {
        return;
      }
      SessionCleanup(SidOf(pkt));
    }

    /** What the handlers pass to Run as the completion callback, and the end of the copier. */
    method ProxyDone(proxy: Proxy, code: Int64, msg: string)
      requires Valid() && StampedSid(proxy.key.sid)
      modifies connStore, this`sent, this`view
      ensures Valid() && State() == PerformAll(old(State()), CallbackActs(proxy, code, msg))
    {
      hide Represents, Perform, ToText;
      var sid := proxy.key.sid;
      match proxy.cb
      case NoCallback =>
      case CloseOnDone => SendSessionClose(sid, msg);
      case ForgetAndClose =>
        PerformAppend(State(), [Del(proxy.key)], Close(sid, msg));
        PerformOne(State(), Del(proxy.key));
        ForgetConn(proxy.key);
        SendSessionClose(sid, msg);
      case ExecFinished =>
        PerformAppend(State(), [Del(proxy.key)], CloseWithCode(sid, msg, ToText(code)));
        PerformOne(State(), Del(proxy.key));
        ForgetConn(proxy.key);
        SendSessionCloseWithExitCode(sid, msg, ToText(code));
      case TerminalFinished => SendSessionCloseWithExitCode(sid, msg, ToText(code));
      case CopyFinished =>
        PerformOne(State(), Del(proxy.key));
        if msg != "" && proxy.key.ConnKey? {
          PerformTwo(State(), Send(TcpClosePacket(sid, proxy.key.conn)), Del(proxy.key));
          assert [Send(TcpClosePacket(sid, proxy.key.conn))] + [Del(proxy.key)] == [Send(TcpClosePacket(sid, proxy.key.conn)), Del(proxy.key)];
          SendPacket(TcpClosePacket(sid, proxy.key.conn));
        }
        ForgetConn(proxy.key);
    }

    /** The body of the dispatch loop of Agent.Run: whatever the packet and whatever the world
        answers, the agent does what the protocol model's handler does. */
    method Dispatch(number: nat, pkt: Packet, w: World) returns (out: Outcome)
      requires Valid() && StampedSid(SidOf(pkt))
      modifies this, connStore
      ensures Valid() && Reacted(old(State()), Handle(Turn(setup, number), old(view), pkt, out))
      ensures var r := Handle(Turn(setup, number), old(view), pkt, out).value;
              && runs == (if r.run.Some? then old(runs) + [r.run.value] else old(runs))
              && goroutines == Spawned(old(goroutines), r)
    {
      hide Represents, Perform, Exec, RunQuery, DirectWrite, ProxyWrite, TerminalWrite, Cleanup, TcpClose, StampedSid;
      out := Nothing;
      match pkt.typ
      case SessionOpen => out := ProcessSessionOpen(number, pkt, w);
      case ExecWriteStdin => out := DoExec(number, pkt, w);
      case AgentWrite(proto) =>
        if proto.MySQL? || proto.MongoDB? {
          out := ProcessQuery(pkt, proto, w);
        } else if proto.TCP? || proto.HttpProxy? {
          out := ProcessDirect(number, pkt, proto, w);
        } else {
          out := ProcessProxy(number, pkt, proto, w);
        }
      case TerminalWriteStdin => out := DoTerminalWrite(number, pkt, w);
      case AgentSessionClose => ProcessSessionClose(pkt);
      case AgentTCPClose => ProcessTcpClose(pkt);
      case _ =>
    }
  }

  lemma NoActs(e: Effects)
    ensures PerformAll(e, []) == e
  {
  }

  lemma ZeroText()
    ensures ToText(0) == "0"
  {
  }
}
