/**
  The API server's `executeQuery` (api-server/main.go): the automaton that opens a session,
  sends the query once the session is open, and collects the answer.
 */
module QueryClient {
  import opened Selection
  import opened Decimal
  import opened Wire

  datatype Status = Running | Returned(viaClose: bool) | Failed

  /** `sent` is everything the client has put on its stream, in order. */
  datatype QueryState = QueryState(
    db: Protocol, query: string, results: string, exitCode: int, status: Status, sent: seq<Packet>)

  predicate Supported(db: Protocol) {
    db.MySQL? || db.PG? || db.MSSQL? || db.MongoDB?
  }

  function QueryPacket(db: Protocol, sid: string, query: string): (p: Packet) {
    Packet(AgentWrite(db), query, map[SessionId := sid, ConnectionId := "web-conn-1"])
  }

  function TypeName(db: Protocol): (name: string) {
    match db
    case PG => "postgres"
    case MySQL => "mysql"
    case MSSQL => "mssql"
    case MongoDB => "mongodb"
    case TCP => "tcp"
    case SSH => "ssh"
    case HttpProxy => "httpproxy"
  }

  /** The packet that opens the session; `params` are the encoded connection parameters. */
  function OpenPacket(db: Protocol, query: string, params: string): (p: Packet) {
    Packet(SessionOpen, query, map[EncodedParams := params, ConnectionType := TypeName(db)])
  }

  /** The state after the SessionOpen packet `open` was sent. */
  function Begin(db: Protocol, query: string, open: Packet): (st: QueryState) {
    QueryState(db, query, "", 0, if Supported(db) then Running else Failed, [open])
  }

  /** One iteration of the receive loop. */
  function OnPacket(st: QueryState, pkt: Packet): (r: QueryState) {
    if st.status != Running then st
    else match pkt.typ
      case SessionOpenOK => st.(sent := st.sent + [QueryPacket(st.db, SidOf(pkt), st.query)])
      case ClientWrite(db) => if db == st.db then st.(results := pkt.payload) else st
      case ClientSessionClose =>
        var code := Scan(Get(pkt.spec, ExitCode));
        st.(exitCode := if code.Some? then code.value else st.exitCode, status := Returned(true))
      case _ => st
  }

  /** The state after the packets `pkts` were received. */
  function Feed(st: QueryState, pkts: seq<Packet>): (r: QueryState)
    ensures r.db == st.db && r.query == st.query
  {
    if pkts == [] then st else OnPacket(Feed(st, pkts[..|pkts| - 1]), pkts[|pkts| - 1])
  }

  /** What `stream.Recv` yields. */
  datatype Received = Pkt(p: Packet) | Eof | StreamError

  function Packets(rs: seq<Received>): (ps: seq<Packet>)
    requires forall i :: 0 <= i < |rs| ==> rs[i].Pkt?
    ensures |ps| == |rs| && forall i :: 0 <= i < |rs| ==> ps[i] == rs[i].p
  {
    seq(|rs|, i requires 0 <= i < |rs| => rs[i].p)
  }

  /** The receive loop over a stream that yields `input`: it consumes packets until the session
      is closed or the stream ends, and what it returns is the automaton fed those packets. */
  method ReceiveLoop(start: QueryState, input: seq<Received>) returns (st: QueryState, consumed: nat)
    ensures consumed <= |input|
    ensures st.status == Running ==> consumed == |input|
    ensures forall i :: 0 <= i < consumed - 1 ==> input[i].Pkt?
    ensures (forall i :: 0 <= i < consumed ==> input[i].Pkt?) ==> st == Feed(start, Packets(input[..consumed]))
    ensures consumed > 0 && !input[consumed - 1].Pkt? ==>
              st == Feed(start, Packets(input[..consumed - 1])).(
                status := if input[consumed - 1].Eof? then Returned(false) else Failed)
  {
    hide Feed, Scan, QueryPacket;
    st := start;
    consumed := 0;
    FeedNone(start);
    while consumed < |input| && st.status == Running
      invariant consumed <= |input|
      invariant forall i :: 0 <= i < consumed ==> input[i].Pkt?
      invariant st == Feed(start, Packets(input[..consumed]))
    {
      match input[consumed] {
        case Pkt(pkt) =>
          var before := Packets(input[..consumed]);
          var after := Packets(input[..consumed + 1]);
          assert after[..consumed] == before;
          FeedSnoc(start, before, pkt);
          assert after == before + [pkt];
          if pkt.typ == SessionOpenOK {
            st := st.(sent := st.sent + [QueryPacket(st.db, SidOf(pkt), st.query)]);
          } else if pkt.typ == ClientWrite(st.db) {
            st := st.(results := pkt.payload);
          } else if pkt.typ == ClientSessionClose {
            var code := Scan(Get(pkt.spec, ExitCode));
            if code.Some? {
              st := st.(exitCode := code.value);
            }
            st := st.(status := Returned(true));
          }
          consumed := consumed + 1;
        case Eof =>
          st := st.(status := Returned(false));
          consumed := consumed + 1;
          return;
        case StreamError =>
          st := st.(status := Failed);
          consumed := consumed + 1;
          return;
      }
    }
  }

  lemma FeedNone(st: QueryState)
    ensures Feed(st, []) == st
  {
  }

  lemma FeedSnoc(st: QueryState, pkts: seq<Packet>, pkt: Packet)
    ensures Feed(st, pkts + [pkt]) == OnPacket(Feed(st, pkts), pkt)
  {
    assert (pkts + [pkt])[..|pkts|] == pkts;
  }

  // ---- The whole conversation ------------------------------------------------------------

  /** The output a client of `db` ends up with: the payload of the last write packet of its own kind. */
  function LastOutput(db: Protocol, pkts: seq<Packet>): (output: string) {
    if pkts == [] then ""
    else if pkts[|pkts| - 1].typ == ClientWrite(db) then pkts[|pkts| - 1].payload
    else LastOutput(db, pkts[..|pkts| - 1])
  }

  /** What it sends while it receives: the query, once for every SessionOpenOK, to its own kind of
      handler, under the session id that packet carries. */
  function Asks(db: Protocol, query: string, pkts: seq<Packet>): (sent: seq<Packet>) {
    if pkts == [] then []
    else
      var last := pkts[|pkts| - 1];
      Asks(db, query, pkts[..|pkts| - 1]) +
      if last.typ == SessionOpenOK
      then [Packet(AgentWrite(db), query, map[SessionId := Get(last.spec, SessionId), ConnectionId := "web-conn-1"])]
      else []
  }

  /** Packet `n` is the first close, or there is none and `n` is the end. */
  predicate FirstClose(pkts: seq<Packet>, n: nat) {
    && n <= |pkts| && (n < |pkts| ==> pkts[n].typ == ClientSessionClose)
    && forall i :: 0 <= i < n ==> pkts[i].typ != ClientSessionClose
  }

  /** The conversation of a client of `db` after the packets `pkts`, none of which is a close. */
  predicate Conversing(st: QueryState, db: Protocol, query: string, open: Packet, pkts: seq<Packet>) {
    st == QueryState(db, query, LastOutput(db, pkts), 0, Running, [open] + Asks(db, query, pkts))
  }

  lemma NextConverses(st: QueryState, db: Protocol, query: string, open: Packet, pkts: seq<Packet>, pkt: Packet)
    requires Conversing(st, db, query, open, pkts) && pkt.typ != ClientSessionClose
    ensures Conversing(OnPacket(st, pkt), db, query, open, pkts + [pkt])
  {
    assert (pkts + [pkt])[..|pkts|] == pkts;
  }

  lemma {:induction false} Converses(db: Protocol, query: string, params: string, pkts: seq<Packet>)
    requires (db.MySQL? || db.PG? || db.MSSQL? || db.MongoDB?) && forall i :: 0 <= i < |pkts| ==> pkts[i].typ != ClientSessionClose
    ensures Conversing(Feed(Begin(db, query, OpenPacket(db, query, params)), pkts), db, query, OpenPacket(db, query, params), pkts)
  {
    if pkts != [] {
      hide OnPacket, Conversing;
      var init := pkts[..|pkts| - 1];
      Converses(db, query, params, init);
      assert init + [pkts[|pkts| - 1]] == pkts;
      NextConverses(Feed(Begin(db, query, OpenPacket(db, query, params)), init), db, query, OpenPacket(db, query, params), init, pkts[|pkts| - 1]);
    }
  }

  /** Once closed, nothing changes any more. */
  lemma {:induction false} ClosedStays(st: QueryState, pkts: seq<Packet>, n: nat)
    requires n <= |pkts| && Feed(st, pkts[..n]).status == Returned(true)
    ensures Feed(st, pkts) == Feed(st, pkts[..n])
    decreases |pkts|
  {
    if n < |pkts| {
      assert pkts[..|pkts| - 1][..n] == pkts[..n];
      ClosedStays(st, pkts[..|pkts| - 1], n);
    } else {
      assert pkts[..n] == pkts;
    }
  }

  /** What the conversation of a client of one of the four databases comes to, for any packets
      received: it runs until the first close, whose exit code it takes if there is one to read. */
  lemma Conversation(db: Protocol, query: string, params: string, pkts: seq<Packet>, n: nat)
    requires (db.MySQL? || db.PG? || db.MSSQL? || db.MongoDB?) && FirstClose(pkts, n)
    ensures var open := OpenPacket(db, query, params);
            var st := Feed(Begin(db, query, open), pkts);
            && st.results == LastOutput(db, pkts[..n]) && st.sent == [open] + Asks(db, query, pkts[..n])
            && st.status == (if n < |pkts| then Returned(true) else Running)
            && st.exitCode == (if n < |pkts| && Scan(Get(pkts[n].spec, ExitCode)).Some? then Scan(Get(pkts[n].spec, ExitCode)).value else 0)
  {
    hide Scan, LastOutput, Asks, OpenPacket, Feed, Begin;
    var start := Begin(db, query, OpenPacket(db, query, params));
    Converses(db, query, params, pkts[..n]);
    if n < |pkts| {
      assert pkts[..n + 1] == pkts[..n] + [pkts[n]];
      FeedSnoc(start, pkts[..n], pkts[n]);
      ClosedStays(start, pkts, n + 1);
    } else {
      assert pkts[..n] == pkts;
    }
  }

  lemma OpensWith(db: Protocol, query: string, params: string)
    ensures var p := OpenPacket(db, query, params);
            && p.typ == SessionOpen && p.payload == query && Get(p.spec, EncodedParams) == params
            && Get(p.spec, ClientEnvVars) == "" && Get(p.spec, SessionId) == "" && Get(p.spec, ConnectionId) == ""
            && (db == MySQL ==> Get(p.spec, ConnectionType) == "mysql") && (db == PG ==> Get(p.spec, ConnectionType) == "postgres")
            && (db == MSSQL ==> Get(p.spec, ConnectionType) == "mssql") && (db == MongoDB ==> Get(p.spec, ConnectionType) == "mongodb")
  {
  }

  /** Any other kind of database fails at once, whatever arrives. */
  lemma {:induction false} OthersFail(db: Protocol, query: string, params: string, pkts: seq<Packet>)
    requires db.TCP? || db.SSH? || db.HttpProxy?
    ensures var open := OpenPacket(db, query, params);
            Feed(Begin(db, query, open), pkts) == QueryState(db, query, "", 0, Failed, [open])
  {
    if pkts != [] {
      OthersFail(db, query, params, pkts[..|pkts| - 1]);
    }
  }
}
