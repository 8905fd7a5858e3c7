/**
  What session cleanup and TCP close leave alone (agent/controller/agent.go).  Both find entries
  by text: cleanup by substring, TCP close by prefix.
 */
module CleanupFrame {
  import opened Selection
  import opened Wire
  import opened ConnKeys
  import opened AgentHandlers
  import opened AgentProcess
  import opened SessionProtocol
  import opened ProtocolInvariant
  import opened Reachability

  predicate KeysStamped(store: Store) {
    forall k :: k in store ==> StampedSid(k.sid)
  }

  /** An open connection, execution or terminal. */
  predicate Closer(store: Store, k: StoreKey) {
    k in store && store[k].ConnEntry?
  }

  /** The store without the closers of session `s`. */
  function WithoutSession(store: Store, s: string): (r: Store) {
    map k | k in store && !(Closer(store, k) && k.sid == s) :: store[k]
  }

  /** Another session's connection whose client-chosen id contains the session id `s`. */
  predicate Confusable(store: Store, k: StoreKey, s: string) {
    Closer(store, k) && k.sid != s && k.ConnKey? && Contains(k.conn, s)
  }

  /** Cleanup removes all closers of the session, and changes nothing else if and only if no other
      session has a connection id that contains the session id. */
  lemma CleanupExact(store: Store, s: string)
    requires KeysStamped(store) && ValidSid(s)
    ensures forall k :: Closer(Cleanup(store, s), k) ==> k.sid != s
    ensures forall k :: k in Cleanup(store, s) ==> k in store && Cleanup(store, s)[k] == store[k]
    ensures Cleanup(store, s) == WithoutSession(store, s) <==> !exists k :: Confusable(store, k, s)
  {
    hide Render, Contains, ValidSid;
    var after, ideal := Cleanup(store, s), WithoutSession(store, s);
    forall k | k in store
      ensures k in after <==> k in ideal && !Confusable(store, k, s)
      ensures Confusable(store, k, s) ==> k in ideal
    {
      CleanupSelects(k, s);
    }
    if !exists k :: Confusable(store, k, s) {
      assert after == ideal;
    }
    if exists k :: Confusable(store, k, s) {
      var k :| Confusable(store, k, s);
      assert k in ideal && k !in after;
    }
  }

  /** TCP close of (s, c) never touches another session, nor anything but connections of s whose
      id extends c; it removes exactly the connection named if and only if no other stored
      connection id of s extends c. */
  lemma TcpCloseExact(store: Store, s: string, c: string)
    requires KeysStamped(store) && ValidSid(s)
    ensures forall k :: k in store && k.sid != s ==> k in TcpClose(store, s, c)
    ensures forall k :: k in TcpClose(store, s, c) ==> k in store && TcpClose(store, s, c)[k] == store[k]
    ensures !Closer(TcpClose(store, s, c), ConnKey(s, c))
    ensures TcpClose(store, s, c) == (if Closer(store, ConnKey(s, c)) then store - {ConnKey(s, c)} else store) <==>
            !exists d :: Closer(store, ConnKey(s, d)) && c < d
  {
    hide Render, ValidSid;
    var after := TcpClose(store, s, c);
    var ideal := if Closer(store, ConnKey(s, c)) then store - {ConnKey(s, c)} else store;
    forall k | k in store ensures k in after <==> !(Closer(store, k) && k.ConnKey? && k.sid == s && c <= k.conn) {
      TcpCloseSelects(k, s, c);
    }
    if !exists d :: Closer(store, ConnKey(s, d)) && c < d {
      forall k | k in store ensures k in after <==> k in ideal {
        if k.ConnKey? && k.sid == s && c <= k.conn && Closer(store, k) {
          assert k == ConnKey(s, k.conn) && !(c < k.conn);
          assert c == k.conn;
        }
      }
      assert after == ideal;
    }
    if exists d :: Closer(store, ConnKey(s, d)) && c < d {
      var d :| Closer(store, ConnKey(s, d)) && c < d;
      assert ConnKey(s, d) in ideal && ConnKey(s, d) !in after;
    }
  }

  // ---- In every run ----------------------------------------------------------------------

  lemma StoreKeysStamped(st: State, a: nat)
    requires Inv(st) && a in st.agents
    ensures KeysStamped(st.agents[a].store)
  {
    var p := st.agents[a];
    assert Owned(p) && Bound(st, a);
    forall k | k in p.store ensures StampedSid(k.sid) {
      assert Seen(p, k.sid);
      var i :| 0 <= i < p.taken && i < |p.arrivals| && SidOf(p.arrivals[i].pkt) == k.sid;
      assert SidOf(p.arrivals[i].pkt) == "" || SidOf(p.arrivals[i].pkt) in st.clients;
    }
  }

  /** In every reachable state of every run, cleaning up a client's session on an agent is exact
      unless some connection id of another session contains the session id. */
  lemma CleanupInRuns(ls: seq<Label>, a: nat, s: string)
    requires Run(ls).Some? && a in Run(ls).value.agents && s in Run(ls).value.clients
    ensures var store := Run(ls).value.agents[a].store;
            Cleanup(store, s) == WithoutSession(store, s) <==> !exists k :: Confusable(store, k, s)
  {
    hide Owned, AgentsBound, SessionsLinked;
    RunInv(ls);
    StoreKeysStamped(Run(ls).value, a);
    CleanupExact(Run(ls).value.agents[a].store, s);
  }

  /** The same for TCP close. */
  lemma TcpCloseInRuns(ls: seq<Label>, a: nat, s: string, c: string)
    requires Run(ls).Some? && a in Run(ls).value.agents && s in Run(ls).value.clients
    ensures var store := Run(ls).value.agents[a].store;
            && (forall k :: k in store && k.sid != s ==> k in TcpClose(store, s, c))
            && (TcpClose(store, s, c) == (if Closer(store, ConnKey(s, c)) then store - {ConnKey(s, c)} else store) <==>
                !exists d :: Closer(store, ConnKey(s, d)) && c < d)
  {
    hide Owned, AgentsBound, SessionsLinked;
    RunInv(ls);
    StoreKeysStamped(Run(ls).value, a);
    TcpCloseExact(Run(ls).value.agents[a].store, s, c);
  }

  // ---- Runs in which too much is closed --------------------------------------------------

  const CLOSE_REQUEST := Packet(AgentSessionClose, "", map[])

  function TcpCloseRequest(conn: string): (p: Packet) {
    Packet(AgentTCPClose, "", map[ConnectionId := conn])
  }

  /** In `st` the agent is about to take a packet of session `s` that names what is to be closed;
      taking it closes connection `k`, which the packet does not name and whose session goes on. */
  ghost predicate ClosesToo(st: State, s: string, k: StoreKey, named: StoreKey) {
    && Reachable(st) && 0 in st.agents && s in st.clients && k.sid in st.clients
    && k != named && Closer(st.agents[0].store, k)
    && var next := Next(st, AgentActs(0, Take(Nothing)));
       && next.Some? && 0 in next.value.agents && k !in next.value.agents[0].store
       && k.sid in next.value.clients && !next.value.clients[k.sid].closed && next.value.clients[k.sid].phase == Serving
  }

  /** The last step of both runs. */
  lemma ClosePacketTaken(p: Process, cs: map<string, Session>, s: string, pkt: Packet, k: StoreKey, named: StoreKey)
    requires Reachable(Stage(p, cs)) && s in cs && Ready(cs[s]) && Idle(p) && Closer(p.store, k) && k != named
    requires k.sid in cs && Ready(cs[k.sid])
    requires var r := Handle(TurnOf(p), p.store, Stamp(pkt, s), Nothing); r.Some? && k !in r.value.store
    ensures exists st :: ClosesToo(st, s, k, named)
  {
    hide Reachable, Handle, Closer, OkRead;
    var u, c := Sends(p, cs, s, pkt);
    var q := ForwardTo(p, u, s);
    var st := Stage(q, cs[s := c]);
    assert q.arrivals[q.taken].pkt == Stamp(pkt, s);
    assert Step(q, Take(Nothing)) == Some(React(q, Handle(TurnOf(p), p.store, Stamp(pkt, s), Nothing).value));
    assert ClosesToo(st, s, k, named);
  }

  /** Session cleanup really can reach another session: client `other` opens a session and a raw
      connection whose id is the session id `s`; when client `s` closes its own session, that
      connection is closed and forgotten while session `other` goes on. */
  lemma CleanupCanReach(s: string, other: string)
    requires ValidSid(s) && ValidSid(other) && s != other
    ensures exists st :: ClosesToo(st, s, ConnKey(other, s), ParamsKey(s)) && Confusable(st.agents[0].store, ConnKey(other, s), s)
  {
    hide Reachable, Idle, Ready, Contains, Closer, Cleanup;
    var p, cs := Neighbours(s, other);
    var k := ConnKey(other, s);
    ReachesNeighbour(p.store, s, other);
    assert SidOf(Stamp(CLOSE_REQUEST, s)) == s;
    ClosePacketTaken(p, cs, s, CLOSE_REQUEST, k, ParamsKey(s));
    var st :| ClosesToo(st, s, k, ParamsKey(s));
    ContainsSameLength(s, s);
    assert Confusable(st.agents[0].store, k, s);
  }

  /** Two sessions are open, and one has a connection under the other's session id. */
  lemma Neighbours(s: string, other: string) returns (p: Process, cs: map<string, Session>)
    requires ValidSid(s) && ValidSid(other) && s != other
    ensures Reachable(Stage(p, cs)) && s in cs && other in cs && Ready(cs[s]) && Ready(cs[other]) && Idle(p)
    ensures Closer(p.store, ConnKey(other, s))
  {
    hide Reachable, Idle, Ready;
    var p0 := Begins(PLAIN_SETUP);
    var c := Joins(p0, map[], s);
    var cs0 := map[s := c];
    var d := Joins(p0, cs0, other);
    var cs1 := cs0[other := d];
    var p1, d1 := OpensPlain(p0, cs1, other);
    var cs2 := cs1[other := d1];
    var d2;
    p, d2 := Dials(p1, cs2, other, s, "data");
    cs := cs2[other := d2];
  }

  lemma ReachesNeighbour(store: Store, s: string, other: string)
    requires ValidSid(s) && ValidSid(other) && Closer(store, ConnKey(other, s))
    ensures ConnKey(other, s) !in Cleanup(store, s)
  {
    hide Contains, Render;
    ContainsSameLength(s, s);
    CleanupSelects(ConnKey(other, s), s);
  }

  /** TCP close really can reach another connection of the session: with connections "1" and "10"
      open, closing "1" closes both. */
  lemma TcpCloseCanReach(s: string)
    requires ValidSid(s)
    ensures exists st :: ClosesToo(st, s, ConnKey(s, "10"), ConnKey(s, "1"))
  {
    hide Reachable, Idle, Ready, TcpClose;
    var p, cs := TwoDialled(s);
    var k := ConnKey(s, "10");
    ClosesBoth(p.store, s);
    ClosePacketTaken(p, cs, s, TcpCloseRequest("1"), k, ConnKey(s, "1"));
  }

  /** Connections "1" and "10" are open. */
  lemma TwoDialled(s: string) returns (p: Process, cs: map<string, Session>)
    requires ValidSid(s)
    ensures Reachable(Stage(p, cs)) && s in cs && Ready(cs[s]) && Idle(p) && Closer(p.store, ConnKey(s, "10"))
  {
    hide Reachable, Idle, Ready;
    var p0 := Begins(PLAIN_SETUP);
    var c := Joins(p0, map[], s);
    var p1, c1 := OpensPlain(p0, map[s := c], s);
    var cs1 := map[s := c][s := c1];
    var p2, c2 := Dials(p1, cs1, s, "1", "data");
    var cs2 := cs1[s := c2];
    var c3;
    p, c3 := Dials(p2, cs2, s, "10", "data");
    cs := cs2[s := c3];
  }

  /** Closing "1" takes "10" away. */
  lemma ClosesBoth(store: Store, s: string)
    requires ValidSid(s)
    ensures var pkt := Stamp(TcpCloseRequest("1"), s);
            Closer(store, ConnKey(s, "10")) ==> ConnKey(s, "10") !in TcpClose(store, SidOf(pkt), ConnOf(pkt))
  {
    hide Render;
    var pkt := Stamp(TcpCloseRequest("1"), s);
    assert SidOf(pkt) == s && ConnOf(pkt) == "1";
    TcpCloseSelects(ConnKey(s, "10"), s, "1");
  }
}
