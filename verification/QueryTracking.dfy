/**
  What an agent owes a session whose client is `executeQuery`: the packets already sent for
  the session, followed by those its goroutines have still to send, always form one of the
  few complete scripts below.
 */
module QueryTracking {
  import opened Selection
  import opened Decimal
  import opened Wire
  import opened ConnKeys
  import opened SessionSetup
  import opened AgentHandlers
  import opened AgentProcess
  import opened QueryClient

  ghost function UpFor(s: string): Up -> bool { (u: Up) => SidOf(u.pkt) == s }
  ghost function MsgFor(s: string): Msg -> bool { (m: Msg) => SidOf(m.pkt) == s }
  ghost function RunFor(s: string): Execution -> bool { (e: Execution) => e.sid == s }

  function PacketsOf(ms: seq<Msg>): (ps: seq<Packet>)
    ensures |ps| == |ms| && forall i :: 0 <= i < |ms| ==> ps[i] == ms[i].pkt
  {
    seq(|ms|, i requires 0 <= i < |ms| => ms[i].pkt)
  }

  function UpPackets(us: seq<Up>): (ps: seq<Packet>)
    ensures |ps| == |us| && forall i :: 0 <= i < |us| ==> ps[i] == us[i].pkt
  {
    seq(|us|, i requires 0 <= i < |us| => us[i].pkt)
  }

  /** The packets a goroutine has still to send. */
  function SendsOf(acts: seq<Act>): (ps: seq<Packet>) {
    if acts == [] then []
    else (if acts[0].Send? then [acts[0].p] else []) + SendsOf(acts[1..])
  }

  predicate OnlySends(acts: seq<Act>) {
    forall i :: 0 <= i < |acts| ==> acts[i].Send?
  }

  predicate Active(p: Process, s: string, i: int) {
    0 <= i < |p.tasks| && p.tasks[i].acts != [] && CauseSid(p, p.tasks[i].cause) == s
  }

  /** At most one goroutine has anything left to do for `s`, and it only sends. */
  ghost predicate Solo(p: Process, s: string) {
    && (forall i, j :: Active(p, s, i) && Active(p, s, j) ==> i == j)
    && (forall i :: Active(p, s, i) ==> OnlySends(p.tasks[i].acts))
  }

  /** What is still to be sent for `s`. */
  ghost function Rest(p: Process, s: string): (ps: seq<Packet>) {
    if i :| Active(p, s, i) then SendsOf(p.tasks[i].acts) else []
  }

  /** An agent as session `s` sees it: the packets it was sent and how many it has taken, the
      packets it sent and has still to send, and the commands it ran. */
  datatype View = View(asked: seq<Packet>, taken: nat, sent: seq<Packet>, rest: seq<Packet>, runs: seq<Execution>)

  ghost function ViewOf(p: Process, s: string): (v: View)
    requires p.taken <= |p.arrivals|
  {
    View(UpPackets(Select(p.arrivals, UpFor(s))), |Select(p.arrivals[..p.taken], UpFor(s))|,
         PacketsOf(Select(p.emitted, MsgFor(s))), Rest(p, s), Select(p.runs, RunFor(s)))
  }

  predicate IsClose(p: Packet, code: string) {
    p.typ == ClientSessionClose && Get(p.spec, ExitCode) == code
  }

  /** Replies to a SessionOpen: two closes, success, or a failed port check and then success. */
  predicate OpenScript(xs: seq<Packet>) {
    || (|xs| == 2 && IsClose(xs[0], INTERNAL_EXIT_CODE) && IsClose(xs[1], INTERNAL_EXIT_CODE))
    || (|xs| == 1 && xs[0].typ == SessionOpenOK)
    || (|xs| == 2 && IsClose(xs[0], INTERNAL_EXIT_CODE) && xs[1].typ == SessionOpenOK)
  }

  /** Replies to the query: the whole output of its execution, if any, and its exit code. */
  predicate Answers(xs: seq<Packet>, e: Execution) {
    if e.output == "" then |xs| == 1 && IsClose(xs[0], ToText(e.code))
    else |xs| == 2 && xs[0].typ == ClientWrite(e.db) && xs[0].payload == e.output && IsClose(xs[1], ToText(e.code))
  }

  /** Replies to an open session and then to the query. */
  predicate QueryScript(xs: seq<Packet>, runs: seq<Execution>, s: string, db: Protocol, query: string) {
    && |xs| >= 1 && xs[0].typ == SessionOpenOK
    && if |runs| == 1 then runs[0].sid == s && runs[0].db == db && runs[0].query == query && Answers(xs[1..], runs[0])
       else runs == [] && |xs| == 2 && IsClose(xs[1], INTERNAL_EXIT_CODE)
  }

  predicate ScriptFits(v: View, s: string, db: Protocol, query: string) {
    var script := v.sent + v.rest;
    match v.taken
    case 0 => script == [] && v.runs == []
    case 1 => OpenScript(script) && v.runs == []
    case _ => QueryScript(script, v.runs, s, db, query)
  }

  /** What the client sent: a SessionOpen, and the query only after SessionOpenOK came first. */
  predicate Asked(v: View, s: string, db: Protocol, query: string) {
    && |v.asked| <= 2
    && (|v.asked| >= 1 ==> v.asked[0].typ == SessionOpen)
    && (|v.asked| == 2 ==>
          && v.asked[1] == Stamp(QueryPacket(db, s, query), s)
          && v.sent != [] && v.sent[0].typ == SessionOpenOK)
  }

  /** No connection of any kind belongs to `s`. */
  ghost predicate NoConnections(p: Process, s: string) {
    && (forall k :: k in p.store && k.sid == s ==> k.ParamsKey?)
    && (forall i :: 0 <= i < |p.proxies| ==> p.proxies[i].proxy.key.sid != s)
  }

  ghost predicate Tracked(p: Process, s: string, db: Protocol, query: string) {
    && p.taken <= |p.arrivals|
    && (db.MySQL? || db.MongoDB?)
    && s != ""
    && Asked(ViewOf(p, s), s, db, query)
    && ScriptFits(ViewOf(p, s), s, db, query)
    && NoConnections(p, s)
    && Solo(p, s)
  }

  // ---- Steps that do not concern the session ---------------------------------------------

  lemma RestIs(p: Process, s: string, i: int)
    requires Solo(p, s) && Active(p, s, i)
    ensures Rest(p, s) == SendsOf(p.tasks[i].acts)
  {
  }

  /** The same goroutines with work for `s` means the same packets still to be sent. */
  lemma RestFrame(p: Process, r: Process, s: string)
    requires Solo(p, s)
    requires forall i :: Active(p, s, i) <==> Active(r, s, i)
    requires forall i :: Active(p, s, i) && Active(r, s, i) ==> r.tasks[i].acts == p.tasks[i].acts
    ensures Solo(r, s) && Rest(r, s) == Rest(p, s)
  {
    if i :| Active(p, s, i) {
      assert Solo(r, s);
      RestIs(p, s, i);
      RestIs(r, s, i);
    }
  }

  /** Taking another session's packet. */
  lemma TakeOther(p: Process, re: Reaction, s: string)
    requires p.taken < |p.arrivals| && SidOf(p.arrivals[p.taken].pkt) != s
    requires forall k :: k in re.store ==> k in p.store || k == ParamsKey(SidOf(p.arrivals[p.taken].pkt))
    requires re.run.Some? ==> re.run.value.sid != s
    requires NoConnections(p, s) && Solo(p, s)
    ensures NoConnections(React(p, re), s) && Solo(React(p, re), s)
    ensures ViewOf(React(p, re), s) == ViewOf(p, s)
  {
    var r := React(p, re);
    SelectNext(p.arrivals, p.taken, UpFor(s));
    if re.run.Some? {
      SelectSnoc(p.runs, re.run.value, RunFor(s));
    }
    RestFrame(p, r, s);
  }

  lemma PopOther(p: Process, i: nat, s: string)
    requires i < |p.tasks| && p.tasks[i].acts != [] && !Active(p, s, i) && Solo(p, s)
    requires NoConnections(p, s) && p.taken <= |p.arrivals|
    ensures Solo(Pop(p, i), s) && NoConnections(Pop(p, i), s) && ViewOf(Pop(p, i), s) == ViewOf(p, s)
  {
    RestFrame(p, Pop(p, i), s);
  }

  lemma ActOther(p: Process, cause: nat, act: Act, s: string)
    requires Owned(p) && CauseSid(p, cause) != s
    requires ActOwned(act, CauseSid(p, cause), p.store)
    requires NoConnections(p, s) && Solo(p, s)
    ensures var r := PerformAct(p, cause, act); ViewOf(r, s) == ViewOf(p, s) && NoConnections(r, s) && Solo(r, s)
  {
    var r := PerformAct(p, cause, act);
    if act.Send? {
      SelectSnoc(p.emitted, Msg(cause, act.p), MsgFor(s));
    }
    RestFrame(p, r, s);
  }

  /** A goroutine of another session performing an act. */
  lemma PerformOther(p: Process, i: nat, s: string)
    requires Owned(p) && i < |p.tasks| && p.tasks[i].acts != [] && !Active(p, s, i)
    requires NoConnections(p, s) && Solo(p, s)
    ensures var r := Step(p, Perform(i)).value;
            && r.taken <= |r.arrivals| && ViewOf(r, s) == ViewOf(p, s)
            && NoConnections(r, s) && Solo(r, s)
  {
    hide NoConnections, Solo, ViewOf;
    PopOwned(p, i);
    PopOther(p, i, s);
    ActOther(Pop(p, i), p.tasks[i].cause, p.tasks[i].acts[0], s);
  }

  /** A proxy sending or calling back: it cannot be one of this session's. */
  lemma ProxyOther(p: Process, l: AgentStep, s: string)
    requires Owned(p) && (l.Emit? || l.CallBack?) && Step(p, l).Some?
    requires NoConnections(p, s) && Solo(p, s)
    ensures var r := Step(p, l).value;
            && r.taken <= |r.arrivals| && ViewOf(r, s) == ViewOf(p, s)
            && NoConnections(r, s) && Solo(r, s)
  {
    var r := Step(p, l).value;
    assert LiveOwned(p, p.proxies[l.i]);
    if l.Emit? {
      SelectSnoc(p.emitted, r.emitted[|p.emitted|], MsgFor(s));
    }
    RestFrame(p, r, s);
  }

  // ---- Steps of the session itself -------------------------------------------------------

  lemma PopOwn(p: Process, i: nat, s: string)
    requires Solo(p, s) && Active(p, s, i)
    ensures Solo(Pop(p, i), s)
    ensures p.tasks[i].acts[0].Send? && Rest(p, s) == [p.tasks[i].acts[0].p] + Rest(Pop(p, i), s)
  {
    var r := Pop(p, i);
    assert forall j :: Active(r, s, j) ==> Active(p, s, j);
    RestIs(p, s, i);
    if Active(r, s, i) {
      RestIs(r, s, i);
    }
  }

  lemma SendOwn(p: Process, cause: nat, q: Packet, s: string)
    requires p.taken <= |p.arrivals| && SidOf(q) == s && Solo(p, s)
    ensures var r := PerformAct(p, cause, Send(q));
            var v := ViewOf(p, s);
            ViewOf(r, s) == v.(sent := v.sent + [q]) && Solo(r, s)
  {
    var r := PerformAct(p, cause, Send(q));
    SelectSnoc(p.emitted, Msg(cause, q), MsgFor(s));
    RestFrame(p, r, s);
  }

  /** Sending the next packet moves it from what is owed to what was sent. */
  lemma PerformOwn(p: Process, i: nat, s: string)
    requires Owned(p) && NoConnections(p, s) && Solo(p, s) && Active(p, s, i)
    ensures var r := Step(p, Perform(i)).value;
            var v, w := ViewOf(p, s), ViewOf(r, s);
            && r.taken <= |r.arrivals|
            && v.rest != [] && w == v.(sent := v.sent + [v.rest[0]], rest := v.rest[1..])
            && NoConnections(r, s) && Solo(r, s)
  {
    PopOwned(p, i);
    PopOwn(p, i, s);
    SendOwn(Pop(p, i), p.tasks[i].cause, p.tasks[i].acts[0].p, s);
  }

  lemma {:induction false} SendsAll(acts: seq<Act>)
    requires OnlySends(acts)
    ensures |SendsOf(acts)| == |acts|
    ensures forall i :: 0 <= i < |acts| ==> SendsOf(acts)[i] == acts[i].p
  {
    if acts != [] {
      SendsAll(acts[1..]);
    }
  }

  lemma NoneActive(p: Process, s: string)
    requires Solo(p, s) && Rest(p, s) == []
    ensures forall i :: !Active(p, s, i)
  {
    if i :| Active(p, s, i) {
      RestIs(p, s, i);
      SendsAll(p.tasks[i].acts);
      assert false;
    }
  }

  /** The packet about to be taken is the next one the session's client sent. */
  lemma NextAsked(p: Process, s: string)
    requires p.taken < |p.arrivals| && SidOf(p.arrivals[p.taken].pkt) == s
    ensures var v := ViewOf(p, s);
            && v.taken < |v.asked| && v.asked[v.taken] == p.arrivals[p.taken].pkt
            && |Select(p.arrivals[..p.taken + 1], UpFor(s))| == v.taken + 1
  {
    SelectNext(p.arrivals, p.taken, UpFor(s));
    SelectPrefix(p.arrivals, p.taken + 1, UpFor(s));
    var sel := Select(p.arrivals[..p.taken + 1], UpFor(s));
    assert sel == Select(p.arrivals, UpFor(s))[..|sel|];
  }

  /** A reaction for an idle session becomes what is owed to it. */
  lemma TakeOwn(p: Process, re: Reaction, s: string)
    requires p.taken < |p.arrivals| && SidOf(p.arrivals[p.taken].pkt) == s
    requires forall k :: k in re.store ==> k in p.store || k == ParamsKey(s)
    requires re.run.Some? ==> re.run.value.sid == s
    requires NoConnections(p, s) && Solo(p, s) && Rest(p, s) == []
    requires re.main == [] || re.spawn == []
    requires OnlySends(re.main) && OnlySends(re.spawn)
    ensures var r, v := React(p, re), ViewOf(p, s);
            && NoConnections(r, s) && Solo(r, s)
            && ViewOf(r, s) == v.(taken := v.taken + 1,
                                  rest := SendsOf(if re.main == [] then re.spawn else re.main),
                                  runs := if re.run.Some? then v.runs + [re.run.value] else v.runs)
  {
    hide Select, Active, Solo, Rest, SendsOf, OnlySends;
    NextAsked(p, s);
    TakeOwnTasks(p, re, s);
    if re.run.Some? {
      SelectSnoc(p.runs, re.run.value, RunFor(s));
    }
  }

  lemma TakeOwnTasks(p: Process, re: Reaction, s: string)
    requires p.taken < |p.arrivals| && SidOf(p.arrivals[p.taken].pkt) == s
    requires Solo(p, s) && Rest(p, s) == []
    requires re.main == [] || re.spawn == []
    requires OnlySends(re.main) && OnlySends(re.spawn)
    ensures var r := React(p, re);
            Solo(r, s) && Rest(r, s) == SendsOf(if re.main == [] then re.spawn else re.main)
  {
    var r := React(p, re);
    NoneActive(p, s);
    var n := |p.tasks|;
    assert forall i :: Active(r, s, i) ==> i == n || i == n + 1;
    assert Active(r, s, n) <==> re.main != [];
    assert Active(r, s, n + 1) <==> re.spawn != [];
    if re.main != [] {
      RestIs(r, s, n);
    } else if re.spawn != [] {
      RestIs(r, s, n + 1);
    }
  }

  /** Opening the session. */
  lemma OpenReplies(t: Turn, store: Store, pkt: Packet, out: Outcome)
    requires OpenSession(t, store, pkt, out).Some?
    ensures var re := OpenSession(t, store, pkt, out).value;
            && (re.main == [] || re.spawn == []) && OnlySends(re.main) && OnlySends(re.spawn)
            && OpenScript(SendsOf(if re.main == [] then re.spawn else re.main))
            && re.run.None?
            && forall k :: k in re.store ==> k in store || k == ParamsKey(SidOf(pkt))
  {
    hide ParamsOf;
    var re := OpenSession(t, store, pkt, out).value;
    SendsAll(if re.main == [] then re.spawn else re.main);
  }

  /** Answering the query, once parameters are stored and no connection is in the way. */
  lemma QueryReply(store: Store, s: string, db: Protocol, query: string, out: Outcome)
    requires s != "" && HasParams(store, s) && ConnKey(s, "web-conn-1") !in store
    requires RunQuery(store, Stamp(QueryPacket(db, s, query), s), db, out).Some?
    ensures var re := RunQuery(store, Stamp(QueryPacket(db, s, query), s), db, out).value;
            && !re.missing && OnlySends(re.main) && re.main != []
            && if re.run.Some?
               then re.run.value.sid == s && re.run.value.db == db && re.run.value.query == query
                    && Answers(SendsOf(re.main), re.run.value)
               else |SendsOf(re.main)| == 1 && IsClose(SendsOf(re.main)[0], INTERNAL_EXIT_CODE)
  {
    var pkt := Stamp(QueryPacket(db, s, query), s);
    assert SidOf(pkt) == s && ConnOf(pkt) == "web-conn-1";
    SendsAll(RunQuery(store, pkt, db, out).value.main);
  }

  lemma TakeOpen(p: Process, re: Reaction, out: Outcome, s: string, db: Protocol, query: string)
    requires Tracked(p, s, db, query) && p.taken < |p.arrivals|
    requires SidOf(p.arrivals[p.taken].pkt) == s && ViewOf(p, s).taken == 0
    requires OpenSession(TurnOf(p), p.store, p.arrivals[p.taken].pkt, out) == Some(re)
    ensures Tracked(React(p, re), s, db, query)
  {
    hide Select, Active, Solo, Rest, SendsOf, OnlySends, NoConnections, OpenSession, OpenScript, QueryScript;
    var v := ViewOf(p, s);
    assert v.sent == [] && v.rest == [];
    OpenReplies(TurnOf(p), p.store, p.arrivals[p.taken].pkt, out);
    TakeOwn(p, re, s);
    var w := ViewOf(React(p, re), s);
    assert w.sent + w.rest == w.rest;
  }

  /** Once SessionOpenOK was sent first, the session is open and nothing else is owed to it. */
  lemma OpenDone(p: Process, s: string, db: Protocol, query: string)
    requires Owned(p) && Tracked(p, s, db, query)
    requires ViewOf(p, s).taken == 1 && |ViewOf(p, s).asked| == 2
    ensures ViewOf(p, s).rest == [] && |ViewOf(p, s).sent| == 1
    ensures HasParams(p.store, s)
  {
    var v := ViewOf(p, s);
    assert (v.sent + v.rest)[0] == v.sent[0];
    SelectAll(p.emitted, MsgFor(s));
    var m := Select(p.emitted, MsgFor(s))[0];
    assert m in p.emitted;
    var i :| 0 <= i < |p.emitted| && p.emitted[i] == m;
    assert MsgOwned(p, p.emitted[i]);
  }

  lemma NoWebConnection(p: Process, s: string)
    requires NoConnections(p, s)
    ensures ConnKey(s, "web-conn-1") !in p.store
  {
  }

  lemma TakeQuery(p: Process, re: Reaction, out: Outcome, s: string, db: Protocol, query: string)
    requires Owned(p) && Tracked(p, s, db, query) && p.taken < |p.arrivals|
    requires SidOf(p.arrivals[p.taken].pkt) == s && ViewOf(p, s).taken == 1
    requires RunQuery(p.store, p.arrivals[p.taken].pkt, db, out) == Some(re)
    ensures Tracked(React(p, re), s, db, query)
  {
    hide Owned, Select, Active, Solo, Rest, SendsOf, RunQuery, NoConnections;
    NextAsked(p, s);
    OpenDone(p, s, db, query);
    NoWebConnection(p, s);
    QueryReply(p.store, s, db, query, out);
    TakeOwn(p, re, s);
    var w := ViewOf(React(p, re), s);
    assert (w.sent + w.rest)[1..] == SendsOf(re.main);
  }

  lemma HandleDirect(t: Turn, store: Store, pkt: Packet, out: Outcome, db: Protocol)
    requires db.MySQL? || db.MongoDB?
    ensures pkt.typ == SessionOpen ==> Handle(t, store, pkt, out) == OpenSession(t, store, pkt, out)
    ensures pkt.typ == AgentWrite(db) ==> Handle(t, store, pkt, out) == RunQuery(store, pkt, db, out)
  {
  }

  lemma ReactTracked(p: Process, re: Reaction, out: Outcome, s: string, db: Protocol, query: string)
    requires Owned(p) && Tracked(p, s, db, query) && p.taken < |p.arrivals|
    requires SidOf(p.arrivals[p.taken].pkt) == s
    requires Some(re) == if ViewOf(p, s).taken == 0 then OpenSession(TurnOf(p), p.store, p.arrivals[p.taken].pkt, out)
                         else RunQuery(p.store, p.arrivals[p.taken].pkt, db, out)
    ensures Tracked(React(p, re), s, db, query)
  {
    NextAsked(p, s);
    if ViewOf(p, s).taken == 0 {
      TakeOpen(p, re, out, s, db, query);
    } else {
      TakeQuery(p, re, out, s, db, query);
    }
  }

  lemma TakeTracked(p: Process, out: Outcome, s: string, db: Protocol, query: string)
    requires Owned(p) && Tracked(p, s, db, query) && TakeStep(p, out).Some?
    ensures Tracked(TakeStep(p, out).value, s, db, query)
  {
    var pkt := p.arrivals[p.taken].pkt;
    var re := Handle(TurnOf(p), p.store, pkt, out).value;
    if SidOf(pkt) != s {
      TakeOther(p, re, s);
    } else {
      NextAsked(p, s);
      HandleDirect(TurnOf(p), p.store, pkt, out, db);
      ReactTracked(p, re, out, s, db, query);
    }
  }

  lemma ScriptKept(v: View, s: string, db: Protocol, query: string)
    requires v.rest != [] && Asked(v, s, db, query) && ScriptFits(v, s, db, query)
    ensures var w := v.(sent := v.sent + [v.rest[0]], rest := v.rest[1..]);
            Asked(w, s, db, query) && ScriptFits(w, s, db, query)
  {
    assert v.sent + [v.rest[0]] + v.rest[1..] == v.sent + v.rest;
  }

  lemma PerformTracked(p: Process, i: nat, s: string, db: Protocol, query: string)
    requires Owned(p) && Tracked(p, s, db, query) && i < |p.tasks| && p.tasks[i].acts != []
    ensures Tracked(Step(p, Perform(i)).value, s, db, query)
  {
    if Active(p, s, i) {
      PerformOwn(p, i, s);
      ScriptKept(ViewOf(p, s), s, db, query);
    } else {
      PerformOther(p, i, s);
    }
  }

  /** Every step of an agent keeps every `executeQuery` session on its script. */
  lemma StepTracked(p: Process, l: AgentStep, s: string, db: Protocol, query: string)
    requires Owned(p) && Tracked(p, s, db, query) && Step(p, l).Some?
    ensures Tracked(Step(p, l).value, s, db, query)
  {
    match l
    case Take(out) => TakeTracked(p, out, s, db, query);
    case Perform(i) => PerformTracked(p, i, s, db, query);
    case _ => ProxyOther(p, l, s);
  }
}
