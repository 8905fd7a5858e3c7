/**
  The agent's connection store keys (agent/controller/const.go, agent/controller/agent.go).
  The source keeps one string-keyed store and finds entries by exact key, by substring
  (session cleanup) and by prefix (TCP close).  Here a key is structured and `Render` is
  the string the source uses.
 */
module ConnKeys {

  datatype StoreKey =
    | ParamsKey(sid: string)
    | ConnKey(sid: string, conn: string)
    | ExecKey(sid: string)
    | CmdKey(sid: string)

  /** Session ids are UUID strings: 36 characters, no colon. */
  predicate ValidSid(s: string) {
    |s| == 36 && ':' !in s
  }

  /** What the agent finds as session id on a packet: one the gateway stamped, or none. */
  predicate StampedSid(s: string) {
    s == "" || ValidSid(s)
  }

  function Render(k: StoreKey): (s: string) {
    match k
    case ParamsKey(sid) => sid
    case ConnKey(sid, conn) => sid + ":" + conn
    case ExecKey(sid) => "exec:" + sid
    case CmdKey(sid) => "cmd:" + sid
  }

  predicate OccursAt(s: string, sub: string, i: int) {
    0 <= i <= |s| - |sub| && s[i..i + |sub|] == sub
  }

  /** strings.Contains */
  predicate Contains(s: string, sub: string) {
    exists i | 0 <= i <= |s| :: OccursAt(s, sub, i)
  }

  /** Distinct structured keys never share a store slot. */
  lemma RenderInjective(k1: StoreKey, k2: StoreKey)
    requires StampedSid(k1.sid) && StampedSid(k2.sid)
    ensures Render(k1) == Render(k2) <==> k1 == k2
  {
    if Render(k1) == Render(k2) {
      RenderShape(k1);
      RenderShape(k2);
    }
  }

  /** Where the first colon stands tells the four kinds of key apart. */
  lemma RenderShape(k: StoreKey)
    requires StampedSid(k.sid)
    ensures var r, n := Render(k), |k.sid|;
            match k
            case ParamsKey(s) => r == s && ':' !in r
            case ConnKey(s, c) => |r| == n + 1 + |c| && r[..n] == s && r[n] == ':' && r[n + 1..] == c
            case ExecKey(s) => |r| == 5 + n && r[4] == ':' && r[..4] == "exec" && r[5..] == s
            case CmdKey(s) => |r| == 4 + n && r[3] == ':' && r[..3] == "cmd" && r[4..] == s
  {
  }

  /** A colon-free text of at least one character lies on one side of a colon or the other. */
  lemma ContainsAcrossColon(left: string, right: string, sub: string)
    requires ':' !in sub
    requires sub != []
    ensures Contains(left + ":" + right, sub) <==> Contains(left, sub) || Contains(right, sub)
  {
    if Contains(left + ":" + right, sub) {
      var i :| 0 <= i <= |left + ":" + right| && OccursAt(left + ":" + right, sub, i);
      OccursOneSide(left, right, sub, i);
    }
    if Contains(left, sub) {
      var i :| 0 <= i <= |left| && OccursAt(left, sub, i);
      OccursWithin([], left, ":" + right, sub, i);
      assert left + (":" + right) == left + ":" + right;
    }
    if Contains(right, sub) {
      var i :| 0 <= i <= |right| && OccursAt(right, sub, i);
      OccursWithin(left + ":", right, [], sub, i);
    }
  }

  lemma OccursOneSide(left: string, right: string, sub: string, i: int)
    requires ':' !in sub && sub != [] && OccursAt(left + ":" + right, sub, i)
    ensures Contains(left, sub) || Contains(right, sub)
  {
    var s := left + ":" + right;
    var m, n := |left| + 1, |sub|;
    assert s[i..i + n] == sub;
    assert forall x :: i <= x < i + n ==> s[x] == sub[x - i];
    assert s[|left|] == ':';
    if i + n <= |left| {
      assert left[i..i + n] == s[i..i + n];
      assert OccursAt(left, sub, i);
    } else {
      assert right[i - m..i - m + n] == s[i..i + n];
      assert OccursAt(right, sub, i - m);
    }
  }

  lemma OccursWithin(before: string, s: string, after: string, sub: string, i: int)
    requires OccursAt(s, sub, i)
    ensures Contains(before + s + after, sub)
    ensures before == [] ==> Contains(s + after, sub)
    ensures after == [] ==> Contains(before + s, sub)
  {
    var all, j := before + s + after, |before| + i;
    assert all[j..j + |sub|] == s[i..i + |sub|];
    assert OccursAt(all, sub, j);
    assert before == [] ==> all == s + after;
    assert after == [] ==> all == before + s;
  }

  lemma ContainsSameLength(s: string, sub: string)
    requires |s| <= |sub|
    ensures Contains(s, sub) <==> s == sub
  {
    if s == sub {
      assert OccursAt(s, sub, 0);
    }
    if Contains(s, sub) {
      var i :| 0 <= i <= |s| && OccursAt(s, sub, i);
      assert s[0..|s|] == s;
    }
  }

  /** Exactly which keys the substring test of session cleanup selects: those of the session
      itself, and those whose client-chosen connection id happens to contain the session id. */
  lemma CleanupSelects(k: StoreKey, s: string)
    requires StampedSid(k.sid) && ValidSid(s)
    ensures Contains(Render(k), s) <==> k.sid == s || (k.ConnKey? && Contains(k.conn, s))
  {
    ContainsSameLength(k.sid, s);
    match k
    case ParamsKey(_) =>
    case ConnKey(sid, conn) =>
      ContainsAcrossColon(sid, conn, s);
    case ExecKey(sid) =>
      assert Render(k) == "exec" + ":" + sid;
      ContainsAcrossColon("exec", sid, s);
      ContainsSameLength("exec", s);
    case CmdKey(sid) =>
      assert Render(k) == "cmd" + ":" + sid;
      ContainsAcrossColon("cmd", sid, s);
      ContainsSameLength("cmd", s);
  }

  /** Exactly which keys the prefix test of TCP close selects: connections of that session
      whose id extends the given one. */
  lemma TcpCloseSelects(k: StoreKey, s: string, c: string)
    requires StampedSid(k.sid) && ValidSid(s)
    ensures Render(ConnKey(s, c)) <= Render(k) <==> k.ConnKey? && k.sid == s && c <= k.conn
  {
    var p := Render(ConnKey(s, c));
    var r := Render(k);
    RenderShape(ConnKey(s, c));
    RenderShape(k);
    if p <= r {
      assert p[36] == r[36] && p[..36] == r[..36];
      assert r[4] != ':' && r[3] != ':' by { assert r[4] == s[4] && r[3] == s[3]; }
      assert p[37..] <= r[37..];
    }
    if k.ConnKey? && k.sid == s && c <= k.conn {
      assert r == p + k.conn[|c|..];
    }
  }
}
