/**
  The environment of a session (decodeConnectionParams, buildConnectionParams and
  processSessionOpen of agent/controller/agent.go).  Several layers are written over one map while
  ranging over other maps in an order Go leaves open.
 */
module EnvLayers {
  import opened Selection
  import Secrets

  type Env = map<string, string>

  /** base64 (decoding ignores errors and keeps what it got) and the process environment. */
  datatype Platform = Platform(encode: string -> string, decodePart: string -> string, lookup: string -> Option<string>)

  datatype ConnType = Postgres | MySQL | MSSQL | Other

  /** What the HOOP_ variables tell. */
  datatype Identity = Identity(
    connectionName: string, connectionType: string, clientOrigin: string, clientVerb: string,
    userID: string, userEmail: string, sessionID: string)

  /** Everything the layers are made of: the connection's variables after secret resolution, the
      client's, the agent's runtime ones, and in embedded mode the host environment. */
  datatype Inputs = Inputs(conn: Env, client: Env, runtime: Env, connType: ConnType, identity: Identity, host: Option<seq<string>>)

  const ENVVAR := "envvar:"
  const PASS := "envvar:PASS"
  const SYSTEM_AGENT_ENVS := "system.agent.envs"

  function Alias(t: ConnType): (k: Option<string>) {
    match t
    case Postgres => Some("envvar:PGPASSWORD")
    case MySQL => Some("envvar:MYSQL_PWD")
    case MSSQL => Some("envvar:SQLCMDPASSWORD")
    case Other => None
  }

  datatype HoopVar = ConnectionName | ConnectionType | ClientOrigin | ClientVerb | UserID | UserEmail | SessionID

  function Name(v: HoopVar): (k: string) {
    match v
    case ConnectionName => "envvar:HOOP_CONNECTION_NAME"
    case ConnectionType => "envvar:HOOP_CONNECTION_TYPE"
    case ClientOrigin => "envvar:HOOP_CLIENT_ORIGIN"
    case ClientVerb => "envvar:HOOP_CLIENT_VERB"
    case UserID => "envvar:HOOP_USER_ID"
    case UserEmail => "envvar:HOOP_USER_EMAIL"
    case SessionID => "envvar:HOOP_SESSION_ID"
  }

  function Hoop(w: Platform, id: Identity): (m: Env) {
    map[Name(ConnectionName) := w.encode(id.connectionName), Name(ConnectionType) := w.encode(id.connectionType),
        Name(ClientOrigin) := w.encode(id.clientOrigin), Name(ClientVerb) := w.encode(id.clientVerb),
        Name(UserID) := w.encode(id.userID), Name(UserEmail) := w.encode(id.userEmail),
        Name(SessionID) := w.encode(id.sessionID)]
  }

  /** strings.Cut at the first '='. */
  function Cut(s: string): (r: Option<(string, string)>)
    ensures r.Some? <==> '=' in s
    ensures r.Some? ==> s == r.value.0 + "=" + r.value.1 && '=' !in r.value.0
  {
    if s == [] then None
    else if s[0] == '=' then Some(([], s[1..]))
    else
      match Cut(s[1..])
      case None => None
      case Some(p) => Some(([s[0]] + p.0, p.1))
  }

  /** The variable a host environment entry defines, if it is passed on. */
  function HostEntry(w: Platform, s: string): (r: Option<(string, string)>) {
    match Cut(s)
    case None => None
    case Some(p) => if p.0 == "BIFROST_DSN" || p.0 == "BIFROST_KEY" then None else Some((ENVVAR + p.0, w.encode(p.1)))
  }

  /** What a variable that asks for the agent's own environment is replaced by. */
  function Substituted(w: Platform, k: string, v: string): (r: string) {
    if ENVVAR <= k && w.decodePart(v) == SYSTEM_AGENT_ENVS then
      match w.lookup(k[7..])
      case Some(up) => w.encode(up)
      case None => v
    else v
  }

  lemma SubstitutedCases(w: Platform, k: string, v: string)
    ensures !(ENVVAR <= k) ==> Substituted(w, k, v) == v
    ensures ENVVAR <= k ==> ENVVAR + k[7..] == k
    ensures ENVVAR <= k ==>
              Substituted(w, k, v) ==
              if |w.decodePart(v)| > 0 && w.decodePart(v) == SYSTEM_AGENT_ENVS && w.lookup(k[7..]).Some?
              then w.encode(w.lookup(k[7..]).value) else v
  {
  }

  // ---- The closed form -------------------------------------------------------------------

  /** The last entry for `k`. */
  function HostValue(w: Platform, host: seq<string>, k: string): (r: Option<string>) {
    if host == [] then None
    else
      var last := HostEntry(w, host[|host| - 1]);
      if last.Some? && last.value.0 == k then Some(last.value.1) else HostValue(w, host[..|host| - 1], k)
  }

  /** Client, connection and runtime variables: runtime first, then connection, then client. */
  function Merged(i: Inputs, k: string): (r: Option<string>) {
    if k in i.runtime then Some(i.runtime[k])
    else if k in i.conn then Some(i.conn[k])
    else if k in i.client then Some(i.client[k])
    else None
  }

  function Expanded(w: Platform, i: Inputs, k: string): (r: Option<string>) {
    match Merged(i, k)
    case Some(v) => Some(Substituted(w, k, v))
    case None => None
  }

  /** The value of variable `k` in the session's environment. */
  function ValueAt(w: Platform, i: Inputs, k: string): (r: Option<string>) {
    if i.host.Some? && HostValue(w, i.host.value, k).Some? then HostValue(w, i.host.value, k)
    else if k in Hoop(w, i.identity) then Some(Hoop(w, i.identity)[k])
    else if Alias(i.connType) == Some(k) && Expanded(w, i, PASS).Some? then Expanded(w, i, PASS)
    else Expanded(w, i, k)
  }

  /** Every name the host environment defines. */
  function HostKeys(w: Platform, host: seq<string>): (ks: set<string>)
    ensures forall k :: HostValue(w, host, k).Some? ==> k in ks
  {
    if host == [] then {}
    else
      var last := HostEntry(w, host[|host| - 1]);
      HostKeys(w, host[..|host| - 1]) + if last.Some? then {last.value.0} else {}
  }

  /** The closed form as one map. */
  function Layered(w: Platform, i: Inputs): (m: Env)
    ensures IsLayered(w, i, m)
  {
    var names := i.runtime.Keys + i.conn.Keys + i.client.Keys + Hoop(w, i.identity).Keys
                 + (if i.host.Some? then HostKeys(w, i.host.value) else {})
                 + (if Alias(i.connType).Some? then {Alias(i.connType).value} else {});
    NamesSuffice(w, i, names);
    map k | k in names && ValueAt(w, i, k).Some? :: ValueAt(w, i, k).value
  }

  lemma NamesSuffice(w: Platform, i: Inputs, names: set<string>)
    requires names == i.runtime.Keys + i.conn.Keys + i.client.Keys + Hoop(w, i.identity).Keys
                      + (if i.host.Some? then HostKeys(w, i.host.value) else {})
                      + (if Alias(i.connType).Some? then {Alias(i.connType).value} else {})
    ensures forall k :: ValueAt(w, i, k).Some? ==> k in names
  {
    hide Substituted, Hoop, HostValue, Alias;
  }

  ghost predicate IsLayered(w: Platform, i: Inputs, m: Env) {
    forall k :: (if k in m then Some(m[k]) else None) == ValueAt(w, i, k)
  }

  lemma MergePut(m: Env, h: Env, k: string, v: string)
    ensures (m + h)[k := v] == m + h[k := v]
  {
  }

  lemma IdentityMap(w: Platform, id: Identity, m: Env)
    ensures m + Hoop(w, id) ==
            m[Name(ConnectionName) := w.encode(id.connectionName)][Name(ConnectionType) := w.encode(id.connectionType)]
            [Name(ClientOrigin) := w.encode(id.clientOrigin)][Name(ClientVerb) := w.encode(id.clientVerb)]
            [Name(UserID) := w.encode(id.userID)][Name(UserEmail) := w.encode(id.userEmail)]
            [Name(SessionID) := w.encode(id.sessionID)]
  {
    hide Name;
    var h0: Env := map[];
    assert m + h0 == m;
    MergePut(m, h0, Name(ConnectionName), w.encode(id.connectionName));
    var h1 := h0[Name(ConnectionName) := w.encode(id.connectionName)];
    MergePut(m, h1, Name(ConnectionType), w.encode(id.connectionType));
    var h2 := h1[Name(ConnectionType) := w.encode(id.connectionType)];
    MergePut(m, h2, Name(ClientOrigin), w.encode(id.clientOrigin));
    var h3 := h2[Name(ClientOrigin) := w.encode(id.clientOrigin)];
    MergePut(m, h3, Name(ClientVerb), w.encode(id.clientVerb));
    var h4 := h3[Name(ClientVerb) := w.encode(id.clientVerb)];
    MergePut(m, h4, Name(UserID), w.encode(id.userID));
    var h5 := h4[Name(UserID) := w.encode(id.userID)];
    MergePut(m, h5, Name(UserEmail), w.encode(id.userEmail));
    var h6 := h5[Name(UserEmail) := w.encode(id.userEmail)];
    MergePut(m, h6, Name(SessionID), w.encode(id.sessionID));
  }

  /** The key visited at step `i` is one of the map's and was not visited before. */
  lemma NextVisit(order: seq<string>, keys: set<string>, i: nat)
    requires Secrets.Visits(order, keys) && i < |order|
    ensures order[i] in keys && order[i] !in order[..i] && order[..i + 1] == order[..i] + [order[i]]
  {
    assert order[i] in order;
  }

  lemma AllVisited(order: seq<string>, keys: set<string>)
    requires Secrets.Visits(order, keys)
    ensures order[..|order|] == order && forall k :: k in keys <==> k in order
  {
  }

  // ---- The source's loops ----------------------------------------------------------------

  class ConnectionParams {
    var envVars: Env

    constructor (envVars: Env)
      ensures this.envVars == envVars
    {
      this.envVars := envVars;
    }

    /** Client variables are added where the connection has none. */
    method AddClient(client: Env, order: seq<string>)
      requires Secrets.Visits(order, client.Keys)
      modifies this
      ensures envVars == client + old(envVars)
    {
      for i := 0 to |order|
        invariant forall k :: k in envVars <==> k in old(envVars) || k in order[..i]
        invariant forall k :: k in envVars ==> envVars[k] == if k in old(envVars) then old(envVars)[k] else client[k]
      {
        var key := order[i];
        assert key in order && order[..i + 1] == order[..i] + [key];
        if key in envVars {
          continue;
        }
        envVars := envVars[key := client[key]];
      }
      assert order[..|order|] == order;
    }

    /** Runtime variables replace what is there. */
    method AddRuntime(runtime: Env, order: seq<string>)
      requires Secrets.Visits(order, runtime.Keys)
      modifies this
      ensures envVars == old(envVars) + runtime
    {
      for i := 0 to |order|
        invariant forall k :: k in envVars <==> k in old(envVars) || k in order[..i]
        invariant forall k :: k in envVars ==> envVars[k] == if k in order[..i] then runtime[k] else old(envVars)[k]
      {
        var key := order[i];
        assert key in order && order[..i + 1] == order[..i] + [key];
        envVars := envVars[key := runtime[key]];
      }
      assert order[..|order|] == order;
    }

    /** Ranging over the very map that is being changed: only the visited key is written. */
    method Substitute(w: Platform, order: seq<string>)
      requires Secrets.Visits(order, envVars.Keys)
      modifies this
      ensures envVars.Keys == old(envVars).Keys
      ensures forall k :: k in envVars ==> envVars[k] == Substituted(w, k, old(envVars)[k])
    {
      hide Substituted, Secrets.Visits;
      AllVisited(order, envVars.Keys);
      for i := 0 to |order|
        invariant envVars.Keys == old(envVars).Keys
        invariant forall k :: k in envVars ==>
                    envVars[k] == if k in order[..i] then Substituted(w, k, old(envVars)[k]) else old(envVars)[k]
      {
        var key := order[i];
        NextVisit(order, old(envVars.Keys), i);
        SubstituteKey(w, key);
      }
      assert order[..|order|] == order;
    }

    /** The body of that loop. */
    method SubstituteKey(w: Platform, key: string)
      requires key in envVars
      modifies this
      ensures envVars == old(envVars)[key := Substituted(w, key, old(envVars)[key])]
    {
      hide Substituted;
      SubstitutedCases(w, key, envVars[key]);
      if !(ENVVAR <= key) {
        return;
      }
      var envVal := w.decodePart(envVars[key]);
      if |envVal| > 0 && envVal == SYSTEM_AGENT_ENVS {
        var envKey := key[7..];
        var upstream := w.lookup(envKey);
        if upstream.Some? {
          envVars := envVars[ENVVAR + envKey := w.encode(upstream.value)];
        }
      }
    }

    /** The password under the name the database's own tools read. */
    method AliasPassword(t: ConnType)
      modifies this
      ensures envVars == if PASS in old(envVars) && Alias(t).Some? then old(envVars)[Alias(t).value := old(envVars)[PASS]]
                         else old(envVars)
    {
      if PASS in envVars {
        match t
        case Postgres => envVars := envVars["envvar:PGPASSWORD" := envVars[PASS]];
        case MySQL => envVars := envVars["envvar:MYSQL_PWD" := envVars[PASS]];
        case MSSQL => envVars := envVars["envvar:SQLCMDPASSWORD" := envVars[PASS]];
        case Other =>
      }
    }

    method AddIdentity(w: Platform, id: Identity)
      modifies this
      ensures envVars == old(envVars) + Hoop(w, id)
    {
      hide Name;
      ghost var before := envVars;
      envVars := envVars[Name(ConnectionName) := w.encode(id.connectionName)];
      envVars := envVars[Name(ConnectionType) := w.encode(id.connectionType)];
      envVars := envVars[Name(ClientOrigin) := w.encode(id.clientOrigin)];
      envVars := envVars[Name(ClientVerb) := w.encode(id.clientVerb)];
      envVars := envVars[Name(UserID) := w.encode(id.userID)];
      envVars := envVars[Name(UserEmail) := w.encode(id.userEmail)];
      envVars := envVars[Name(SessionID) := w.encode(id.sessionID)];
      IdentityMap(w, id, before);
    }

    /** Embedded mode passes the host environment on, without the agent's own credentials. */
    method AddHost(w: Platform, host: seq<string>)
      modifies this
      ensures forall k :: (if k in envVars then Some(envVars[k]) else None) ==
                if HostValue(w, host, k).Some? then HostValue(w, host, k)
                else if k in old(envVars) then Some(old(envVars)[k]) else None
    {
      for i := 0 to |host|
        invariant forall k :: (if k in envVars then Some(envVars[k]) else None) ==
                    if HostValue(w, host[..i], k).Some? then HostValue(w, host[..i], k)
                    else if k in old(envVars) then Some(old(envVars)[k]) else None
      {
        assert host[..i + 1][..i] == host[..i];
        var cut := Cut(host[i]);
        if cut.None? || cut.value.0 == "BIFROST_DSN" || cut.value.0 == "BIFROST_KEY" {
          continue;
        }
        envVars := envVars[ENVVAR + cut.value.0 := w.encode(cut.value.1)];
      }
      assert host[..|host|] == host;
    }
  }

  /** After merging, substituting and aliasing. */
  ghost predicate AfterAlias(w: Platform, i: Inputs, m: Env) {
    forall k :: (if k in m then Some(m[k]) else None) ==
                if Alias(i.connType) == Some(k) && Expanded(w, i, PASS).Some? then Expanded(w, i, PASS) else Expanded(w, i, k)
  }

  lemma MergedMap(i: Inputs, k: string)
    ensures var m := (i.client + i.conn) + i.runtime; (if k in m then Some(m[k]) else None) == Merged(i, k)
  {
  }

  lemma AliasStage(w: Platform, i: Inputs, merged: Env, sub: Env, m: Env)
    requires merged == (i.client + i.conn) + i.runtime
    requires sub.Keys == merged.Keys && forall k :: k in sub ==> sub[k] == Substituted(w, k, merged[k])
    requires m == if PASS in sub && Alias(i.connType).Some? then sub[Alias(i.connType).value := sub[PASS]] else sub
    ensures AfterAlias(w, i, m)
  {
    hide Substituted, Alias, Merged;
    forall k ensures (if k in sub then Some(sub[k]) else None) == Expanded(w, i, k) {
      MergedMap(i, k);
    }
    assert (if PASS in sub then Some(sub[PASS]) else None) == Expanded(w, i, PASS);
  }

  lemma LastStage(w: Platform, i: Inputs, aliased: Env, named: Env, m: Env)
    requires AfterAlias(w, i, aliased) && named == aliased + Hoop(w, i.identity)
    requires forall k :: (if k in m then Some(m[k]) else None) ==
               if i.host.Some? && HostValue(w, i.host.value, k).Some? then HostValue(w, i.host.value, k)
               else if k in named then Some(named[k]) else None
    ensures IsLayered(w, i, m)
  {
    hide Hoop, Alias, Expanded, HostValue;
  }

  /** The layers of one session, for any iteration order of the three maps ranged over. */
  method Layer(w: Platform, i: Inputs, clientOrder: seq<string>, runtimeOrder: seq<string>, envOrder: seq<string>) returns (m: Env)
    requires Secrets.Visits(clientOrder, i.client.Keys) && Secrets.Visits(runtimeOrder, i.runtime.Keys)
    requires Secrets.Visits(envOrder, i.client.Keys + i.conn.Keys + i.runtime.Keys)
    ensures IsLayered(w, i, m)
  {
    hide Substituted, Alias, Hoop, HostValue, AfterAlias, IsLayered;
    var params := new ConnectionParams(i.conn);
    params.AddClient(i.client, clientOrder);
    params.AddRuntime(i.runtime, runtimeOrder);
    ghost var merged := params.envVars;
    assert merged.Keys == i.client.Keys + i.conn.Keys + i.runtime.Keys;
    params.Substitute(w, envOrder);
    ghost var sub := params.envVars;
    params.AliasPassword(i.connType);
    ghost var aliased := params.envVars;
    AliasStage(w, i, merged, sub, aliased);
    params.AddIdentity(w, i.identity);
    ghost var named := params.envVars;
    if i.host.Some? {
      params.AddHost(w, i.host.value);
    }
    m := params.envVars;
    LastStage(w, i, aliased, named, m);
  }

  /** The connection's variables after secret resolution, from the pure resolver. */
  function Resolved(s: Secrets.Backend, raw: Env): (conn: Env) {
    map k | k in raw && Secrets.Resolve(s, raw[k]).Value? :: Secrets.Resolve(s, raw[k]).value
  }

  /** What building the environment comes to: it is ready, or the first thing that failed. */
  datatype Built = Ready(env: Env) | BadParams | Unresolved | BadClientVars

  /** decodeConnectionParams and what follows it, with the connection's and the client's variables
      as they come out of gob decoding (None when that fails; no client variables at all decode to
      the empty map).  The outcome is the first failure in the source's order, or the closed form
      over the resolved variables. */
  method SessionEnv(s: Secrets.Backend, w: Platform, conn: Option<Env>, client: Option<Env>, i: Inputs,
                    secretOrder: seq<string>, clientOrder: seq<string>, runtimeOrder: seq<string>, envOrder: seq<string>)
    returns (r: Built)
    requires conn.Some? ==> i.conn == conn.value && Secrets.Visits(secretOrder, i.conn.Keys)
    requires client.Some? ==> i.client == client.value && Secrets.Visits(clientOrder, i.client.Keys)
    requires Secrets.Visits(runtimeOrder, i.runtime.Keys)
    requires conn.Some? && client.Some? ==> Secrets.Visits(envOrder, i.client.Keys + i.conn.Keys + i.runtime.Keys)
    ensures r.BadParams? <==> conn.None?
    ensures r.Unresolved? <==> conn.Some? && !AllResolve(s, conn.value)
    ensures r.BadClientVars? <==> conn.Some? && AllResolve(s, conn.value) && client.None?
    ensures r.Ready? <==> conn.Some? && AllResolve(s, conn.value) && client.Some?
    ensures r.Ready? ==> IsLayered(w, i.(conn := Resolved(s, i.conn)), r.env)
  {
    if conn.None? {
      return BadParams;
    }
    var decoded := Secrets.Decode(s, conn.value, secretOrder);
    SecretsStage(s, conn.value, decoded);
    if !decoded.Ok? {
      return Unresolved;
    }
    if client.None? {
      return BadClientVars;
    }
    var m := Layer(w, i.(conn := decoded.vars), clientOrder, runtimeOrder, envOrder);
    return Ready(m);
  }

  predicate AllResolve(s: Secrets.Backend, conn: Env) {
    forall k :: k in conn ==> Secrets.Resolve(s, conn[k]).Value?
  }

  lemma SecretsStage(s: Secrets.Backend, raw: Env, r: Secrets.Result)
    requires Secrets.Decodes(s, raw, r)
    ensures r.Ok? <==> AllResolve(s, raw)
    ensures r.Ok? ==> r.vars == Resolved(s, raw) && r.vars.Keys == raw.Keys
  {
    Secrets.DecodeOutcome(s, raw, r);
    if r.Ok? {
      assert r.vars == Resolved(s, raw);
    }
  }

  // ---- Consequences ----------------------------------------------------------------------

  /** Whatever the iteration orders, the result is one and the same map. */
  lemma LayersUnique(w: Platform, i: Inputs, m1: Env, m2: Env)
    requires IsLayered(w, i, m1) && IsLayered(w, i, m2)
    ensures m1 == m2
  {
    hide ValueAt;
    forall k ensures k in m1 <==> k in m2 {
      assert (if k in m1 then Some(m1[k]) else None) == ValueAt(w, i, k);
      assert (if k in m2 then Some(m2[k]) else None) == ValueAt(w, i, k);
    }
    forall k | k in m1 ensures m1[k] == m2[k] {
      assert (if k in m1 then Some(m1[k]) else None) == ValueAt(w, i, k);
    }
  }

  /** The variable is written last, from the host environment or as an identity variable. */
  predicate Overlaid(w: Platform, i: Inputs, k: string) {
    (i.host.Some? && HostValue(w, i.host.value, k).Some?) || k in Hoop(w, i.identity)
  }

  /** The one way another layer's password reaches a name a stronger layer defines: through the
      alias of the connection type.  For the client: only the client has a PASS. */
  predicate ClientAliased(w: Platform, i: Inputs, k: string) {
    !Overlaid(w, i, k) && Alias(i.connType) == Some(k) && PASS !in i.conn && PASS !in i.runtime
  }

  /** For connection and client: the agent's runtime variables have no PASS. */
  predicate RuntimeAliased(w: Platform, i: Inputs, k: string) {
    !Overlaid(w, i, k) && Alias(i.connType) == Some(k) && PASS !in i.runtime
  }

  /** base64 never decodes to more than it was given. */
  ghost predicate Shrinks(w: Platform) {
    forall v :: |w.decodePart(v)| <= |v|
  }

  /** By the alias the client's password replaces a variable of the connection. */
  lemma ClientPasswordReplaces(w: Platform, i: Inputs, k: string, password: string)
    requires ClientAliased(w, i, k)
    ensures ValueAt(w, i.(client := i.client[PASS := password]), k) == Some(Substituted(w, PASS, password))
  {
    hide Substituted, Hoop, HostValue;
  }

  /** By the alias the connection's password replaces a runtime variable. */
  lemma ConnectionPasswordReplaces(w: Platform, i: Inputs, k: string, password: string)
    requires RuntimeAliased(w, i, k)
    ensures ValueAt(w, i.(conn := i.conn[PASS := password]), k) == Some(Substituted(w, PASS, password))
  {
    hide Substituted, Hoop, HostValue;
  }

  /** Two passwords that no variable value can both equal. */
  lemma PlainPasswords(w: Platform)
    requires Shrinks(w)
    ensures Substituted(w, PASS, "") == "" && Substituted(w, PASS, "=") == "="
  {
    assert |w.decodePart("")| <= 0 && |w.decodePart("=")| <= 1;
  }

  /** The final value does not depend on what the client sends. */
  ghost predicate ClientIrrelevant(w: Platform, i: Inputs, k: string) {
    forall client :: ValueAt(w, i.(client := client), k) == ValueAt(w, i, k)
  }

  /** It depends neither on the connection's variables nor on the client's. */
  ghost predicate OnlyRuntime(w: Platform, i: Inputs, k: string) {
    forall conn, client :: ValueAt(w, i.(conn := conn, client := client), k) == ValueAt(w, i, k)
  }

  /** Client variables leave a connection or runtime variable alone if and only if the client's
      password cannot reach it by the alias. */
  lemma ClientNeverReplaces(w: Platform, i: Inputs, k: string)
    requires Shrinks(w) && (k in i.conn || k in i.runtime)
    ensures ClientIrrelevant(w, i, k) <==> !ClientAliased(w, i, k)
  {
    hide Substituted, Hoop, HostValue;
    if ClientAliased(w, i, k) {
      PlainPasswords(w);
      ClientPasswordReplaces(w, i, k, "");
      ClientPasswordReplaces(w, i, k, "=");
      var one, two := i.client[PASS := ""], i.client[PASS := "="];
      assert ValueAt(w, i.(client := one), k) != ValueAt(w, i.(client := two), k);
    }
  }

  /** Runtime variables replace what connection and client say if and only if a password cannot
      reach them by the alias. */
  lemma RuntimeReplaces(w: Platform, i: Inputs, k: string)
    requires Shrinks(w) && k in i.runtime
    ensures OnlyRuntime(w, i, k) <==> !RuntimeAliased(w, i, k)
  {
    hide Substituted, Hoop, HostValue;
    if RuntimeAliased(w, i, k) {
      PlainPasswords(w);
      ConnectionPasswordReplaces(w, i, k, "");
      ConnectionPasswordReplaces(w, i, k, "=");
      var one, two := i.conn[PASS := ""], i.conn[PASS := "="];
      assert i.(conn := one) == i.(conn := one, client := i.client) && i.(conn := two) == i.(conn := two, client := i.client);
      assert ValueAt(w, i.(conn := one, client := i.client), k) != ValueAt(w, i.(conn := two, client := i.client), k);
    }
  }

  /** The failing input of both: an agent with its own PGPASSWORD and a postgres connection with a
      PASS; the session gets the connection's password, or without one the client's. */
  lemma RuntimeCanLose(w: Platform, id: Identity, own: string, password: string)
    requires Shrinks(w) && |password| < 17
    ensures ValueAt(w, Inputs(map[PASS := password], map[], map["envvar:PGPASSWORD" := own], Postgres, id, None),
                    "envvar:PGPASSWORD") == Some(password)
    ensures ValueAt(w, Inputs(map[], map[PASS := password], map["envvar:PGPASSWORD" := own], Postgres, id, None),
                    "envvar:PGPASSWORD") == Some(password)
  {
    assert |w.decodePart(password)| < 17;
    NoIdentity(w, id);
  }

  lemma NoIdentity(w: Platform, id: Identity)
    ensures "envvar:PGPASSWORD" !in Hoop(w, id)
  {
    assert forall v :: "envvar:PGPASSWORD"[7] != Name(v)[7];
  }

  /** The agent's own credentials are never passed on from the host environment. */
  lemma {:induction false} CredentialsWithheld(w: Platform, host: seq<string>, name: string)
    requires name == "BIFROST_DSN" || name == "BIFROST_KEY"
    ensures HostValue(w, host, ENVVAR + name) == None
  {
    if host != [] {
      var cut := Cut(host[|host| - 1]);
      assert cut.Some? ==> (ENVVAR + cut.value.0)[7..] == cut.value.0;
      assert (ENVVAR + name)[7..] == name;
      CredentialsWithheld(w, host[..|host| - 1], name);
    }
  }

  // ---- Name by name ----------------------------------------------------------------------

  /** How one more entry of the host environment changes what a name holds: an entry that defines the
      name, and is none of the agent's credentials, decides; any other changes nothing. */
  lemma HostEntryDecides(w: Platform, host: seq<string>, name: string, value: string, k: string)
    requires '=' !in name
    ensures HostValue(w, [], k) == None
    ensures HostValue(w, host + [name + "=" + value], k) ==
            if k == "envvar:" + name && name != "BIFROST_DSN" && name != "BIFROST_KEY" then Some(w.encode(value))
            else HostValue(w, host, k)
  {
    var e := name + "=" + value;
    CutAt(name, value);
    assert (host + [e])[..|host|] == host;
    assert HostEntry(w, e).Some? ==> HostEntry(w, e).value == ("envvar:" + name, w.encode(value));
  }

  /** An entry without '=' changes nothing. */
  lemma HostEntryIgnored(w: Platform, host: seq<string>, e: string, k: string)
    requires '=' !in e
    ensures HostValue(w, host + [e], k) == HostValue(w, host, k)
  {
    assert (host + [e])[..|host|] == host;
  }

  lemma {:induction false} CutAt(name: string, value: string)
    requires '=' !in name
    ensures Cut(name + "=" + value) == Some((name, value))
  {
    var s := name + "=" + value;
    if name == [] {
      assert s[1..] == value;
    } else {
      CutAt(name[1..], value);
      assert s[1..] == name[1..] + "=" + value && [name[0]] + name[1..] == name;
    }
  }

  /** What the agent puts in place of a value: its own environment, where the value asks for it. */
  function Filled(w: Platform, k: string, v: string): (r: string) {
    if "envvar:" <= k && w.decodePart(v) == "system.agent.envs" && w.lookup(k[7..]).Some? then w.encode(w.lookup(k[7..]).value)
    else v
  }

  /** What client, connection and runtime say of a name: the runtime first, then the connection, then
      the client. */
  function Said(w: Platform, i: Inputs, k: string): (r: Option<string>) {
    if k in i.runtime then Some(Filled(w, k, i.runtime[k]))
    else if k in i.conn then Some(Filled(w, k, i.conn[k]))
    else if k in i.client then Some(Filled(w, k, i.client[k]))
    else None
  }

  predicate ByHost(w: Platform, i: Inputs, k: string) {
    i.host.Some? && HostValue(w, i.host.value, k).Some?
  }

  lemma SaidIsExpanded(w: Platform, i: Inputs, k: string)
    ensures Said(w, i, k) == Expanded(w, i, k)
  {
  }

  /** The host environment has the last word. */
  lemma HostDecides(w: Platform, i: Inputs, k: string)
    requires ByHost(w, i, k)
    ensures ValueAt(w, i, k) == HostValue(w, i.host.value, k)
  {
  }

  const IDENTITY_NAMES := {
    "envvar:HOOP_CONNECTION_NAME", "envvar:HOOP_CONNECTION_TYPE", "envvar:HOOP_CLIENT_ORIGIN",
    "envvar:HOOP_CLIENT_VERB", "envvar:HOOP_USER_ID", "envvar:HOOP_USER_EMAIL", "envvar:HOOP_SESSION_ID"}

  /** The names of the identity variables differ from each other and from the password names. */
  lemma NamesDiffer(w: Platform, id: Identity)
    ensures var m := Hoop(w, id);
            && m.Keys == IDENTITY_NAMES
            && m["envvar:HOOP_CONNECTION_NAME"] == w.encode(id.connectionName)
            && m["envvar:HOOP_CONNECTION_TYPE"] == w.encode(id.connectionType)
            && m["envvar:HOOP_CLIENT_ORIGIN"] == w.encode(id.clientOrigin)
            && m["envvar:HOOP_CLIENT_VERB"] == w.encode(id.clientVerb)
            && m["envvar:HOOP_USER_ID"] == w.encode(id.userID)
            && m["envvar:HOOP_USER_EMAIL"] == w.encode(id.userEmail)
            && m["envvar:HOOP_SESSION_ID"] == w.encode(id.sessionID)
  {
    assert |"envvar:HOOP_CONNECTION_NAME"| == 27 && |"envvar:HOOP_CONNECTION_TYPE"| == 27;
    assert |"envvar:HOOP_CLIENT_ORIGIN"| == 25 && |"envvar:HOOP_CLIENT_VERB"| == 23;
    assert |"envvar:HOOP_USER_ID"| == 19 && |"envvar:HOOP_USER_EMAIL"| == 22 && |"envvar:HOOP_SESSION_ID"| == 22;
    assert "envvar:HOOP_CONNECTION_NAME"[23] != "envvar:HOOP_CONNECTION_TYPE"[23];
    assert "envvar:HOOP_USER_EMAIL"[12] != "envvar:HOOP_SESSION_ID"[12];
  }

  /** Each identity variable holds its own field. */
  lemma IdentityHeld(w: Platform, i: Inputs)
    ensures !ByHost(w, i, "envvar:HOOP_CONNECTION_NAME") ==> ValueAt(w, i, "envvar:HOOP_CONNECTION_NAME") == Some(w.encode(i.identity.connectionName))
    ensures !ByHost(w, i, "envvar:HOOP_CONNECTION_TYPE") ==> ValueAt(w, i, "envvar:HOOP_CONNECTION_TYPE") == Some(w.encode(i.identity.connectionType))
    ensures !ByHost(w, i, "envvar:HOOP_CLIENT_ORIGIN") ==> ValueAt(w, i, "envvar:HOOP_CLIENT_ORIGIN") == Some(w.encode(i.identity.clientOrigin))
    ensures !ByHost(w, i, "envvar:HOOP_CLIENT_VERB") ==> ValueAt(w, i, "envvar:HOOP_CLIENT_VERB") == Some(w.encode(i.identity.clientVerb))
    ensures !ByHost(w, i, "envvar:HOOP_USER_ID") ==> ValueAt(w, i, "envvar:HOOP_USER_ID") == Some(w.encode(i.identity.userID))
    ensures !ByHost(w, i, "envvar:HOOP_USER_EMAIL") ==> ValueAt(w, i, "envvar:HOOP_USER_EMAIL") == Some(w.encode(i.identity.userEmail))
    ensures !ByHost(w, i, "envvar:HOOP_SESSION_ID") ==> ValueAt(w, i, "envvar:HOOP_SESSION_ID") == Some(w.encode(i.identity.sessionID))
  {
    hide Hoop, HostValue;
    NamesDiffer(w, i.identity);
  }

  /** The three password names take the PASS of the layers for their own connection type, and are
      left alone for every other. */
  lemma PasswordNames(w: Platform, i: Inputs)
    ensures !ByHost(w, i, "envvar:PGPASSWORD") ==>
              ValueAt(w, i, "envvar:PGPASSWORD") ==
              if i.connType.Postgres? && Said(w, i, "envvar:PASS").Some? then Said(w, i, "envvar:PASS") else Said(w, i, "envvar:PGPASSWORD")
    ensures !ByHost(w, i, "envvar:MYSQL_PWD") ==>
              ValueAt(w, i, "envvar:MYSQL_PWD") ==
              if i.connType.MySQL? && Said(w, i, "envvar:PASS").Some? then Said(w, i, "envvar:PASS") else Said(w, i, "envvar:MYSQL_PWD")
    ensures !ByHost(w, i, "envvar:SQLCMDPASSWORD") ==>
              ValueAt(w, i, "envvar:SQLCMDPASSWORD") ==
              if i.connType.MSSQL? && Said(w, i, "envvar:PASS").Some? then Said(w, i, "envvar:PASS") else Said(w, i, "envvar:SQLCMDPASSWORD")
  {
    hide Said, Expanded, HostValue;
    SaidIsExpanded(w, i, "envvar:PASS");
    SaidIsExpanded(w, i, "envvar:PGPASSWORD");
    SaidIsExpanded(w, i, "envvar:MYSQL_PWD");
    SaidIsExpanded(w, i, "envvar:SQLCMDPASSWORD");
    PasswordNamesDiffer(w, i.identity);
  }

  lemma PasswordNamesDiffer(w: Platform, id: Identity)
    ensures "envvar:PGPASSWORD" !in Hoop(w, id) && "envvar:MYSQL_PWD" !in Hoop(w, id) && "envvar:SQLCMDPASSWORD" !in Hoop(w, id)
    ensures "envvar:PGPASSWORD" != "envvar:MYSQL_PWD" && "envvar:MYSQL_PWD" != "envvar:SQLCMDPASSWORD" && "envvar:PGPASSWORD" != "envvar:SQLCMDPASSWORD"
  {
    assert forall v :: Name(v)[7] == 'H';
    assert "envvar:PGPASSWORD"[7] == 'P' && "envvar:MYSQL_PWD"[7] == 'M' && "envvar:SQLCMDPASSWORD"[7] == 'S';
  }

  /** Every other name holds what the layers say. */
  lemma OthersHeld(w: Platform, i: Inputs, k: string)
    requires !ByHost(w, i, k) && k !in IDENTITY_NAMES
    requires k != "envvar:PGPASSWORD" && k != "envvar:MYSQL_PWD" && k != "envvar:SQLCMDPASSWORD"
    ensures ValueAt(w, i, k) == Said(w, i, k)
  {
    hide HostValue, Said, Expanded, Hoop, IDENTITY_NAMES;
    SaidIsExpanded(w, i, k);
    NamesDiffer(w, i.identity);
  }
}
