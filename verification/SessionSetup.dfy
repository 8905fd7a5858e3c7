/**
  Opening a session (buildConnectionParams and decodeConnectionParams of
  agent/controller/agent.go): from what the SessionOpen packet carries, and from the agent it
  reaches, to the parameters the session's commands and connections run with.
 */
module SessionSetup {
  import opened Selection
  import opened Wire
  import Secrets
  import EnvLayers

  /** Decoded connection parameters: the command line and the layered environment. */
  datatype Params = Params(command: string, env: map<string, string>)

  /** What the connection parameters of a packet decode to. */
  datatype Decoded = Decoded(
    connectionName: string, connectionType: string, clientOrigin: string, clientVerb: string,
    userID: string, userEmail: string, command: string, vars: map<string, string>)

  /** An agent: its configuration, what it runs on, and how gob decodes. */
  datatype Setup = Setup(
    decodeParams: string -> Option<Decoded>,
    decodeVars: string -> Option<map<string, string>>,
    secrets: Secrets.Backend, platform: EnvLayers.Platform,
    runtime: map<string, string>, host: Option<seq<string>>)

  /** The connection type on the packet, as far as the password alias tells types apart. */
  function TypeOf(t: string): (r: EnvLayers.ConnType) {
    if t == "postgres" then EnvLayers.Postgres
    else if t == "mysql" then EnvLayers.MySQL
    else if t == "mssql" then EnvLayers.MSSQL
    else EnvLayers.Other
  }

  /** GobDecodeInto of the connection parameters refuses the empty text. */
  function ConnectionOf(setup: Setup, pkt: Packet): (r: Option<Decoded>) {
    var text := Get(pkt.spec, EncodedParams);
    if text == "" then None else setup.decodeParams(text)
  }

  /** The client's own variables; a packet without any has none. */
  function ClientOf(setup: Setup, pkt: Packet): (r: Option<map<string, string>>) {
    var text := Get(pkt.spec, ClientEnvVars);
    if text == "" then Some(map[]) else setup.decodeVars(text)
  }

  function InputsOf(setup: Setup, pkt: Packet, d: Decoded, client: map<string, string>): (i: EnvLayers.Inputs) {
    EnvLayers.Inputs(
      d.vars, client, setup.runtime, TypeOf(Get(pkt.spec, ConnectionType)),
      EnvLayers.Identity(d.connectionName, d.connectionType, d.clientOrigin, d.clientVerb, d.userID, d.userEmail, SidOf(pkt)),
      setup.host)
  }

  /** The environment a SessionOpen packet stands for, layer by layer. */
  function EnvInputs(setup: Setup, pkt: Packet): (i: Option<EnvLayers.Inputs>) {
    var d, client := ConnectionOf(setup, pkt), ClientOf(setup, pkt);
    if d.None? || client.None? || !EnvLayers.AllResolve(setup.secrets, d.value.vars) then None
    else
      var i := InputsOf(setup, pkt, d.value, client.value);
      Some(i.(conn := EnvLayers.Resolved(setup.secrets, i.conn)))
  }

  /** The parameters of the session, or None when the packet does not open one. */
  function ParamsOf(setup: Setup, pkt: Packet): (r: Option<Params>)
    ensures r.Some? <==> EnvInputs(setup, pkt).Some?
    ensures r.Some? ==> EnvLayers.IsLayered(setup.platform, EnvInputs(setup, pkt).value, r.value.env)
    ensures r.Some? ==> r.value.command == ConnectionOf(setup, pkt).value.command
  {
    match EnvInputs(setup, pkt)
    case Some(i) => Some(Params(ConnectionOf(setup, pkt).value.command, EnvLayers.Layered(setup.platform, i)))
    case None => None
  }

  // ---- From the packet's text to the session's variables ---------------------------------

  /** What a name holds in an environment. */
  function At(env: map<string, string>, k: string): (r: Option<string>) {
    if k in env then Some(env[k]) else None
  }

  /** The client's variables on the packet, if any. */
  function ClientVars(setup: Setup, pkt: Packet): (m: map<string, string>) {
    if Get(pkt.spec, ClientEnvVars) == "" then map[]
    else if setup.decodeVars(Get(pkt.spec, ClientEnvVars)).Some? then setup.decodeVars(Get(pkt.spec, ClientEnvVars)).value
    else map[]
  }

  /** When a packet opens a session: its parameters are there and decode, its client variables decode
      if there are any, and every variable of the connection resolves. */
  lemma OpensExactly(setup: Setup, pkt: Packet)
    ensures ParamsOf(setup, pkt).Some? <==>
            && Get(pkt.spec, EncodedParams) != "" && setup.decodeParams(Get(pkt.spec, EncodedParams)).Some?
            && (Get(pkt.spec, ClientEnvVars) == "" || setup.decodeVars(Get(pkt.spec, ClientEnvVars)).Some?)
            && var vars := setup.decodeParams(Get(pkt.spec, EncodedParams)).value.vars;
               forall k :: k in vars ==> Secrets.Resolve(setup.secrets, vars[k]).Value?
    ensures ParamsOf(setup, pkt).Some? ==>
              ParamsOf(setup, pkt).value.command == setup.decodeParams(Get(pkt.spec, EncodedParams)).value.command
  {
  }

  /** What the agent's runtime, the connection and the client say of a name, in that order. */
  function SaidOf(setup: Setup, pkt: Packet, d: Decoded, k: string): (r: Option<string>) {
    if k in setup.runtime then Some(EnvLayers.Filled(setup.platform, k, setup.runtime[k]))
    else if k in d.vars && Secrets.Resolve(setup.secrets, d.vars[k]).Value? then
      Some(EnvLayers.Filled(setup.platform, k, Secrets.Resolve(setup.secrets, d.vars[k]).value))
    else if k in ClientVars(setup, pkt) then Some(EnvLayers.Filled(setup.platform, k, ClientVars(setup, pkt)[k]))
    else None
  }

  predicate HostHas(setup: Setup, k: string) {
    setup.host.Some? && EnvLayers.HostValue(setup.platform, setup.host.value, k).Some?
  }

  lemma SaidHere(setup: Setup, pkt: Packet, d: Decoded, k: string)
    requires EnvInputs(setup, pkt).Some? && Some(d) == setup.decodeParams(Get(pkt.spec, EncodedParams))
    ensures EnvLayers.Said(setup.platform, EnvInputs(setup, pkt).value, k) == SaidOf(setup, pkt, d, k)
    ensures EnvLayers.ByHost(setup.platform, EnvInputs(setup, pkt).value, k) <==> HostHas(setup, k)
  {
    hide EnvLayers.Filled, EnvLayers.HostValue, Secrets.Resolve;
  }

  lemma EnvAt(setup: Setup, pkt: Packet, k: string)
    requires ParamsOf(setup, pkt).Some?
    ensures At(ParamsOf(setup, pkt).value.env, k) == EnvLayers.ValueAt(setup.platform, EnvInputs(setup, pkt).value, k)
  {
    hide ParamsOf, EnvInputs, EnvLayers.ValueAt;
  }

  /** The name under which a database's own tools look for the password. */
  predicate PasswordName(t: string, k: string) {
    || (t == "postgres" && k == "envvar:PGPASSWORD")
    || (t == "mysql" && k == "envvar:MYSQL_PWD")
    || (t == "mssql" && k == "envvar:SQLCMDPASSWORD")
  }

  /** A session's PASS goes under the password name of the connection type on its packet, and of no
      other; where it does not go the layers decide. */
  lemma SessionPassword(setup: Setup, pkt: Packet, d: Decoded, k: string)
    requires ParamsOf(setup, pkt).Some? && Some(d) == setup.decodeParams(Get(pkt.spec, EncodedParams))
    requires k == "envvar:PGPASSWORD" || k == "envvar:MYSQL_PWD" || k == "envvar:SQLCMDPASSWORD"
    ensures !HostHas(setup, k) ==>
              At(ParamsOf(setup, pkt).value.env, k) ==
              if PasswordName(Get(pkt.spec, ConnectionType), k) && SaidOf(setup, pkt, d, "envvar:PASS").Some?
              then SaidOf(setup, pkt, d, "envvar:PASS") else SaidOf(setup, pkt, d, k)
  {
    hide ParamsOf, EnvLayers.ValueAt, EnvLayers.Said, EnvLayers.ByHost, HostHas, SaidOf;
    var i := EnvInputs(setup, pkt).value;
    EnvAt(setup, pkt, k);
    SaidHere(setup, pkt, d, k);
    SaidHere(setup, pkt, d, "envvar:PASS");
    EnvLayers.PasswordNames(setup.platform, i);
    EnvLayers.PasswordNamesDiffer(setup.platform, i.identity);
  }

  /** The identity variables tell the connection, the client, the user and the stamped session. */
  lemma SessionIdentity(setup: Setup, pkt: Packet, d: Decoded)
    requires ParamsOf(setup, pkt).Some? && Some(d) == setup.decodeParams(Get(pkt.spec, EncodedParams))
    ensures var env, e := ParamsOf(setup, pkt).value.env, setup.platform.encode;
            && (!HostHas(setup, "envvar:HOOP_CONNECTION_NAME") ==> At(env, "envvar:HOOP_CONNECTION_NAME") == Some(e(d.connectionName)))
            && (!HostHas(setup, "envvar:HOOP_CONNECTION_TYPE") ==> At(env, "envvar:HOOP_CONNECTION_TYPE") == Some(e(d.connectionType)))
            && (!HostHas(setup, "envvar:HOOP_CLIENT_ORIGIN") ==> At(env, "envvar:HOOP_CLIENT_ORIGIN") == Some(e(d.clientOrigin)))
            && (!HostHas(setup, "envvar:HOOP_CLIENT_VERB") ==> At(env, "envvar:HOOP_CLIENT_VERB") == Some(e(d.clientVerb)))
            && (!HostHas(setup, "envvar:HOOP_USER_ID") ==> At(env, "envvar:HOOP_USER_ID") == Some(e(d.userID)))
            && (!HostHas(setup, "envvar:HOOP_USER_EMAIL") ==> At(env, "envvar:HOOP_USER_EMAIL") == Some(e(d.userEmail)))
            && (!HostHas(setup, "envvar:HOOP_SESSION_ID") ==> At(env, "envvar:HOOP_SESSION_ID") == Some(e(SidOf(pkt))))
  {
    hide ParamsOf, EnvLayers.ValueAt, EnvLayers.HostValue;
    EnvAt(setup, pkt, "envvar:HOOP_CONNECTION_NAME");
    EnvAt(setup, pkt, "envvar:HOOP_CONNECTION_TYPE");
    EnvAt(setup, pkt, "envvar:HOOP_CLIENT_ORIGIN");
    EnvAt(setup, pkt, "envvar:HOOP_CLIENT_VERB");
    EnvAt(setup, pkt, "envvar:HOOP_USER_ID");
    EnvAt(setup, pkt, "envvar:HOOP_USER_EMAIL");
    EnvAt(setup, pkt, "envvar:HOOP_SESSION_ID");
    EnvLayers.IdentityHeld(setup.platform, EnvInputs(setup, pkt).value);
  }

  /** Every other name holds what the layers say, and any name the host defines what the host says. */
  lemma SessionOthers(setup: Setup, pkt: Packet, d: Decoded, k: string)
    requires ParamsOf(setup, pkt).Some? && Some(d) == setup.decodeParams(Get(pkt.spec, EncodedParams))
    ensures HostHas(setup, k) ==>
              At(ParamsOf(setup, pkt).value.env, k) == EnvLayers.HostValue(setup.platform, setup.host.value, k)
    ensures !HostHas(setup, k) && k !in EnvLayers.IDENTITY_NAMES
            && k != "envvar:PGPASSWORD" && k != "envvar:MYSQL_PWD" && k != "envvar:SQLCMDPASSWORD" ==>
              At(ParamsOf(setup, pkt).value.env, k) == SaidOf(setup, pkt, d, k)
  {
    hide ParamsOf, EnvLayers.ValueAt, EnvLayers.Said, EnvLayers.HostValue, SaidOf, EnvLayers.IDENTITY_NAMES;
    var i := EnvInputs(setup, pkt).value;
    EnvAt(setup, pkt, k);
    SaidHere(setup, pkt, d, k);
    if HostHas(setup, k) {
      EnvLayers.HostDecides(setup.platform, i, k);
    } else if k !in EnvLayers.IDENTITY_NAMES && k != "envvar:PGPASSWORD" && k != "envvar:MYSQL_PWD" && k != "envvar:SQLCMDPASSWORD" {
      EnvLayers.OthersHeld(setup.platform, i, k);
    }
  }

  /** The keys of a map in some order. */
  method Enumerate(keys: set<string>) returns (order: seq<string>)
    ensures Secrets.Visits(order, keys)
  {
    order := [];
    var left := keys;
    while left != {}
      invariant left <= keys
      invariant forall k :: k in order <==> k in keys && k !in left
      invariant Secrets.Distinct(order)
      decreases left
    {
      var k :| k in left;
      order := order + [k];
      left := left - {k};
    }
  }

  /** buildConnectionParams, each map ranged over in an arbitrary order. */
  method BuildParams(setup: Setup, pkt: Packet) returns (r: Option<Params>)
    ensures r == ParamsOf(setup, pkt)
  {
    var d, client := ConnectionOf(setup, pkt), ClientOf(setup, pkt);
    if d.None? {
      return None;
    }
    var i := InputsOf(setup, pkt, d.value, if client.Some? then client.value else map[]);
    var secretOrder := Enumerate(i.conn.Keys);
    var clientOrder := Enumerate(i.client.Keys);
    var runtimeOrder := Enumerate(i.runtime.Keys);
    var envOrder := Enumerate(i.client.Keys + i.conn.Keys + i.runtime.Keys);
    var built := EnvLayers.SessionEnv(setup.secrets, setup.platform, Some(d.value.vars), client, i,
                                      secretOrder, clientOrder, runtimeOrder, envOrder);
    match built
    case Ready(env) =>
      EnvLayers.LayersUnique(setup.platform, EnvInputs(setup, pkt).value, env, ParamsOf(setup, pkt).value.env);
      return Some(Params(d.value.command, env));
    case _ =>
      return None;
  }
}
