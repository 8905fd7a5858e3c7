/**
  Packets exchanged between client, gateway and agent (common/proto).  Byte strings and Go
  strings are both `string`; an absent spec value and an empty one read the same, as do a
  nil and an empty payload, which is how both arrive from the wire.
 */
module Wire {

  datatype SpecKey =
    | SessionId | ConnectionId | ConnectionType | RequestPort | Command | ExitCode | ServerConnect
    | EncodedParams | ClientEnvVars
    | OtherKey(name: string)

  type Spec = map<SpecKey, string>

  datatype Protocol = PG | MySQL | MSSQL | MongoDB | TCP | SSH | HttpProxy

  datatype PacketType =
    // handled by the agent
    | GatewayConnectOK | SessionOpen | AgentSessionClose
    | ExecWriteStdin | TerminalWriteStdin | TerminalResizeTTY
    | AgentTCPClose | AgentWrite(to: Protocol)
    // handled by the client
    | SessionOpenOK | ClientSessionClose | ClientTCPClose
    | ClientWrite(from: Protocol) | WriteStdout | WriteStderr
    // anything else a peer may put on the wire
    | OtherType(name: string)

  datatype Packet = Packet(typ: PacketType, payload: string, spec: Spec)

  /** Indexing a Go map yields the zero value for an absent key. */
  function Get(spec: Spec, k: SpecKey): (v: string) {
    if k in spec then spec[k] else ""
  }

  function SidOf(p: Packet): (s: string) {
    Get(p.spec, SessionId)
  }

  function ConnOf(p: Packet): (s: string) {
    Get(p.spec, ConnectionId)
  }

  /** What the gateway does to every client packet before forwarding it: it overwrites the
      session id, whatever the client put there, and leaves the rest alone. */
  function Stamp(p: Packet, sid: string): (q: Packet)
    ensures SidOf(q) == sid
    ensures q.typ == p.typ && q.payload == p.payload
    ensures forall k :: k != SessionId ==> (k in q.spec <==> k in p.spec)
    ensures forall k :: k != SessionId && k in p.spec ==> q.spec[k] == p.spec[k]
  {
    p.(spec := p.spec[SessionId := sid])
  }

  const INTERNAL_EXIT_CODE := "254"

  function ClosePacket(sid: string, msg: string, code: string): (p: Packet) {
    Packet(ClientSessionClose, msg, map[SessionId := sid, ExitCode := code])
  }

  function TcpClosePacket(sid: string, conn: string): (p: Packet) {
    Packet(ClientTCPClose, "", map[SessionId := sid, ConnectionId := conn])
  }
}
