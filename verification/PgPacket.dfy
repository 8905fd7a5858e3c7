/**
  PostgreSQL v3 framing and query extraction (common/pgtypes/packet.go, const.go; "Message
  Formats" of the PostgreSQL 9.4 frontend/backend protocol).  A packet is an optional type byte, a
  big-endian length that counts itself, and the frame; startup-style packets have no type byte.
 */
module PgPacket {
  import opened Selection
  import opened Bytes

  type Header = h: seq<Byte> | |h| == 4 witness [0, 0, 0, 0]

  datatype Packet = Packet(typ: Option<Byte>, header: Header, frame: seq<Byte>)

  datatype Error = EndOfStream | ShortHeader | MaxSizeReached | ShortFrame
  datatype Decoded = Ok(packet: Packet, rest: seq<Byte>) | Err(error: Error)

  const DEFAULT_BUFFER_SIZE := 0x100_0000

  const CLIENT_PARSE: Byte := 'P' as int
  const CLIENT_SIMPLE_QUERY: Byte := 'Q' as int
  const SERVER_ERROR_RESPONSE: Byte := 'E' as int

  /** isClientType: B C d c f D E H P p Q S X. */
  predicate ClientType(b: Byte) {
    b in {'B' as int, 'C' as int, 'd' as int, 'c' as int, 'f' as int, 'D' as int, 'E' as int, 'H' as int,
          'P' as int, 'p' as int, 'Q' as int, 'S' as int, 'X' as int}
  }

  function HeaderLength(p: Packet): (n: U32) {
    FromBE32(p.header)
  }

  /** Packet.Encode: as many bytes as the header says, cut or zero-filled, after the type. */
  function Encode(p: Packet): (b: seq<Byte>)
    ensures |b| == HeaderLength(p) + (if p.typ.Some? then 1 else 0)
  {
    var all := p.header + p.frame;
    var n := HeaderLength(p);
    var dst := if n <= |all| then all[..n] else all + seq(n - |all|, _ => 0);
    if p.typ.Some? then [p.typ.value] + dst else dst
  }

  /** Byte by byte: the type if there is one, the header, the frame, and zeros up to the length the
      header announces. */
  lemma EncodeExactly(p: Packet, i: nat)
    ensures p.typ.Some? ==> |Encode(p)| == FromBE32(p.header) + 1 && Encode(p)[0] == p.typ.value
    ensures p.typ.None? ==> |Encode(p)| == FromBE32(p.header)
    ensures i < FromBE32(p.header) ==>
              Encode(p)[if p.typ.Some? then i + 1 else i] ==
              if i < 4 then p.header[i] else if i - 4 < |p.frame| then p.frame[i - 4] else 0
  {
    hide FromBE32;
  }

  /** Length and frame, after the header has been read. */
  function DecodeFrame(typ: Option<Byte>, header: Header, data: seq<Byte>): (r: Decoded) {
    var pktLen := FromBE32(header) - 4;
    if pktLen > DEFAULT_BUFFER_SIZE || pktLen < 0 then Err(MaxSizeReached)
    else if |data| < pktLen then Err(ShortFrame)
    else Ok(Packet(typ, header, data[..pktLen]), data[pktLen..])
  }

  /** Decode from a stream that holds `data`: one packet, and what is left. */
  function Decode(data: seq<Byte>): (r: Decoded) {
    if |data| == 0 then Err(EndOfStream)
    else if !ClientType(data[0]) then
      if |data| < 4 then Err(ShortHeader) else DecodeFrame(None, data[..4], data[4..])
    else
      if |data| < 5 then Err(ShortHeader) else DecodeFrame(Some(data[0]), data[1..5], data[5..])
  }

  // ---- The stream ------------------------------------------------------------------------

  class Reader {
    const data: seq<Byte>
    var pos: nat

    ghost predicate Valid()
      reads this
    {
      pos <= |data|
    }

    ghost function Left(): (s: seq<Byte>)
      reads this
      requires Valid()
    {
      data[pos..]
    }

    constructor (data: seq<Byte>)
      ensures Valid() && Left() == data
    {
      this.data := data;
      pos := 0;
    }

    /** io.ReadFull; the stream is used up when it falls short. */
    method ReadFull(n: nat) returns (r: Option<seq<Byte>>)
      requires Valid()
      modifies this
      ensures Valid()
      ensures if n <= |old(Left())| then r == Some(old(Left())[..n]) && Left() == old(Left())[n..]
              else r == None && Left() == []
    {
      assert Left() == data[pos..];
      if pos + n <= |data| {
        assert Left()[..n] == data[pos..pos + n] && Left()[n..] == data[pos + n..];
        r := Some(data[pos..pos + n]);
        pos := pos + n;
      } else {
        r := None;
        pos := |data|;
      }
    }
  }

  /** Decode reads the type byte first; what is no client type is the first byte of the length. */
  method DecodePacket(data: Reader) returns (r: Decoded)
    requires data.Valid()
    modifies data
    ensures data.Valid()
    ensures r == Decode(old(data.Left()))
    ensures r.Ok? ==> data.Left() == r.rest
  {
    hide FromBE32, ClientType;
    ghost var all := data.Left();
    var typ := data.ReadFull(1);
    if typ.None? {
      return Err(EndOfStream);
    }
    var header: Header := [0, 0, 0, 0];
    var pktType: Option<Byte> := None;
    if !ClientType(typ.value[0]) {
      var tail := data.ReadFull(3);
      if tail.None? {
        return Err(ShortHeader);
      }
      header := typ.value + tail.value;
      assert header == all[..4] && data.Left() == all[4..];
    } else {
      pktType := Some(typ.value[0]);
      var whole := data.ReadFull(4);
      if whole.None? {
        return Err(ShortHeader);
      }
      header := whole.value;
      assert header == all[1..5] && data.Left() == all[5..];
    }
    var pktLen := FromBE32(header) - 4;
    if pktLen > DEFAULT_BUFFER_SIZE || pktLen < 0 {
      return Err(MaxSizeReached);
    }
    var frame := data.ReadFull(pktLen);
    if frame.None? {
      return Err(ShortFrame);
    }
    return Ok(Packet(pktType, header, frame.value), data.data[data.pos..]);
  }

  // ---- Framing is unambiguous ------------------------------------------------------------

  /** A client packet whose length says its size; the frame has at most 2^24 bytes. */
  predicate WellFormed(p: Packet) {
    && HeaderLength(p) == 4 + |p.frame| && |p.frame| <= DEFAULT_BUFFER_SIZE
    && (p.typ.Some? ==> ClientType(p.typ.value))
  }

  /** The first byte of an untyped length is 0 or 1, never a client type. */
  lemma LengthIsNoType(h: Header)
    requires FromBE32(h) <= DEFAULT_BUFFER_SIZE + 4
    ensures h[0] <= 1 && !ClientType(h[0])
  {
  }

  lemma FrameRead(p: Packet, rest: seq<Byte>)
    requires WellFormed(p)
    ensures DecodeFrame(p.typ, p.header, p.frame + rest) == Ok(p, rest)
  {
    hide FromBE32, ClientType;
    assert (p.frame + rest)[..|p.frame|] == p.frame && (p.frame + rest)[|p.frame|..] == rest;
  }

  lemma WholeEncoding(p: Packet)
    requires WellFormed(p)
    ensures Encode(p) == (if p.typ.Some? then [p.typ.value] else []) + p.header + p.frame
  {
    hide FromBE32, ClientType;
    var all := p.header + p.frame;
    assert all[..HeaderLength(p)] == all;
  }

  lemma DecodeEncode(p: Packet, rest: seq<Byte>)
    requires WellFormed(p)
    ensures Decode(Encode(p) + rest) == Ok(p, rest)
  {
    LengthIsNoType(p.header);
    hide FromBE32, ClientType, Encode, DecodeFrame;
    WholeEncoding(p);
    FrameRead(p, rest);
    var data := Encode(p) + rest;
    if p.typ.Some? {
      assert data[0] == p.typ.value && data[1..5] == p.header && data[5..] == p.frame + rest;
    } else {
      assert data[0] == p.header[0] && data[..4] == p.header && data[4..] == p.frame + rest;
    }
  }

  /** A successful decode consumed exactly the bytes of its own re-encoding. */
  lemma DecodeConsumes(data: seq<Byte>)
    requires Decode(data).Ok?
    ensures WellFormed(Decode(data).packet)
    ensures data == Encode(Decode(data).packet) + Decode(data).rest
  {
    hide FromBE32, ClientType, Encode, DecodeFrame;
    var p, rest := Decode(data).packet, Decode(data).rest;
    if !ClientType(data[0]) {
      FrameConsumes(None, data[..4], data[4..]);
      WholeEncoding(p);
      assert data == data[..4] + data[4..];
    } else {
      FrameConsumes(Some(data[0]), data[1..5], data[5..]);
      WholeEncoding(p);
      assert data == [data[0]] + data[1..5] + data[5..];
    }
  }

  lemma FrameConsumes(typ: Option<Byte>, header: Header, data: seq<Byte>)
    requires DecodeFrame(typ, header, data).Ok? && (typ.Some? ==> ClientType(typ.value))
    ensures var r := DecodeFrame(typ, header, data);
            WellFormed(r.packet) && r.packet.typ == typ && r.packet.header == header && data == r.packet.frame + r.rest
  {
    hide FromBE32, ClientType;
  }

  /** Packets until the end of the stream, or None at the first error. */
  function DecodeAll(data: seq<Byte>): (r: Option<seq<Packet>>)
    decreases |data|
  {
    if data == [] then Some([])
    else
      var first := Decode(data);
      if first.Err? then None
      else
        DecodeConsumes(data);
        var others := DecodeAll(first.rest);
        if others.Some? then Some([first.packet] + others.value) else None
  }

  function EncodeAll(ps: seq<Packet>): (b: seq<Byte>) {
    if ps == [] then [] else Encode(ps[0]) + EncodeAll(ps[1..])
  }

  /** A stream decodes to a list of packets if and only if it is the concatenated encodings of
      that list and each of them is well formed. */
  lemma {:induction false} FramingUnambiguous(data: seq<Byte>, ps: seq<Packet>)
    ensures DecodeAll(data) == Some(ps) <==> data == EncodeAll(ps) && forall i :: 0 <= i < |ps| ==> WellFormed(ps[i])
    decreases |data|
  {
    hide Decode, Encode, WellFormed;
    if data == EncodeAll(ps) && (forall i :: 0 <= i < |ps| ==> WellFormed(ps[i])) && ps != [] {
      DecodeEncode(ps[0], EncodeAll(ps[1..]));
      EncodeNonEmpty(ps[0]);
      FramingUnambiguous(EncodeAll(ps[1..]), ps[1..]);
      assert ps == [ps[0]] + ps[1..];
    }
    if DecodeAll(data) == Some(ps) && data != [] {
      DecodeConsumes(data);
      EncodeNonEmpty(Decode(data).packet);
      FramingUnambiguous(Decode(data).rest, ps[1..]);
      assert ps[1..] == DecodeAll(Decode(data).rest).value;
      forall i | 0 <= i < |ps| ensures WellFormed(ps[i]) {
        assert i > 0 ==> ps[i] == ps[1..][i - 1];
      }
    }
  }

  lemma EncodeNonEmpty(p: Packet)
    requires WellFormed(p)
    ensures |Encode(p)| >= 4
  {
  }

  // ---- Exactly what is decoded -----------------------------------------------------------

  /** The thirteen letters of a client's packets: B C d c f D E H P p Q S X. */
  const CLIENT_LETTERS: set<int> := {0x42, 0x43, 0x64, 0x63, 0x66, 0x44, 0x45, 0x48, 0x50, 0x70, 0x51, 0x53, 0x58}

  /** A packet whose length starts at byte `at` of the data, right after its type if it has one. */
  function Framed(data: seq<Byte>, at: nat): (r: Decoded)
    requires at <= 1 && |data| >= at + 4
  {
    var len := FromBE32(data[at..at + 4]);
    if len < 4 || len > 0x100_0004 then Err(MaxSizeReached)
    else if |data| < at + len then Err(ShortFrame)
    else Ok(Packet(if at == 1 then Some(data[0]) else None, data[at..at + 4], data[at + 4..at + len]), data[at + len..])
  }

  /** The first byte is a type if and only if it is one of the letters; otherwise the length starts
      with it.  Frames have at most 2^24 bytes. */
  lemma DecodeExactly(data: seq<Byte>)
    ensures data == [] ==> Decode(data) == Err(EndOfStream)
    ensures data != [] && data[0] in CLIENT_LETTERS ==>
              Decode(data) == if |data| < 5 then Err(ShortHeader) else Framed(data, 1)
    ensures data != [] && data[0] !in CLIENT_LETTERS ==>
              Decode(data) == if |data| < 4 then Err(ShortHeader) else Framed(data, 0)
  {
    hide FromBE32;
    if data != [] {
      assert ClientType(data[0]) <==> data[0] in CLIENT_LETTERS;
      if data[0] in CLIENT_LETTERS {
        if |data| >= 5 { FramedAt(data, 1); }
      } else if |data| >= 4 {
        FramedAt(data, 0);
      }
    }
  }

  lemma FramedAt(data: seq<Byte>, at: nat)
    requires at <= 1 && |data| >= at + 4
    ensures DecodeFrame(if at == 1 then Some(data[0]) else None, data[at..at + 4], data[at + 4..]) == Framed(data, at)
  {
    hide FromBE32, ClientType;
    var len := FromBE32(data[at..at + 4]);
    if 4 <= len && at + len <= |data| {
      assert data[at + 4..][..len - 4] == data[at + 4..at + len] && data[at + 4..][len - 4..] == data[at + len..];
    }
  }

  /** A simple query, as its bytes, is decoded as a packet of type 'Q' whatever follows. */
  lemma SimpleQueryDecoded(query: seq<Byte>, rest: seq<Byte>)
    requires |query| < 0x100_0000
    ensures Decode([0x51] + BE32(|query| + 5) + query + [0] + rest) == Ok(Packet(Some(0x51), BE32(|query| + 5), query + [0]), rest)
  {
    TypedDecoded(0x51, query + [0], rest);
    assert [0x51] + BE32(|query| + 5) + query + [0] + rest == [0x51] + BE32(|query| + 5) + (query + [0]) + rest;
  }

  /** So is a Parse message, as one of type 'P'. */
  lemma ParseDecoded(name: seq<Byte>, query: seq<Byte>, params: seq<Byte>, rest: seq<Byte>)
    requires |name| + |query| + |params| + 2 <= 0x100_0000
    ensures var frame := name + [0] + query + [0] + params;
            Decode([0x50] + BE32(|frame| + 4) + frame + rest) == Ok(Packet(Some(0x50), BE32(|frame| + 4), frame), rest)
  {
    TypedDecoded(0x50, name + [0] + query + [0] + params, rest);
  }

  lemma TypedDecoded(letter: Byte, frame: seq<Byte>, rest: seq<Byte>)
    requires letter in CLIENT_LETTERS && |frame| <= 0x100_0000
    ensures Decode([letter] + BE32(|frame| + 4) + frame + rest) == Ok(Packet(Some(letter), BE32(|frame| + 4), frame), rest)
  {
    var data := [letter] + BE32(|frame| + 4) + frame + rest;
    Words32(|frame| + 4);
    DecodeExactly(data);
    hide FromBE32, BE32, Decode;
    assert data[1..5] == BE32(|frame| + 4) && data[5..5 + |frame|] == frame && data[5 + |frame|..] == rest;
  }

  // ---- Query extraction ------------------------------------------------------------------

  /** ParseQuery returns bytes, returns nil, or slices out of range. */
  datatype Parsed = Found(query: seq<Byte>) | NoQuery | Panic

  /** bytes.IndexByte(b, 0), or -1. */
  function IndexNul(b: seq<Byte>): (i: int)
    ensures -1 <= i < |b|
    ensures i >= 0 ==> b[i] == 0 && 0 !in b[..i]
    ensures i == -1 ==> 0 !in b
  {
    if b == [] then -1
    else if b[0] == 0 then 0
    else
      var i := IndexNul(b[1..]);
      assert i >= 0 ==> b[..i + 1] == [b[0]] + b[1..][..i];
      if i == -1 then -1 else i + 1
  }

  function ParseQuery(payload: seq<Byte>): (r: Parsed) {
    if payload == [] then Panic
    else if payload[0] == CLIENT_SIMPLE_QUERY then
      if |payload| < 5 then Panic
      else
        var pktLen := FromBE32(payload[1..5]);
        if 5 <= pktLen <= |payload| then Found(payload[5..pktLen]) else Panic
    else if payload[0] == CLIENT_PARSE then
      if |payload| < 6 then Panic
      else if payload[5] == 0 then UpToNul(payload[6..])
      else
        var idx := IndexNul(payload[5..]);
        if idx == -1 then NoQuery else UpToNul(payload[5..][idx + 1..])
    else NoQuery
  }

  function UpToNul(b: seq<Byte>): (r: Parsed) {
    var idx := IndexNul(b);
    if idx == -1 then NoQuery else Found(b[..idx])
  }

  /** `b` begins with string `s` and its terminator, and `rest` follows. */
  predicate Terminated(b: seq<Byte>, s: seq<Byte>, rest: seq<Byte>) {
    0 !in s && b == s + [0] + rest
  }

  lemma {:induction false} TerminatedIndex(b: seq<Byte>, s: seq<Byte>, rest: seq<Byte>)
    requires Terminated(b, s, rest)
    ensures IndexNul(b) == |s| && b[..|s|] == s && b[|s| + 1..] == rest
  {
    if s != [] {
      assert b[1..] == s[1..] + [0] + rest;
      TerminatedIndex(b[1..], s[1..], rest);
    }
  }

  lemma IndexTerminated(b: seq<Byte>)
    requires IndexNul(b) >= 0
    ensures Terminated(b, b[..IndexNul(b)], b[IndexNul(b) + 1..])
  {
  }

  /** The scan rule behind both paths of Parse: the query is the second terminated string after
      the header, whether the statement name before it is empty or not. */
  ghost predicate SecondString(body: seq<Byte>, query: seq<Byte>) {
    exists name, middle, rest :: Terminated(body, name, middle) && Terminated(middle, query, rest)
  }

  lemma ParseScan(payload: seq<Byte>, query: seq<Byte>)
    requires |payload| >= 6 && payload[0] == CLIENT_PARSE
    ensures ParseQuery(payload) == Found(query) <==> SecondString(payload[5..], query)
    ensures ParseQuery(payload).NoQuery? <==> !exists q :: SecondString(payload[5..], q)
    ensures !ParseQuery(payload).Panic?
  {
    hide ParseQuery, SecondString, IndexNul;
    ParsePaths(payload);
    forall q ensures SecondString(payload[5..], q) <==> Scan(payload[5..]) == Found(q) {
      ScanSecond(payload[5..], q);
    }
    if ParseQuery(payload).Found? {
      assert SecondString(payload[5..], ParseQuery(payload).query);
    }
  }

  /** The string after the first terminator. */
  function Scan(body: seq<Byte>): (r: Parsed)
    ensures !r.Panic?
  {
    if IndexNul(body) == -1 then NoQuery else UpToNul(body[IndexNul(body) + 1..])
  }

  lemma ScanSecond(body: seq<Byte>, q: seq<Byte>)
    ensures SecondString(body, q) <==> Scan(body) == Found(q)
  {
    hide IndexNul, Scan, Terminated;
    if SecondString(body, q) {
      var name, middle, rest :| Terminated(body, name, middle) && Terminated(middle, q, rest);
      ScanFinds(body, name, middle, q, rest);
    }
    if Scan(body) == Found(q) {
      ScanSplits(body);
    }
  }

  lemma ScanFinds(body: seq<Byte>, name: seq<Byte>, middle: seq<Byte>, q: seq<Byte>, rest: seq<Byte>)
    requires Terminated(body, name, middle) && Terminated(middle, q, rest)
    ensures Scan(body) == Found(q)
  {
    hide IndexNul, Terminated;
    TerminatedIndex(body, name, middle);
    TerminatedIndex(middle, q, rest);
  }

  lemma ScanSplits(body: seq<Byte>)
    requires Scan(body).Found?
    ensures SecondString(body, Scan(body).query)
  {
    hide IndexNul, Terminated;
    var middle := body[IndexNul(body) + 1..];
    IndexTerminated(body);
    IndexTerminated(middle);
    assert Terminated(body, body[..IndexNul(body)], middle);
    assert Terminated(middle, middle[..IndexNul(middle)], middle[IndexNul(middle) + 1..]);
  }

  /** The unnamed fast path and the named path are the same scan. */
  lemma ParsePaths(payload: seq<Byte>)
    requires |payload| >= 6 && payload[0] == CLIENT_PARSE
    ensures ParseQuery(payload) == Scan(payload[5..])
  {
    if payload[5] == 0 {
      assert IndexNul(payload[5..]) == 0;
      assert payload[5..][1..] == payload[6..];
    }
  }

  /** A packet of the given type around a frame. */
  function Message(typ: Byte, frame: seq<Byte>): (p: Packet)
    requires 4 + |frame| < 0x1_0000_0000
    ensures HeaderLength(p) == 4 + |frame|
  {
    Words32(4 + |frame|);
    Packet(Some(typ), BE32(4 + |frame|), frame)
  }

  lemma MessageBytes(typ: Byte, frame: seq<Byte>)
    requires 4 + |frame| < 0x1_0000_0000
    ensures Encode(Message(typ, frame)) == [typ] + BE32(4 + |frame|) + frame
  {
    var all := BE32(4 + |frame|) + frame;
    assert all[..4 + |frame|] == all;
  }

  /** ParseQuery inverts the construction of a Parse message: any name, any parameter suffix. */
  lemma ParseMessage(name: seq<Byte>, query: seq<Byte>, params: seq<Byte>)
    requires 0 !in name && 0 !in query && |name| + |query| + |params| + 6 < 0x1_0000_0000
    ensures ParseQuery(Encode(Message(CLIENT_PARSE, name + [0] + query + [0] + params))) == Found(query)
  {
    var frame := name + [0] + query + [0] + params;
    MessageBytes(CLIENT_PARSE, frame);
    var payload := Encode(Message(CLIENT_PARSE, frame));
    assert payload[5..] == frame;
    var middle := query + [0] + params;
    assert frame == name + [0] + middle;
    assert Terminated(frame, name, middle) && Terminated(middle, query, params);
    ParseScan(payload, query);
  }

  /** ParseQuery inverts the construction of a simple Query, whatever bytes follow the message. */
  lemma SimpleQueryMessage(query: seq<Byte>, suffix: seq<Byte>)
    requires |query| + 5 < 0x1_0000_0000
    ensures ParseQuery(Encode(Message(CLIENT_SIMPLE_QUERY, query + [0])) + suffix) == Found(query)
  {
    var frame := query + [0];
    MessageBytes(CLIENT_SIMPLE_QUERY, frame);
    var payload := Encode(Message(CLIENT_SIMPLE_QUERY, frame)) + suffix;
    Words32(4 + |frame|);
    assert payload[1..5] == BE32(4 + |frame|);
    assert payload[5..4 + |frame|] == query;
  }

  /** What is parsed at all: the bytes 'Q' and 'P'; a simple query by its length, a Parse message only
      with a byte after its header. */
  lemma ParseExactly(payload: seq<Byte>)
    ensures payload == [] ==> ParseQuery(payload) == Panic
    ensures payload != [] && payload[0] != 0x51 && payload[0] != 0x50 ==> ParseQuery(payload) == NoQuery
    ensures payload != [] && payload[0] == 0x51 ==>
              ParseQuery(payload) == if |payload| >= 5 && 5 <= FromBE32(payload[1..5]) <= |payload|
                                     then Found(payload[5..FromBE32(payload[1..5])]) else Panic
    ensures payload != [] && payload[0] == 0x50 ==> (ParseQuery(payload) == Panic <==> |payload| < 6)
  {
    hide FromBE32, IndexNul;
  }

  // ---- Fatal errors ----------------------------------------------------------------------

  const LEVEL_FATAL: seq<Byte> := [70, 65, 84, 65, 76]
  const CONNECTION_FAILURE: seq<Byte> := [48, 56, 48, 48, 54]

  /** NewFatalError appends severity, code and message to the frame and then sets the length. */
  method NewFatalError(msg: seq<Byte>) returns (p: Packet)
    ensures p == Packet(Some(SERVER_ERROR_RESPONSE), BE32(ToU32(4 + |FatalFrame(msg)|)), FatalFrame(msg))
    ensures p.typ == Some(0x45)
  {
    var frame: seq<Byte> := ['S' as int];
    frame := frame + LEVEL_FATAL;
    frame := frame + [0];
    frame := frame + ['V' as int];
    frame := frame + LEVEL_FATAL;
    frame := frame + [0];
    frame := frame + ['C' as int];
    frame := frame + CONNECTION_FAILURE;
    frame := frame + [0];
    frame := frame + ['M' as int];
    frame := frame + msg;
    frame := frame + [0, 0];
    FatalBytes(msg);
    p := Packet(Some(SERVER_ERROR_RESPONSE), BE32(ToU32(|frame| + 4)), frame);
  }

  function FatalFields(msg: seq<Byte>): (f: seq<(Byte, seq<Byte>)>) {
    [('S' as int, LEVEL_FATAL), ('V' as int, LEVEL_FATAL), ('C' as int, CONNECTION_FAILURE), ('M' as int, msg)]
  }

  /** The fields of an ErrorResponse: a code and a terminated string each, then a zero byte. */
  function FieldBytes(f: seq<(Byte, seq<Byte>)>): (b: seq<Byte>) {
    if f == [] then [0] else [f[0].0] + f[0].1 + [0] + FieldBytes(f[1..])
  }

  lemma FatalBytes(msg: seq<Byte>)
    ensures FieldBytes(FatalFields(msg)) ==
            ['S' as int] + LEVEL_FATAL + [0] + ['V' as int] + LEVEL_FATAL + [0] + ['C' as int] + CONNECTION_FAILURE + [0]
            + ['M' as int] + msg + [0, 0]
  {
    var f := FatalFields(msg);
    assert FieldBytes(f[4..]) == [0];
    assert f[3..][1..] == f[4..] && f[2..][1..] == f[3..] && f[1..][1..] == f[2..];
    assert FieldBytes(f[3..]) == ['M' as int] + msg + [0] + [0];
    assert FieldBytes(f[2..]) == ['C' as int] + CONNECTION_FAILURE + [0] + FieldBytes(f[3..]);
    assert FieldBytes(f[1..]) == ['V' as int] + LEVEL_FATAL + [0] + FieldBytes(f[2..]);
  }

  function FatalFrame(msg: seq<Byte>): (b: seq<Byte>)
    ensures |b| == |msg| + 24
  {
    var f := FatalFields(msg);
    FatalBytes(msg);
    FieldBytes(f)
  }

  /** The frame byte by byte: S FATAL, V FATAL, C 08006, M and the message. */
  lemma FatalFrameBytes(msg: seq<Byte>)
    ensures FatalFrame(msg) == [0x53, 0x46, 0x41, 0x54, 0x41, 0x4C, 0, 0x56, 0x46, 0x41, 0x54, 0x41, 0x4C, 0,
                                0x43, 0x30, 0x38, 0x30, 0x30, 0x36, 0, 0x4D] + msg + [0, 0]
  {
    FatalBytes(msg);
    hide FatalFields, FieldBytes;
    var head := ['S' as int] + LEVEL_FATAL + [0] + ['V' as int] + LEVEL_FATAL + [0] + ['C' as int] + CONNECTION_FAILURE + [0] + ['M' as int];
    assert head == [0x53, 0x46, 0x41, 0x54, 0x41, 0x4C, 0, 0x56, 0x46, 0x41, 0x54, 0x41, 0x4C, 0,
                    0x43, 0x30, 0x38, 0x30, 0x30, 0x36, 0, 0x4D];
    assert FatalFrame(msg) == head + msg + [0, 0];
  }

  function ReadFields(b: seq<Byte>): (r: Option<seq<(Byte, seq<Byte>)>>)
    decreases |b|
  {
    if b == [] then None
    else if b[0] == 0 then Some([])
    else
      var idx := IndexNul(b[1..]);
      if idx == -1 then None
      else
        var others := ReadFields(b[1..][idx + 1..]);
        if others.Some? then Some([(b[0], b[1..][..idx])] + others.value) else None
  }

  lemma {:induction false} FieldsRead(f: seq<(Byte, seq<Byte>)>)
    requires forall i :: 0 <= i < |f| ==> f[i].0 != 0 && 0 !in f[i].1
    ensures ReadFields(FieldBytes(f)) == Some(f)
  {
    hide IndexNul;
    if f != [] {
      FieldsRead(f[1..]);
      var b := FieldBytes(f);
      assert b[1..] == f[0].1 + [0] + FieldBytes(f[1..]);
      TerminatedIndex(b[1..], f[0].1, FieldBytes(f[1..]));
      assert f == [f[0]] + f[1..];
    }
  }

  /** A fatal error with a NUL-free message travels whole: the packet is decoded from the stream
      as sent, and its fields read back severity, code and message. */
  lemma FatalErrorReadBack(msg: seq<Byte>, rest: seq<Byte>)
    requires 0 !in msg && |msg| + 24 <= DEFAULT_BUFFER_SIZE
    ensures var p := Message(SERVER_ERROR_RESPONSE, FatalFrame(msg));
            Decode(Encode(p) + rest) == Ok(p, rest) && ReadFields(p.frame) == Some(FatalFields(msg))
  {
    DecodeEncode(Message(SERVER_ERROR_RESPONSE, FatalFrame(msg)), rest);
    FieldsRead(FatalFields(msg));
  }
}
