/**
  Query text from SQLBatch packets (common/mssqltypes/sqlbatch.go; sections 2.2.6.7 and 2.2.5.3
  of MS-TDS).  The stream headers, ALL_HEADERS, are only in the first packet of a request, which
  the decoder recognises by its packet number; that number is one byte and comes back to 1 in a
  long request.
 */
module SqlBatch {
  import opened Selection
  import opened Bytes
  import opened Utf16
  import TdsPacket

  datatype Outcome = Query(text: Text) | TooShort | NotBatch | Panic

  function TextOrPanic(b: seq<Byte>): (r: Outcome) {
    match FromUcs2(b)
    case Some(t) => Query(t)
    case None => Panic
  }

  /** DecodeSQLBatchToRawQuery, where an int has 64 bits. */
  function DecodeBatch(data: seq<Byte>): (r: Outcome) {
    if |data| < 12 then TooShort
    else if data[0] != TdsPacket.SQL_BATCH then NotBatch
    else
      var body := data[8..];
      if data[6] != 1 then TextOrPanic(body)
      else
        var batchHeaderLength := FromLE32(body[..4]);
        if batchHeaderLength > |body| - 4 then TextOrPanic(body)
        else TextOrPanic(body[batchHeaderLength..])
  }

  /** A batch packet with number `no` that carries `body`. */
  predicate IsBatch(p: seq<Byte>, no: Byte, body: seq<Byte>) {
    && 8 <= |p| <= 65535 && p[0] == TdsPacket.SQL_BATCH && p[6] == no
    && p[8..] == body
  }

  /** Well-formed stream headers begin with their own total length. */
  predicate AllHeaders(h: seq<Byte>) {
    |h| >= 4 && FromLE32(h) == |h|
  }

  predicate NulFree(t: Text) {
    forall i :: 0 <= i < |t| ==> t[i] != 0
  }

  /** What is no batch: fewer than twelve bytes, or another type than 1. */
  lemma NoBatch(data: seq<Byte>)
    ensures DecodeBatch(data) == TooShort <==> |data| < 12
    ensures DecodeBatch(data) == NotBatch <==> |data| >= 12 && data[0] != 1
  {
  }

  lemma {:induction false} NulFreeUnits(t: Text)
    requires NulFree(t)
    ensures forall i :: 0 <= i < |Encode(t)| ==> Encode(t)[i] != 0
  {
    if t != [] {
      NulFreeUnits(t[1..]);
    }
  }

  /** Four bytes of query text never read as a plausible header length. */
  lemma TextIsNoLength(t: Text)
    requires NulFree(t) && |Encode(t)| >= 2
    ensures |ToUcs2(t)| >= 4 && FromLE32(ToUcs2(t)) >= 0x1_0000
  {
    NulFreeUnits(t);
    var u := Encode(t);
    assert u[1] != 0;
    assert ToUcs2(t)[2] == u[1] % 256 && ToUcs2(t)[3] == u[1] / 256;
  }

  /** Decoding yields at least one character for two units. */
  lemma {:induction false} DecodeAtLeast(u: seq<U16>)
    ensures 2 * |Decode(u)| >= |u|
  {
    if u != [] {
      DecodeAtLeast(if HighSurrogate(u[0]) && |u| > 1 && LowSurrogate(u[1]) then u[2..] else u[1..]);
    }
  }

  /** The first packet yields exactly its part of the query if and only if that part has two
      UTF-16 units or more; with fewer, the stream headers come out as text. */
  lemma FirstPacket(p: seq<Byte>, headers: seq<Byte>, piece: Text)
    requires AllHeaders(headers) && IsBatch(p, 1, headers + ToUcs2(piece))
    ensures DecodeBatch(p) == Query(piece) <==> |Encode(piece)| >= 2
  {
    var text := ToUcs2(piece);
    var body := p[8..];
    assert FromLE32(body[..4]) == |headers| by { assert body[..4] == headers[..4]; }
    if |Encode(piece)| >= 2 {
      assert body[|headers|..] == text;
      Ucs2RoundTrip(piece);
    } else {
      assert DecodeBatch(p) == TextOrPanic(body);
      EncodeLength(piece);
      if |body| % 2 == 0 {
        DecodeAtLeast(ByteUnits(body));
      }
    }
  }

  /** Every later packet, whatever its number, yields exactly its part if and only if that part
      has two units or more; with fewer it is refused as too short. */
  lemma LaterPacket(p: seq<Byte>, no: Byte, piece: Text)
    requires NulFree(piece) && IsBatch(p, no, ToUcs2(piece))
    ensures DecodeBatch(p) == Query(piece) <==> |Encode(piece)| >= 2
  {
    var text := ToUcs2(piece);
    if |Encode(piece)| >= 2 {
      TextIsNoLength(piece);
      assert FromLE32(text[..4]) == FromLE32(text);
      Ucs2RoundTrip(piece);
    }
  }

  /** `packets` carry a query cut into `pieces` at character boundaries, with the headers in the
      first packet only.  Nothing is said of the numbers of the later packets. */
  predicate Carries(packets: seq<seq<Byte>>, headers: seq<Byte>, pieces: seq<Text>) {
    && |packets| == |pieces| && AllHeaders(headers)
    && (forall i :: 0 <= i < |packets| ==> |packets[i]| > 6 && NulFree(pieces[i]))
    && forall i :: 0 <= i < |packets| ==>
         IsBatch(packets[i], if i == 0 then 1 else packets[i][6], (if i == 0 then headers else []) + ToUcs2(pieces[i]))
  }

  /** Packet for packet, the decoded text is the piece exactly when the piece has two units. */
  lemma PacketText(packets: seq<seq<Byte>>, headers: seq<Byte>, pieces: seq<Text>, i: nat)
    requires Carries(packets, headers, pieces) && i < |packets|
    ensures DecodeBatch(packets[i]) == Query(pieces[i]) <==> |Encode(pieces[i])| >= 2
  {
    if i == 0 {
      FirstPacket(packets[0], headers, pieces[0]);
    } else {
      assert [] + ToUcs2(pieces[i]) == ToUcs2(pieces[i]);
      LaterPacket(packets[i], packets[i][6], pieces[i]);
    }
  }

  /** The decoded texts one after the other; None as soon as a packet is refused. */
  function Reassembled(packets: seq<seq<Byte>>): (r: Option<Text>) {
    if packets == [] then Some([])
    else
      var head, tail := DecodeBatch(packets[0]), Reassembled(packets[1..]);
      if head.Query? && tail.Some? then Some(head.text + tail.value) else None
  }

  lemma {:induction false} ReassembledPieces(packets: seq<seq<Byte>>, pieces: seq<Text>)
    requires |packets| == |pieces|
    requires forall i :: 0 <= i < |packets| ==> DecodeBatch(packets[i]) == Query(pieces[i])
    ensures Reassembled(packets) == Some(Concat(pieces))
  {
    if packets != [] {
      ReassembledPieces(packets[1..], pieces[1..]);
    }
  }

  lemma {:induction false} ReassembledNeedsAll(packets: seq<seq<Byte>>, i: nat)
    requires Reassembled(packets).Some? && i < |packets|
    ensures DecodeBatch(packets[i]).Query?
  {
    if i > 0 {
      ReassembledNeedsAll(packets[1..], i - 1);
    }
  }

  predicate TwoUnits(t: Text) { |Encode(t)| >= 2 }

  /** Reassembly gives the query, even when the packet number comes back to 1, if and only if
      every packet holds two UTF-16 units or more of it. */
  lemma Reassembly(packets: seq<seq<Byte>>, headers: seq<Byte>, pieces: seq<Text>)
    requires Carries(packets, headers, pieces)
    ensures Reassembled(packets) == Some(Concat(pieces)) <==> forall i :: 0 <= i < |pieces| ==> TwoUnits(pieces[i])
  {
    forall i | 0 <= i < |packets| ensures DecodeBatch(packets[i]) == Query(pieces[i]) <==> TwoUnits(pieces[i]) {
      PacketText(packets, headers, pieces, i);
    }
    if forall i :: 0 <= i < |pieces| ==> TwoUnits(pieces[i]) {
      ReassembledPieces(packets, pieces);
    }
    if Reassembled(packets) == Some(Concat(pieces)) && packets != [] {
      forall i | 0 < i < |packets| ensures DecodeBatch(packets[i]) == Query(pieces[i]) {
        ReassembledNeedsAll(packets, i);
        LaterRefused(packets, headers, pieces, i);
      }
      ReassembledPieces(packets[1..], pieces[1..]);
      var first := DecodeBatch(packets[0]).text;
      var rest := Concat(pieces[1..]);
      assert first + rest == pieces[0] + rest;
      assert first == (first + rest)[..|first|];
    }
  }

  /** A failing input: the query "ABC" cut after "AB".  The second packet holds one unit and is
      refused as too short. */
  lemma OneUnitPacketRefused()
    ensures var headers := [4, 0, 0, 0];
            var packets := [[1, 0, 0, 16, 0, 0, 1, 0] + headers + [65, 0, 66, 0], [1, 1, 0, 10, 0, 0, 2, 0, 67, 0]];
            Carries(packets, headers, [[65, 66], [67]]) && Reassembled(packets) == None
  {
    var headers := [4, 0, 0, 0];
    var packets := [[1, 0, 0, 16, 0, 0, 1, 0] + headers + [65, 0, 66, 0], [1, 1, 0, 10, 0, 0, 2, 0, 67, 0]];
    var pieces: seq<Text> := [[65, 66], [67]];
    assert Encode([67]) == [67] && Encode([65, 66]) == [65] + Encode([66]) && Encode([66]) == [66];
    assert ToUcs2([67]) == [67, 0] && ToUcs2([65, 66]) == [65, 0, 66, 0];
    assert packets[0][8..] == headers + ToUcs2(pieces[0]);
    assert packets[1][8..] == [] + ToUcs2(pieces[1]);
    assert Reassembled(packets[1..]) == None;
  }

  /** A packet after the first is refused or yields its piece. */
  lemma LaterRefused(packets: seq<seq<Byte>>, headers: seq<Byte>, pieces: seq<Text>, i: nat)
    requires Carries(packets, headers, pieces) && 0 < i < |packets|
    ensures DecodeBatch(packets[i]) == if TwoUnits(pieces[i]) then Query(pieces[i]) else TooShort
  {
    assert [] + ToUcs2(pieces[i]) == ToUcs2(pieces[i]);
    LaterPacket(packets[i], packets[i][6], pieces[i]);
  }
}
