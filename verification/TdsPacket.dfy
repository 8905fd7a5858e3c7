/**
  TDS packet framing (common/mssqltypes/packet.go; section 2.2.3.1 of MS-TDS): an 8-byte header
  [type, status, length (2, big endian), spid (2), id, window] followed by the frame.
 */
module TdsPacket {
  import opened Bytes

  type Header = h: seq<Byte> | |h| == 8 witness [0, 0, 0, 0, 0, 0, 0, 0]

  datatype Packet = Packet(header: Header, frame: seq<Byte>)

  datatype Error = ShortHeader | UnknownType | ShortFrame | NoPackets | SliceOutOfRange
  datatype Result<+T> = Ok(value: T) | Err(error: Error)

  const SQL_BATCH: Byte := 0x01
  const LOGIN7: Byte := 0x10

  predicate KnownType(t: Byte) {
    t in {0x01, 0x03, 0x04, 0x06, 0x07, 0x0a, 0x0e, 0x0f, 0x10, 0x11, 0x12}
  }

  /** NewHeader: the length field is a uint16 and wraps. */
  function NewHeader(typ: Byte, dataSize: nat): (h: Header)
    ensures h[0] == typ && FromBE16(h[2..]) == (dataSize + 8) % 0x1_0000
  {
    var len := ToU16(ToU16(dataSize) + 8);
    Words16(len);
    [typ, 0x01] + BE16(len) + [0x00, 0x00, 0x01, 0x00]
  }

  /** Every byte of the header: status 1, no session, packet 1, no window. */
  lemma HeaderBytes(typ: Byte, dataSize: nat)
    ensures var h, n := NewHeader(typ, dataSize), (dataSize + 8) % 0x1_0000;
            h == [typ, 1, n / 256, n % 256, 0, 0, 1, 0]
  {
  }

  function New(typ: Byte, data: seq<Byte>): (p: Packet) {
    Packet(NewHeader(typ, |data|), data)
  }

  function Length(p: Packet): (n: U16) {
    FromBE16(p.header[2..4])
  }

  /** Packet.Encode: as many bytes as the header says, cut or zero-filled. */
  function Encode(p: Packet): (b: seq<Byte>)
    ensures |b| == Length(p)
  {
    var all := p.header + p.frame;
    if Length(p) <= |all| then all[..Length(p)] else all + seq(Length(p) - |all|, _ => 0)
  }

  /** Byte by byte: the header, the frame, and zeros up to the announced length. */
  lemma EncodeExactly(p: Packet, i: nat)
    ensures |Encode(p)| == 256 * (p.header[2] as int) + (p.header[3] as int)
    ensures i < |Encode(p)| ==>
              Encode(p)[i] == if i < 8 then p.header[i] else if i - 8 < |p.frame| then p.frame[i - 8] else 0
  {
  }

  /** `p.Length() - 8` in uint16 arithmetic. */
  function FrameSize(header: Header): (n: U16) {
    ToU16(FromBE16(header[2..4]) + 0x1_0000 - 8)
  }

  /** Decode from a reader that holds `data`. */
  function Decode(data: seq<Byte>): (r: Result<Packet>) {
    if |data| < 8 then Err(ShortHeader)
    else if !KnownType(data[0]) then Err(UnknownType)
    else
      var header: Header := data[..8];
      if |data| - 8 < FrameSize(header) then Err(ShortFrame)
      else Ok(Packet(header, data[8..8 + FrameSize(header)]))
  }

  /** The successive chunks of at most `max` bytes. */
  function Chunks(p: seq<Byte>, max: nat): (cs: seq<seq<Byte>>)
    requires max > 0
  {
    if |p| <= max then (if p == [] then [] else [p]) else [p[..max]] + Chunks(p[max..], max)
  }

  /** The packets of the given chunks, or the first error. */
  function DecodeAll(cs: seq<seq<Byte>>): (r: Result<seq<Packet>>) {
    if cs == [] then Ok([])
    else
      var init := DecodeAll(cs[..|cs| - 1]);
      if init.Err? then init
      else
        var last := Decode(cs[|cs| - 1]);
        if last.Err? then Err(last.error) else Ok(init.value + [last.value])
  }

  function DecodeFullSpec(p: seq<Byte>, max: int): (r: Result<seq<Packet>>) {
    if p == [] then Err(NoPackets)
    else if max < 0 then Err(SliceOutOfRange)
    else if max == 0 then Err(ShortHeader)
    else DecodeAll(Chunks(p, max))
  }

  // ---- The loops of the source -----------------------------------------------------------

  /** Packet.Encode fills a buffer of the announced length. */
  method EncodeBuffer(p: Packet) returns (dst: array<Byte>)
    ensures fresh(dst) && dst[..] == Encode(p)
  {
    dst := new Byte[Length(p)](_ => 0);
    var all := p.header + p.frame;
    var i := 0;
    while i < dst.Length && i < |all|
      invariant 0 <= i <= dst.Length && i <= |all|
      invariant forall k :: 0 <= k < dst.Length ==> dst[k] == if k < i then all[k] else 0
    {
      dst[i] := all[i];
      i := i + 1;
    }
  }

  lemma ChunksStep(p: seq<Byte>, max: nat, done: seq<seq<Byte>>, whole: seq<seq<Byte>>)
    requires max > 0 && p != []
    requires whole == done + Chunks(p, max)
    ensures var n := if |p| < max then |p| else max;
            whole == done + [p[..n]] + Chunks(p[n..], max)
  {
    var n := if |p| < max then |p| else max;
    if |p| <= max {
      assert p[..n] == p && p[n..] == [];
    }
  }

  lemma {:induction false} DecodeAllFails(cs: seq<seq<Byte>>, n: nat)
    requires n <= |cs| && DecodeAll(cs[..n]).Err?
    ensures DecodeAll(cs) == DecodeAll(cs[..n])
    decreases |cs|
  {
    if n < |cs| {
      assert cs[..|cs| - 1][..n] == cs[..n];
      DecodeAllFails(cs[..|cs| - 1], n);
    } else {
      assert cs[..n] == cs;
    }
  }

  /** Nothing yields no chunk, and a header does not fit a piece of no bytes. */
  lemma ChunksEdges(p: seq<Byte>, max: int)
    ensures max > 0 ==> Chunks([], max) == [] && (p != [] ==> Chunks(p, max) != [])
    ensures Decode([]) == Err(ShortHeader)
  {
  }

  /** DecodeFull cuts the buffer every `maxPacketSize` bytes and decodes each piece. */
  method DecodeFull(buf: seq<Byte>, maxPacketSize: int) returns (r: Result<seq<Packet>>)
    ensures r == DecodeFullSpec(buf, maxPacketSize)
  {
    hide Decode, Chunks;
    ChunksEdges(buf, maxPacketSize);
    var packets: seq<Packet> := [];
    var p := buf;
    var psize := |p|;
    ghost var whole := if maxPacketSize > 0 then Chunks(buf, maxPacketSize) else [];
    ghost var done: seq<seq<Byte>> := [];
    while psize > 0
      invariant psize == |p|
      invariant maxPacketSize <= 0 ==> p == buf && packets == []
      invariant maxPacketSize > 0 ==> whole == done + Chunks(p, maxPacketSize) && DecodeAll(done) == Ok(packets)
      invariant |packets| == |done| && (p != buf ==> packets != [])
      decreases psize
    {
      var maxSize := if psize < maxPacketSize then psize else maxPacketSize;
      if maxSize < 0 {
        return Err(SliceOutOfRange);
      }
      var pkt := Decode(p[..maxSize]);
      if maxPacketSize > 0 {
        ChunksStep(p, maxPacketSize, done, whole);
        done := done + [p[..maxSize]];
        assert done[..|done| - 1] == done[..|packets|];
        assert done <= whole && whole[..|done|] == done;
      }
      if pkt.Err? {
        if maxPacketSize > 0 {
          DecodeAllFails(whole, |done|);
        }
        return Err(pkt.error);
      }
      packets := packets + [pkt.value];
      psize := psize - maxSize;
      p := p[maxSize..];
    }
    if |packets| == 0 {
      return Err(NoPackets);
    }
    assert done + Chunks(p, maxPacketSize) == done;
    return Ok(packets);
  }

  // ---- What decoding guarantees ----------------------------------------------------------

  predicate WellFormed(p: Packet) {
    KnownType(p.header[0]) && Length(p) == 8 + |p.frame|
  }

  function EncodeEach(ps: seq<Packet>): (bs: seq<seq<Byte>>)
    ensures |bs| == |ps| && forall i :: 0 <= i < |ps| ==> bs[i] == Encode(ps[i])
  {
    seq(|ps|, i requires 0 <= i < |ps| => Encode(ps[i]))
  }

  lemma DecodeEncode(p: Packet)
    requires WellFormed(p)
    ensures Decode(Encode(p)) == Ok(p)
  {
    var b := Encode(p);
    assert b == p.header + p.frame;
    assert b[..8] == p.header && b[8..] == p.frame;
  }

  /** Exactly what Decode accepts.  A header length below 8 wraps to a frame of nearly 64 KiB, so
      it is accepted only from a reader that holds at least 65536 bytes. */
  lemma DecodeAccepts(data: seq<Byte>)
    ensures Decode(data).Ok? <==>
              && |data| >= 8 && KnownType(data[0])
              && var len := FromBE16(data[2..]); if len >= 8 then len <= |data| else 0x1_0000 + len <= |data|
    ensures Decode(data).Ok? ==> WellFormed(Decode(data).value) || FromBE16(data[2..]) < 8
  {
    if |data| >= 8 {
      assert data[..8][2..4] == data[2..4];
      assert FromBE16(data[2..4]) == FromBE16(data[2..]);
    }
  }

  /** What Decode answers, case by case; the known types are 1, 3, 4, 6, 7, 10 and 14 to 18. */
  lemma DecodeExactly(data: seq<Byte>)
    ensures |data| < 8 ==> Decode(data) == Err(ShortHeader)
    ensures |data| >= 8 && data[0] !in {1, 3, 4, 6, 7, 10, 14, 15, 16, 17, 18} ==> Decode(data) == Err(UnknownType)
    ensures |data| >= 8 && data[0] in {1, 3, 4, 6, 7, 10, 14, 15, 16, 17, 18} ==>
              var len := 256 * (data[2] as int) + (data[3] as int);
              var end := if len >= 8 then len else 0x1_0000 + len;
              Decode(data) == if |data| < end then Err(ShortFrame) else Ok(Packet(data[..8], data[8..end]))
  {
    if |data| >= 8 {
      assert data[..8][2..4] == [data[2], data[3]];
    }
  }

  /** A new packet on the wire: its header and then its data, if they fit the length field. */
  lemma NewOnWire(typ: Byte, data: seq<Byte>)
    requires |data| + 8 < 0x1_0000
    ensures New(typ, data).frame == data
    ensures var n := |data| + 8; Encode(New(typ, data)) == [typ, 1, n / 256, n % 256, 0, 0, 1, 0] + data
  {
    HeaderBytes(typ, |data|);
    var p := New(typ, data);
    assert p.header[2..4] == [(|data| + 8) / 256, (|data| + 8) % 256];
    assert (p.header + p.frame)[..|data| + 8] == p.header + p.frame;
  }

  /** Nothing to decode, and packet sizes that cannot hold a header. */
  lemma DecodeFullEdges(p: seq<Byte>, max: int)
    ensures p == [] ==> DecodeFullSpec(p, max) == Err(NoPackets)
    ensures p != [] && max < 0 ==> DecodeFullSpec(p, max) == Err(SliceOutOfRange)
    ensures p != [] && max == 0 ==> DecodeFullSpec(p, max) == Err(ShortHeader)
  {
  }

  /** A failing input: a chunk of 65536 bytes that announces a length of 0 is accepted with a frame
      of 65528 bytes, and encodes to nothing. */
  lemma ZeroLengthAccepted()
    ensures var data := [SQL_BATCH, 0, 0, 0, 0, 0, 0, 0] + seq(0xFFF8, _ => 0 as Byte);
            Decode(data).Ok? && |Decode(data).value.frame| == 0xFFF8 && Encode(Decode(data).value) == []
  {
    var data := [SQL_BATCH, 0, 0, 0, 0, 0, 0, 0] + seq(0xFFF8, _ => 0 as Byte);
    assert data[..8] == [SQL_BATCH, 0, 0, 0, 0, 0, 0, 0];
    assert data[..8][2..4] == [0, 0];
  }

  /** Re-encoding what was decoded gives back the beginning of the data. */
  lemma EncodeDecode(data: seq<Byte>)
    requires Decode(data).Ok?
    ensures Encode(Decode(data).value) <= data
  {
    var p := Decode(data).value;
    var all := p.header + p.frame;
    assert all == data[..|all|];
    DecodeAccepts(data);
  }

  lemma {:induction false} DecodeAllEach(cs: seq<seq<Byte>>)
    requires DecodeAll(cs).Ok?
    ensures |DecodeAll(cs).value| == |cs|
    ensures forall i :: 0 <= i < |cs| ==> Decode(cs[i]) == Ok(DecodeAll(cs).value[i])
  {
    if cs != [] {
      DecodeAllEach(cs[..|cs| - 1]);
    }
  }

  lemma {:induction false} DecodeAllOk(cs: seq<seq<Byte>>, ps: seq<Packet>)
    requires |cs| == |ps| && forall i :: 0 <= i < |cs| ==> Decode(cs[i]) == Ok(ps[i])
    ensures DecodeAll(cs) == Ok(ps)
  {
    if cs != [] {
      DecodeAllOk(cs[..|cs| - 1], ps[..|ps| - 1]);
      assert ps == ps[..|ps| - 1] + [ps[|ps| - 1]];
    }
  }

  /** Where the chunks lie, and how many there are. */
  lemma {:induction false} ChunkAt(p: seq<Byte>, max: nat, i: nat)
    requires max > 0 && i < |Chunks(p, max)|
    ensures i * max < |p|
    ensures Chunks(p, max)[i] == p[i * max..if i * max + max < |p| then i * max + max else |p|]
    decreases i
  {
    if |p| > max && i > 0 {
      ChunkAt(p[max..], max, i - 1);
      var lo := (i - 1) * max;
      assert lo + max == i * max;
      ShiftedChunk(p, max, lo);
    }
  }

  /** A chunk of the rest is the chunk `max` further on. */
  lemma ShiftedChunk(p: seq<Byte>, max: nat, lo: nat)
    requires max < |p| && lo < |p| - max
    ensures var q, at := p[max..], lo + max;
            q[lo..if lo + max < |q| then lo + max else |q|] == p[at..if at + max < |p| then at + max else |p|]
  {
    var q := p[max..];
    var hi := if lo + max < |q| then lo + max else |q|;
    assert q[lo..hi] == p[lo + max..hi + max];
  }

  /** As many chunks as it takes: the length divided by `max`, rounded up. */
  lemma {:induction false} ChunkCount(p: seq<Byte>, max: nat)
    requires max > 0 && p != []
    ensures var n := |Chunks(p, max)|; n > 0 && (n - 1) * max < |p| <= n * max
  {
    if |p| > max {
      ChunkCount(p[max..], max);
      var n := |Chunks(p, max)|;
      assert (n - 1) * max == (n - 2) * max + max;
      assert n * max == (n - 1) * max + max;
    }
  }

  /** Any success has one packet per chunk, and each re-encodes to a beginning of its chunk. */
  lemma DecodeFullSuccess(p: seq<Byte>, max: int)
    requires DecodeFullSpec(p, max).Ok?
    ensures max > 0
    ensures var n := |DecodeFullSpec(p, max).value|; n > 0 && (n - 1) * max < |p| <= n * max
    ensures forall i :: 0 <= i < |DecodeFullSpec(p, max).value| ==>
              i * max < |p| &&
              Encode(DecodeFullSpec(p, max).value[i]) <= p[i * max..if i * max + max < |p| then i * max + max else |p|]
  {
    hide Chunks, DecodeAll, Decode, Encode;
    var cs := Chunks(p, max);
    ChunkCount(p, max);
    DecodeAllEach(cs);
    forall i | 0 <= i < |cs|
      ensures i * max < |p| && Encode(DecodeAll(cs).value[i]) <= p[i * max..if i * max + max < |p| then i * max + max else |p|]
    {
      ChunkAt(p, max, i);
      EncodeDecode(cs[i]);
    }
  }

  /** With a packet size that fits a uint16, a header length below 8 is always rejected. */
  lemma ShortLengthRejected(p: seq<Byte>, max: int, i: nat)
    requires 8 <= max <= 65535 && i * max + 8 <= |p|
    requires FromBE16(p[i * max + 2..]) < 8
    ensures DecodeFullSpec(p, max).Err?
  {
    hide Chunks, DecodeAll, Decode, FromBE16;
    var cs := Chunks(p, max);
    ChunkReach(p, max, i);
    ChunkAt(p, max, i);
    var at := i * max;
    ShortChunk(p, at, if at + max < |p| then at + max else |p|);
    if DecodeAll(cs).Ok? {
      DecodeAllEach(cs);
    }
  }

  lemma ShortChunk(p: seq<Byte>, at: nat, end: nat)
    requires at + 8 <= end <= |p| && end - at <= 65535 && FromBE16(p[at + 2..]) < 8
    ensures Decode(p[at..end]).Err?
  {
    var chunk := p[at..end];
    assert chunk[2] == p[at + 2] && chunk[3] == p[at + 3];
    assert FromBE16(chunk[2..]) == FromBE16(p[at + 2..]);
    DecodeAccepts(chunk);
  }

  lemma {:induction false} ChunkReach(p: seq<Byte>, max: nat, i: nat)
    requires max > 0 && i * max < |p|
    ensures i < |Chunks(p, max)|
    decreases i
  {
    if i > 0 {
      assert (i - 1) * max + max == i * max;
      ChunkReach(p[max..], max, i - 1);
    }
  }

  lemma {:induction false} ChunksOfFull(bs: seq<seq<Byte>>, max: nat)
    requires max > 0 && bs != []
    requires forall i :: 0 <= i < |bs| - 1 ==> |bs[i]| == max
    requires 0 < |bs[|bs| - 1]| <= max
    ensures Chunks(Concat(bs), max) == bs
  {
    var rest := Concat(bs[1..]);
    if |bs| == 1 {
      assert Concat(bs) == bs[0] && bs == [bs[0]];
    } else {
      ChunksOfFull(bs[1..], max);
      assert rest != [];
      assert Concat(bs)[..max] == bs[0] && Concat(bs)[max..] == rest;
    }
  }

  /** A stream of well-formed packets, all of the full size except a last one of at most that
      size, decodes to exactly those packets. */
  lemma DecodeFullRoundTrip(ps: seq<Packet>, max: int)
    requires 8 <= max <= 65535 && ps != []
    requires forall i :: 0 <= i < |ps| ==> WellFormed(ps[i]) && Length(ps[i]) <= max
    requires forall i :: 0 <= i < |ps| - 1 ==> Length(ps[i]) == max
    ensures DecodeFullSpec(Concat(EncodeEach(ps)), max) == Ok(ps)
  {
    var bs := EncodeEach(ps);
    ChunksOfFull(bs, max);
    forall i | 0 <= i < |ps| ensures Decode(bs[i]) == Ok(ps[i]) {
      DecodeEncode(ps[i]);
    }
    DecodeAllOk(bs, ps);
  }
}
