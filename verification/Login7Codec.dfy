/**
  The LOGIN7 codec (common/mssqltypes/login.go; section 2.2.6.4 of MS-TDS): a 94-byte header
  with a table of uint16 offsets and lengths, the variable fields in UTF-16, a mangled password
  and a trailing feature extension block.
 */
module Login7Codec {
  import opened Selection
  import opened Bytes
  import opened Bits
  import opened Utf16
  import TdsPacket

  type ClientId = s: seq<Byte> | |s| == 6 witness [0, 0, 0, 0, 0, 0]

  /** An entry of the offset table. */
  datatype Slot = Slot(offset: U16, length: U16)

  type Slots = s: seq<Slot> | |s| == 12 witness seq(12, _ => Slot(0, 0))

  // Positions in the offset table, in wire order.
  const HOST := 0
  const USER := 1
  const PASSWORD := 2
  const APP := 3
  const SERVER := 4
  const EXTENSION := 5
  const CTL_INT := 6
  const LANGUAGE := 7
  const DATABASE := 8
  const SSPI := 9
  const ATCH_DB := 10
  const CHANGE_PASSWORD := 11

  datatype Scalars = Scalars(
    tdsVersion: U32, packetSize: U32, clientProgVer: U32, clientPID: U32, connectionID: U32,
    optionFlags1: Byte, optionFlags2: Byte, typeFlags: Byte, optionFlags3: Byte, clientLCID: U32)

  /** loginHeader; the time zone is an int32, kept as its 32 bits. */
  datatype Header = Header(length: U32, scalars: Scalars, timeZone: U32, slots: Slots, clientID: ClientId, sspiLong: U32)

  datatype Login = Login(
    hostName: Text, userName: Text, password: Text, appName: Text, serverName: Text,
    ctlIntName: Text, language: Text, database: Text, clientID: ClientId, sspi: seq<Byte>,
    atchDBFile: Text, changePassword: Text, featureExt: seq<Byte>, header: Header)

  const CHANGE_PASSWORD_FLAG: Byte := 1
  const EXTENSION_FLAG: Byte := 16

  /** DisablePasswordChange, as a function of the login. */
  function PasswordChangeDisabled(l: Login): (r: Login)
    ensures r == l.(header := r.header) && r.header == l.header.(scalars := r.header.scalars)
    ensures r.header.scalars == l.header.scalars.(optionFlags3 := r.header.scalars.optionFlags3)
    ensures forall k :: 0 <= k < 8 ==>
              Bit(r.header.scalars.optionFlags3, k) == (Bit(l.header.scalars.optionFlags3, k) && k != 0)
  {
    var f := l.header.scalars.optionFlags3;
    FlagBits();
    ZeroBits(ByteOp(And, f, CHANGE_PASSWORD_FLAG));
    if ByteOp(And, f, CHANGE_PASSWORD_FLAG) > 0
    then l.(header := l.header.(scalars := l.header.scalars.(optionFlags3 := ByteOp(AndNot, f, CHANGE_PASSWORD_FLAG))))
    else
      assert !Bit(f, 0);
      l
  }

  lemma FlagBits()
    ensures forall k :: 0 <= k < 8 ==> Bit(CHANGE_PASSWORD_FLAG, k) == (k == 0)
    ensures forall k :: 0 <= k < 8 ==> Bit(EXTENSION_FLAG, k) == (k == 4)
  {
    forall k: nat | k < 8 ensures Bit(CHANGE_PASSWORD_FLAG, k) == (k == 0) && Bit(EXTENSION_FLAG, k) == (k == 4) {
      if k > 0 { ZeroHasNoBits(k - 1); }
      if k > 4 { ZeroHasNoBits(k - 5); }
      assert Bit(16, k) == if k == 0 then false else Bit(8, k - 1);
      assert k >= 1 ==> Bit(8, k - 1) == if k == 1 then false else Bit(4, k - 2);
      assert k >= 2 ==> Bit(4, k - 2) == if k == 2 then false else Bit(2, k - 3);
      assert k >= 3 ==> Bit(2, k - 3) == if k == 3 then false else Bit(1, k - 4);
    }
  }

  lemma {:induction false} ZeroHasNoBits(k: nat)
    ensures !Bit(0, k)
  {
    if k > 0 { ZeroHasNoBits(k - 1); }
  }

  lemma ZeroBits(x: Byte)
    ensures x == 0 ==> forall k :: 0 <= k < 8 ==> !Bit(x, k)
  {
    forall k: nat | k < 8 ensures !Bit(0, k) { ZeroHasNoBits(k); }
  }

  // ---- Encoding --------------------------------------------------------------------------

  /** manglePassword on the UTF-16 bytes: nibbles swapped, then exclusive or with 0xA5. */
  function MangleByte(ch: Byte): (r: Byte) {
    ByteOp(Xor, Swap(ch), 0xA5)
  }

  /** What a server does to the password region. */
  function UnmangleByte(ch: Byte): (r: Byte) {
    Swap(ByteOp(Xor, ch, 0xA5))
  }

  function Mangle(b: seq<Byte>): (r: seq<Byte>)
    ensures |r| == |b|
  {
    seq(|b|, i requires 0 <= i < |b| => MangleByte(b[i]))
  }

  function Unmangle(b: seq<Byte>): (r: seq<Byte>)
    ensures |r| == |b|
  {
    seq(|b|, i requires 0 <= i < |b| => UnmangleByte(b[i]))
  }

  /** The eleven variable fields in the order they are written. */
  function Fields(l: Login): (f: seq<seq<Byte>>)
    ensures |f| == 11
  {
    [ToUcs2(l.hostName), ToUcs2(l.userName), Mangle(ToUcs2(l.password)), ToUcs2(l.appName),
     ToUcs2(l.serverName), ToUcs2(l.ctlIntName), ToUcs2(l.language), ToUcs2(l.database), l.sspi,
     ToUcs2(l.atchDBFile), ToUcs2(l.changePassword)]
  }

  /** The length field of each: runes, not UTF-16 units. */
  function Lengths(l: Login): (n: seq<U16>)
    ensures |n| == 11
  {
    [ToU16(|l.hostName|), ToU16(|l.userName|), ToU16(|l.password|), ToU16(|l.appName|),
     ToU16(|l.serverName|), ToU16(|l.ctlIntName|), ToU16(|l.language|), ToU16(|l.database|),
     ToU16(|l.sspi|), ToU16(|l.atchDBFile|), ToU16(|l.changePassword|)]
  }

  const HEADER_SIZE := 94

  /** `offset += uint16(len(part))` */
  function Advance(offset: U16, size: nat): (r: U16) {
    ToU16(offset + ToU16(size))
  }

  /** The running offset before field `i`. */
  function OffsetOf(f: seq<seq<Byte>>, i: nat): (r: U16)
    requires i <= |f|
  {
    if i == 0 then HEADER_SIZE else Advance(OffsetOf(f, i - 1), |f[i - 1]|)
  }

  /** The slot of field `i`, and back; the extension pointer has slot 5 and no field. */
  function SlotOfField(i: nat): (j: nat) { if i < EXTENSION then i else i + 1 }

  function SlotTable(l: Login): (s: Slots) {
    var f, n := Fields(l), Lengths(l);
    seq(12, j requires 0 <= j < 12 =>
      if j < EXTENSION then Slot(OffsetOf(f, j), n[j])
      else if j > EXTENSION then Slot(OffsetOf(f, j - 1), n[j - 1])
      else if l.featureExt != [] then Slot(OffsetOf(f, 11), 4)
      else Slot(0, 0))
  }

  /** The running offset after everything but the feature block. */
  function EndOffset(l: Login): (r: U16) {
    var off := OffsetOf(Fields(l), 11);
    if l.featureExt != [] then Advance(off, 4) else off
  }

  function HeaderOf(l: Login): (h: Header) {
    var flags := l.header.scalars.optionFlags3;
    Header(ToU32(EndOffset(l) + ToU32(|l.featureExt|)),
           l.header.scalars.(optionFlags3 := if l.featureExt != [] then ByteOp(Or, flags, EXTENSION_FLAG) else flags),
           l.header.timeZone, SlotTable(l), l.clientID, 0)
  }

  function SlotBytes(s: Slot): (b: seq<Byte>)
    ensures |b| == 4
  {
    LE16(s.offset) + LE16(s.length)
  }

  const CELLS := 23

  /** Where cell `i` of the header begins: every cell has four bytes, the client id (18) six. */
  function CellPos(i: nat): (p: nat) { if i <= 18 then 4 * i else 4 * i + 2 }

  /** The header as binary.Write lays it out. */
  function Cells(h: Header): (c: seq<seq<Byte>>)
    ensures |c| == CELLS && forall i :: 0 <= i < CELLS ==> |c[i]| == CellPos(i + 1) - CellPos(i)
  {
    var s := h.scalars;
    [LE32(h.length), LE32(s.tdsVersion), LE32(s.packetSize), LE32(s.clientProgVer), LE32(s.clientPID),
     LE32(s.connectionID), [s.optionFlags1, s.optionFlags2, s.typeFlags, s.optionFlags3],
     LE32(h.timeZone), LE32(s.clientLCID),
     SlotBytes(h.slots[0]), SlotBytes(h.slots[1]), SlotBytes(h.slots[2]), SlotBytes(h.slots[3]),
     SlotBytes(h.slots[4]), SlotBytes(h.slots[5]), SlotBytes(h.slots[6]), SlotBytes(h.slots[7]),
     SlotBytes(h.slots[8]), h.clientID, SlotBytes(h.slots[9]), SlotBytes(h.slots[10]),
     SlotBytes(h.slots[11]), LE32(h.sspiLong)]
  }

  /** The feature block: a 32-bit pointer to the bytes that follow it. */
  function FeatureBlock(l: Login): (b: seq<Byte>) {
    if l.featureExt != [] then LE32(EndOffset(l)) + l.featureExt else []
  }

  function LoginBytes(l: Login): (b: seq<Byte>) {
    Concat(Cells(HeaderOf(l))) + Concat(Fields(l)) + FeatureBlock(l)
  }

  /** EncodeLogin, as a function of the login. */
  function Encode(l: Login): (p: TdsPacket.Packet) {
    TdsPacket.New(TdsPacket.LOGIN7, LoginBytes(l))
  }

  // ---- Decoding --------------------------------------------------------------------------

  function ReadSlot(b: seq<Byte>): (s: Slot)
    requires |b| >= 4
  {
    Slot(FromLE16(b), FromLE16(b[2..]))
  }

  function Cell(data: seq<Byte>, i: nat): (b: seq<Byte>)
    requires i < CELLS && |data| >= HEADER_SIZE
    ensures |b| == CellPos(i + 1) - CellPos(i)
  {
    data[CellPos(i)..CellPos(i + 1)]
  }

  function ReadSlots(data: seq<Byte>): (s: seq<Slot>)
    requires |data| >= HEADER_SIZE
    ensures |s| == 12
  {
    seq(12, j requires 0 <= j < 12 => ReadSlot(Cell(data, if j < 9 then j + 9 else j + 10)))
  }

  /** The time zone is skipped. */
  function ReadHeader(data: seq<Byte>): (h: Header)
    requires |data| >= HEADER_SIZE
  {
    var flags := Cell(data, 6);
    Header(
      FromLE32(Cell(data, 0)),
      Scalars(FromLE32(Cell(data, 1)), FromLE32(Cell(data, 2)), FromLE32(Cell(data, 3)), FromLE32(Cell(data, 4)),
              FromLE32(Cell(data, 5)), flags[0], flags[1], flags[2], flags[3], FromLE32(Cell(data, 8))),
      0,
      ReadSlots(data),
      Cell(data, 18), FromLE32(Cell(data, 22)))
  }

  /** getOption; None where the source slices out of range. */
  function GetOption(v: seq<Byte>, s: Slot): (r: Option<Text>) {
    if s.offset == 0 || s.length == 0 then Some([])
    else
      var end := ToU16(s.offset + ToU16(2 * s.length));
      if s.offset <= end <= |v| then FromUcs2(v[s.offset..end]) else None
  }

  /** The feature extension: everything from where the pointer points. */
  function FeatureExt(data: seq<Byte>, s: Slot): (r: Option<seq<Byte>>) {
    if s.offset == 0 then Some([])
    else
      var end := ToU16(s.offset + s.length);
      if s.offset <= end <= |data| && end - s.offset >= 4 then
        var p := FromLE32(data[s.offset..end]);
        if p <= |data| then Some(data[p..]) else None
      else None
  }

  predicate TextSlot(j: int) { 0 <= j < 12 && j != EXTENSION && j != SSPI }

  /** DecodeLogin; None where the source panics.  The password stays mangled, and neither SSPI
      nor the client id of the login itself is filled in. */
  function Decode(data: seq<Byte>): (r: Option<Login>) {
    if |data| < HEADER_SIZE then None
    else
      var h := ReadHeader(data);
      var t := seq(12, j requires 0 <= j < 12 => if TextSlot(j) then GetOption(data, h.slots[j]) else Some([]));
      var ext := FeatureExt(data, h.slots[EXTENSION]);
      if ext.None? || exists j :: 0 <= j < 12 && t[j].None? then None
      else
        Some(Login(t[HOST].value, t[USER].value, t[PASSWORD].value, t[APP].value, t[SERVER].value,
                   t[CTL_INT].value, t[LANGUAGE].value, t[DATABASE].value, [0, 0, 0, 0, 0, 0], [],
                   t[ATCH_DB].value, t[CHANGE_PASSWORD].value, ext.value, h))
  }

  /** The text field of a login that slot `j` describes. */
  function TextOf(l: Login, j: int): (t: Text)
    requires TextSlot(j)
  {
    match j
    case 0 => l.hostName
    case 1 => l.userName
    case 2 => l.password
    case 3 => l.appName
    case 4 => l.serverName
    case 6 => l.ctlIntName
    case 7 => l.language
    case 8 => l.database
    case 10 => l.atchDBFile
    case _ => l.changePassword
  }

  /** When a text slot reads at all: an absent one reads as empty; any other must not wrap backwards
      nor reach beyond the data, and is then the text of its bytes. */
  lemma OptionExactly(v: seq<Byte>, s: Slot)
    ensures s.offset == 0 || s.length == 0 ==> GetOption(v, s) == Some([])
    ensures s.offset != 0 && s.length != 0 ==>
              var end := (s.offset + 2 * s.length % 0x1_0000) % 0x1_0000;
              GetOption(v, s) == if end < s.offset || end > |v| then None else FromUcs2(v[s.offset..end])
  {
  }

  /** The feature extension: absent without a pointer, else everything from where the four bytes at the
      pointer's place point, if both are there. */
  lemma FeatureExactly(data: seq<Byte>, s: Slot)
    ensures s.offset == 0 ==> FeatureExt(data, s) == Some([])
    ensures s.offset != 0 ==>
              var end := (s.offset as int + s.length as int) % 0x1_0000;
              if end < s.offset + 4 || end > |data| || FromLE32(data[s.offset..end]) > |data| then FeatureExt(data, s) == None
              else FeatureExt(data, s) == Some(data[FromLE32(data[s.offset..end])..])
  {
    hide FromLE32;
  }

  /** A login is decoded unless it is shorter than its header or some slot does not read. */
  lemma DecodesExactly(data: seq<Byte>)
    ensures Decode(data).Some? <==>
            && |data| >= 94
            && (forall j :: TextSlot(j) ==> GetOption(data, ReadHeader(data).slots[j]).Some?)
            && FeatureExt(data, ReadHeader(data).slots[5]).Some?
    ensures Decode(data).Some? ==> Decode(data).value.sspi == [] && Decode(data).value.clientID == [0, 0, 0, 0, 0, 0]
  {
    hide GetOption, FeatureExt, ReadHeader;
  }

  // ---- The header ------------------------------------------------------------------------

  lemma {:induction false} CellStart(h: Header, i: nat)
    requires i <= CELLS
    ensures StartOf(Cells(h), i) == CellPos(i)
  {
    hide Cells;
    if i > 0 { CellStart(h, i - 1); }
  }

  lemma HeaderSize(h: Header)
    ensures |Concat(Cells(h))| == HEADER_SIZE
  {
    hide Cells;
    CellStart(h, CELLS);
    ConcatLength(Cells(h));
  }

  lemma CellRead(h: Header, rest: seq<Byte>, i: nat)
    requires i < CELLS && |Concat(Cells(h)) + rest| >= HEADER_SIZE
    ensures Cell(Concat(Cells(h)) + rest, i) == Cells(h)[i]
  {
    hide Cells;
    HeaderSize(h);
    CellStart(h, i);
    PartAt(Cells(h), i);
    var head := Concat(Cells(h));
    assert (head + rest)[CellPos(i)..CellPos(i + 1)] == head[CellPos(i)..CellPos(i + 1)];
  }

  lemma SlotRead(s: Slot)
    ensures ReadSlot(SlotBytes(s)) == s
  {
    Words16(s.offset);
    Words16(s.length);
    assert SlotBytes(s)[2..] == LE16(s.length);
  }

  lemma SlotCellRead(h: Header, rest: seq<Byte>, j: nat)
    requires j < 12 && |Concat(Cells(h)) + rest| >= HEADER_SIZE
    ensures ReadSlot(Cell(Concat(Cells(h)) + rest, if j < 9 then j + 9 else j + 10)) == h.slots[j]
  {
    var i := if j < 9 then j + 9 else j + 10;
    CellRead(h, rest, i);
    assert Cells(h)[i] == SlotBytes(h.slots[j]);
    SlotRead(h.slots[j]);
  }

  lemma WordCellRead(h: Header, rest: seq<Byte>, i: nat, w: U32)
    requires i < CELLS && |Concat(Cells(h)) + rest| >= HEADER_SIZE && Cells(h)[i] == LE32(w)
    ensures FromLE32(Cell(Concat(Cells(h)) + rest, i)) == w
  {
    CellRead(h, rest, i);
    Words32(w);
  }

  lemma ScalarsRead(h: Header, rest: seq<Byte>)
    requires |Concat(Cells(h)) + rest| >= HEADER_SIZE
    ensures ReadHeader(Concat(Cells(h)) + rest).scalars == h.scalars
  {
    hide Cell, FromLE32, LE32, ReadSlot, SlotBytes, Concat;
    var s := h.scalars;
    WordCellRead(h, rest, 1, s.tdsVersion);
    WordCellRead(h, rest, 2, s.packetSize);
    WordCellRead(h, rest, 3, s.clientProgVer);
    WordCellRead(h, rest, 4, s.clientPID);
    WordCellRead(h, rest, 5, s.connectionID);
    WordCellRead(h, rest, 8, s.clientLCID);
    CellRead(h, rest, 6);
  }

  /** Reading a written header gives it back without its time zone. */
  lemma HeaderRead(h: Header, rest: seq<Byte>)
    ensures |Concat(Cells(h)) + rest| >= HEADER_SIZE
    ensures ReadHeader(Concat(Cells(h)) + rest) == h.(timeZone := 0)
  {
    hide Cell, FromLE32, LE32, ReadSlot, SlotBytes, Concat;
    HeaderSize(h);
    ScalarsRead(h, rest);
    WordCellRead(h, rest, 0, h.length);
    WordCellRead(h, rest, 22, h.sspiLong);
    CellRead(h, rest, 18);
    var slots := ReadHeader(Concat(Cells(h)) + rest).slots;
    forall j | 0 <= j < 12 ensures slots[j] == h.slots[j] { SlotCellRead(h, rest, j); }
    assert slots == h.slots;
  }

  /** The words of a header, byte for byte (section 2.2.6.4 of MS-TDS). */
  predicate ScalarsStand(b: seq<Byte>, s: Scalars)
    requires |b| >= 94
  {
    && b[4..8] == LE32(s.tdsVersion) && b[8..12] == LE32(s.packetSize) && b[12..16] == LE32(s.clientProgVer)
    && b[16..20] == LE32(s.clientPID) && b[20..24] == LE32(s.connectionID)
    && b[24] == s.optionFlags1 && b[25] == s.optionFlags2 && b[26] == s.typeFlags && b[27] == s.optionFlags3
    && b[32..36] == LE32(s.clientLCID)
  }

  predicate EdgesStand(b: seq<Byte>, h: Header)
    requires |b| >= 94
  {
    b[0..4] == LE32(h.length) && b[28..32] == LE32(h.timeZone) && b[72..78] == h.clientID && b[90..94] == LE32(h.sspiLong)
  }

  /** Where everything stands in the header. */
  lemma HeaderLayout(h: Header)
    ensures |Concat(Cells(h))| == 94
    ensures ScalarsStand(Concat(Cells(h)), h.scalars) && EdgesStand(Concat(Cells(h)), h)
    ensures forall j :: 0 <= j < 12 ==> SlotStands(Concat(Cells(h)), h.slots[j], j)
  {
    hide ScalarsStand, EdgesStand, SlotStands, Cells, Concat;
    HeaderSize(h);
    HeaderScalars(h);
    HeaderEdges(h);
    forall j | 0 <= j < 12 ensures SlotStands(Concat(Cells(h)), h.slots[j], j) {
      SlotCell(h, j);
    }
  }

  lemma HeaderScalars(h: Header)
    ensures |Concat(Cells(h))| == 94 && ScalarsStand(Concat(Cells(h)), h.scalars)
  {
    hide LE32, LE16, SlotBytes, Concat;
    CellStands(h, 1);
    CellStands(h, 2);
    CellStands(h, 3);
    CellStands(h, 4);
    CellStands(h, 5);
    CellStands(h, 8);
    CellStands(h, 6);
    FourBytes(Concat(Cells(h)), 24);
  }

  lemma FourBytes(b: seq<Byte>, at: nat)
    requires at + 4 <= |b|
    ensures b[at..at + 4] == [b[at], b[at + 1], b[at + 2], b[at + 3]]
  {
  }

  lemma HeaderEdges(h: Header)
    ensures |Concat(Cells(h))| == 94 && EdgesStand(Concat(Cells(h)), h)
  {
    hide LE32, LE16, SlotBytes, Concat;
    CellStands(h, 0);
    CellStands(h, 7);
    CellStands(h, 18);
    CellStands(h, 22);
  }

  /** Table entry `j`: its offset and then its length, nine entries from byte 36 and three from 78. */
  predicate SlotStands(b: seq<Byte>, s: Slot, j: int) {
    && 0 <= j < 12 && |b| >= 94
    && var at := if j < 9 then 36 + 4 * j else 42 + 4 * j;
       b[at..at + 2] == LE16(s.offset) && b[at + 2..at + 4] == LE16(s.length)
  }

  lemma CellStands(h: Header, i: nat)
    requires i < CELLS
    ensures |Concat(Cells(h))| == 94 && CellPos(i) <= CellPos(i + 1) <= 94
    ensures Concat(Cells(h))[CellPos(i)..CellPos(i + 1)] == Cells(h)[i]
  {
    hide Cells;
    HeaderSize(h);
    CellStart(h, i);
    PartAt(Cells(h), i);
  }

  lemma SlotInCells(h: Header, j: int)
    requires 0 <= j < 12
    ensures Cells(h)[if j < 9 then j + 9 else j + 10] == SlotBytes(h.slots[j])
  {
    hide SlotBytes, LE32;
    if
    case j <= 2 =>
    case 3 <= j <= 5 =>
    case 6 <= j <= 8 =>
    case 9 <= j =>
  }

  lemma SlotCell(h: Header, j: int)
    requires 0 <= j < 12
    ensures SlotStands(Concat(Cells(h)), h.slots[j], j)
  {
    hide Cells, Concat, LE16;
    var i := if j < 9 then j + 9 else j + 10;
    CellStands(h, i);
    SlotInCells(h, j);
    HalvesStand(Concat(Cells(h)), CellPos(i), h.slots[j]);
  }

  lemma HalvesStand(b: seq<Byte>, at: nat, s: Slot)
    requires at + 4 <= |b| && b[at..at + 4] == SlotBytes(s)
    ensures b[at..at + 2] == LE16(s.offset) && b[at + 2..at + 4] == LE16(s.length)
  {
    hide LE16;
    assert b[at..at + 2] == b[at..at + 4][..2] && b[at + 2..at + 4] == b[at..at + 4][2..];
  }

  // ---- The offset table ------------------------------------------------------------------

  lemma ModAdd(a: nat, b: nat)
    ensures (a % 0x1_0000 + b % 0x1_0000) % 0x1_0000 == (a + b) % 0x1_0000
  {
    var qa, qb := a / 0x1_0000, b / 0x1_0000;
    var r := a % 0x1_0000 + b % 0x1_0000;
    assert a + b == 0x1_0000 * (qa + qb) + r;
  }

  /** Offsets are positions modulo 2^16. */
  lemma {:induction false} OffsetIsPosition(f: seq<seq<Byte>>, i: nat)
    requires i <= |f|
    ensures OffsetOf(f, i) == (HEADER_SIZE + StartOf(f, i)) % 0x1_0000
  {
    if i > 0 {
      OffsetIsPosition(f, i - 1);
      ModAdd(HEADER_SIZE + StartOf(f, i - 1), |f[i - 1]|);
    }
  }

  lemma {:induction false} StartOfMonotone<T>(parts: seq<seq<T>>, i: nat, k: nat)
    requires i <= k <= |parts|
    ensures StartOf(parts, i) <= StartOf(parts, k)
  {
    if i < k { StartOfMonotone(parts, i, k - 1); }
  }

  /** Header, fields and extension pointer fit in 65535 bytes. */
  predicate Fits(l: Login) {
    HEADER_SIZE + |Concat(Fields(l))| + (if l.featureExt != [] then 4 else 0) <= 65535
  }

  lemma OffsetFits(l: Login, i: nat)
    requires Fits(l) && i <= 11
    ensures OffsetOf(Fields(l), i) == HEADER_SIZE + StartOf(Fields(l), i) <= HEADER_SIZE + |Concat(Fields(l))|
  {
    hide Fields, Concat, StartOf, OffsetOf;
    var f := Fields(l);
    OffsetIsPosition(f, i);
    StartOfMonotone(f, i, 11);
    ConcatLength(f);
  }

  lemma LoginSize(l: Login)
    ensures |LoginBytes(l)| == HEADER_SIZE + |Concat(Fields(l))| + |FeatureBlock(l)|
  {
    HeaderSize(HeaderOf(l));
  }

  lemma EndFits(l: Login)
    requires Fits(l)
    ensures EndOffset(l) + |l.featureExt| == |LoginBytes(l)|
  {
    hide Fields, Cells, HeaderOf, Concat, OffsetOf;
    OffsetFits(l, 11);
    ConcatLength(Fields(l));
    LoginSize(l);
  }

  /** The bytes between the header and the feature block are the fields, one after the other. */
  lemma FieldBytes(l: Login, i: nat)
    requires i < 11
    ensures var start := HEADER_SIZE + StartOf(Fields(l), i);
            start + |Fields(l)[i]| <= |LoginBytes(l)| && LoginBytes(l)[start..start + |Fields(l)[i]|] == Fields(l)[i]
  {
    hide Fields, Cells, HeaderOf, FeatureBlock, Concat, StartOf;
    var f := Fields(l);
    PartAt(f, i);
    LoginSize(l);
    HeaderSize(HeaderOf(l));
    Inside(Concat(Cells(HeaderOf(l))), Concat(f), FeatureBlock(l), StartOf(f, i), |f[i]|);
  }

  /** A part of the middle, found in the whole. */
  lemma Inside(head: seq<Byte>, middle: seq<Byte>, tail: seq<Byte>, n: nat, size: nat)
    requires n + size <= |middle|
    ensures (head + middle + tail)[|head| + n..|head| + n + size] == middle[n..n + size]
  {
  }

  /** Slot `j` of the table in the encoded header describes field `i`. */
  lemma SlotEntry(l: Login, i: nat)
    requires i < 11
    ensures SlotTable(l)[SlotOfField(i)] == Slot(OffsetOf(Fields(l), i), Lengths(l)[i])
  {
  }

  predicate Holds(b: seq<Byte>, at: nat, part: seq<Byte>) {
    at + |part| <= |b| && b[at..at + |part|] == part
  }

  /** The table partitions what follows the header: the fields lie one after the other from byte
      94 in table order, each ending where the next begins; an extension pointer follows the last
      field and points just past itself, at the feature block, which runs to the end. */
  predicate Partitions(b: seq<Byte>, s: Slots, f: seq<seq<Byte>>, ext: seq<Byte>)
    requires |f| == 11
  {
    && s[SlotOfField(0)].offset == HEADER_SIZE
    && (forall i :: 0 <= i < 10 ==> s[SlotOfField(i + 1)].offset == s[SlotOfField(i)].offset + |f[i]|)
    && (forall i :: 0 <= i < 11 ==> Holds(b, s[SlotOfField(i)].offset, f[i]))
    && var end := s[SlotOfField(10)].offset + |f[10]|;
       if ext == [] then s[EXTENSION] == Slot(0, 0) && end == |b|
       else
         && s[EXTENSION].offset == end && s[EXTENSION].length == 4
         && end + 4 < 0x1_0000 && Holds(b, end, LE32(end + 4))
         && Holds(b, end + 4, ext) && end + 4 + |ext| == |b|
  }

  lemma EncodedHeader(l: Login)
    ensures |LoginBytes(l)| >= HEADER_SIZE
    ensures ReadHeader(LoginBytes(l)) == HeaderOf(l).(timeZone := 0)
  {
    hide Cells, HeaderOf, ReadHeader, Fields, FeatureBlock;
    var rest := Concat(Fields(l)) + FeatureBlock(l);
    HeaderRead(HeaderOf(l), rest);
    assert LoginBytes(l) == Concat(Cells(HeaderOf(l))) + rest;
  }

  lemma FeatureBlockBytes(l: Login, end: nat)
    requires Fits(l) && end == HEADER_SIZE + StartOf(Fields(l), 11)
    ensures end + |FeatureBlock(l)| == |LoginBytes(l)|
    ensures l.featureExt == [] ==> SlotTable(l)[EXTENSION] == Slot(0, 0)
    ensures l.featureExt != [] ==>
              && end + 4 < 0x1_0000 && SlotTable(l)[EXTENSION] == Slot(end, 4)
              && Holds(LoginBytes(l), end, LE32(end + 4)) && Holds(LoginBytes(l), end + 4, l.featureExt)
  {
    hide Fields, Cells, HeaderOf, OffsetOf, StartOf, Concat;
    OffsetFits(l, 11);
    ConcatLength(Fields(l));
    LoginSize(l);
    var b := LoginBytes(l);
    assert b[end..] == FeatureBlock(l);
    if l.featureExt != [] {
      assert b[end..end + 4] == FeatureBlock(l)[..4];
      assert b[end + 4..end + 4 + |l.featureExt|] == FeatureBlock(l)[4..];
    }
  }

  lemma TableEntry(l: Login, i: nat)
    requires Fits(l) && i < 11
    ensures SlotTable(l)[SlotOfField(i)].offset == HEADER_SIZE + StartOf(Fields(l), i)
    ensures Holds(LoginBytes(l), SlotTable(l)[SlotOfField(i)].offset, Fields(l)[i])
  {
    hide Fields, LoginBytes, SlotTable, OffsetOf, Concat, StartOf;
    SlotEntry(l, i);
    OffsetFits(l, i);
    FieldBytes(l, i);
  }

  lemma StartZero<T>(parts: seq<seq<T>>)
    ensures StartOf(parts, 0) == 0
  {
  }

  lemma StartNext<T>(parts: seq<seq<T>>, i: nat)
    requires i < |parts|
    ensures StartOf(parts, i + 1) == StartOf(parts, i) + |parts[i]|
  {
  }

  /** The offset table of an encoded login, as a reader of the bytes sees it, partitions them, and
      Length is the size of the whole. */
  lemma OffsetTablePartition(l: Login)
    requires Fits(l)
    ensures |LoginBytes(l)| >= HEADER_SIZE
    ensures Partitions(LoginBytes(l), ReadHeader(LoginBytes(l)).slots, Fields(l), l.featureExt)
    ensures ReadHeader(LoginBytes(l)).length == ToU32(|LoginBytes(l)|)
  {
    hide Fields, LoginBytes, SlotTable, OffsetOf, Concat, StartOf, EndOffset, ReadHeader, Fits, Holds, LE32;
    EncodedHeader(l);
    var b, s := LoginBytes(l), ReadHeader(LoginBytes(l)).slots;
    var f := Fields(l);
    forall i | 0 <= i < 11
      ensures s[SlotOfField(i)].offset == HEADER_SIZE + StartOf(f, i) && Holds(b, s[SlotOfField(i)].offset, f[i])
      ensures StartOf(f, i + 1) == StartOf(f, i) + |f[i]|
    {
      TableEntry(l, i);
      StartNext(f, i);
    }
    FeatureBlockBytes(l, HEADER_SIZE + StartOf(f, 11));
    EndFits(l);
    assert StartOf(f, 0) == 0 by { StartZero(f); }
  }

  /** What the encoded bytes hold at which place: the login's own scalars, zone and client id, a zero
      long SSPI length, and the byte count of SSPI with SSPI itself. */
  lemma LoginLayout(l: Login)
    requires Fits(l)
    ensures |LoginBytes(l)| >= 94
    ensures ScalarsStand(LoginBytes(l), HeaderOf(l).scalars) && EdgesStand(LoginBytes(l), HeaderOf(l))
    ensures HeaderOf(l).timeZone == l.header.timeZone && HeaderOf(l).clientID == l.clientID && HeaderOf(l).sspiLong == 0
    ensures HeaderOf(l).scalars == l.header.scalars.(optionFlags3 := HeaderOf(l).scalars.optionFlags3)
    ensures forall j :: 0 <= j < 12 ==> SlotStands(LoginBytes(l), HeaderOf(l).slots[j], j)
    ensures HeaderOf(l).slots[9].length == ToU16(|l.sspi|) && Holds(LoginBytes(l), HeaderOf(l).slots[9].offset, l.sspi)
  {
    hide LoginBytes, Fits, Cells, Concat, ScalarsStand, EdgesStand, SlotStands, SlotTable, Holds, EndOffset, ByteOp, Fields, Lengths;
    var h := HeaderOf(l);
    HeaderLayout(h);
    LoginHead(l);
    StandsLonger(LoginBytes(l), Concat(Cells(h)), h);
    TableEntry(l, 8);
    SlotEntry(l, 8);
    SspiField(l);
  }

  lemma SspiField(l: Login)
    ensures Fields(l)[8] == l.sspi && Lengths(l)[8] == ToU16(|l.sspi|)
  {
    hide ToUcs2, Mangle, ToU16;
  }

  lemma LoginHead(l: Login)
    ensures |LoginBytes(l)| >= 94 && LoginBytes(l)[..94] == Concat(Cells(HeaderOf(l)))
  {
    hide Cells, HeaderOf, Fields, FeatureBlock;
    HeaderSize(HeaderOf(l));
  }

  lemma StandsLonger(b: seq<Byte>, head: seq<Byte>, h: Header)
    requires |b| >= 94 && |head| == 94 && b[..94] == head && ScalarsStand(head, h.scalars) && EdgesStand(head, h)
    requires forall j :: 0 <= j < 12 ==> SlotStands(head, h.slots[j], j)
    ensures ScalarsStand(b, h.scalars) && EdgesStand(b, h)
    ensures forall j :: 0 <= j < 12 ==> SlotStands(b, h.slots[j], j)
  {
    hide LE32, LE16;
    SameHead(b, head);
    forall j | 0 <= j < 12 ensures SlotStands(b, h.slots[j], j) {
      assert SlotStands(head, h.slots[j], j);
    }
  }

  lemma SameHead(b: seq<Byte>, head: seq<Byte>)
    requires |b| >= 94 && |head| == 94 && b[..94] == head
    ensures forall i, j :: 0 <= i <= j <= 94 ==> b[i..j] == head[i..j]
    ensures forall i :: 0 <= i < 94 ==> b[i] == head[i]
  {
    forall i, j | 0 <= i <= j <= 94 ensures b[i..j] == head[i..j] {
      assert b[i..j] == b[..94][i..j];
    }
    forall i | 0 <= i < 94 ensures b[i] == head[i] {
      assert b[i] == b[..94][i];
    }
  }

  /** One mangled byte: its halves change places, and then 0xA5 is xored in, bit for bit. */
  lemma MangledBits(ch: Byte, k: nat)
    requires k < 8
    ensures Bit(MangleByte(ch), k) == (Bit(16 * ((ch as int) % 16) + (ch as int) / 16, k) != (k == 0 || k == 2 || k == 5 || k == 7))
  {
    XorMask(k);
  }

  lemma XorMask(k: nat)
    requires k < 8
    ensures Bit(0xA5, k) == (k == 0 || k == 2 || k == 5 || k == 7)
  {
    assert Bit(0xA5, k) == if k == 0 then true else Bit(82, k - 1);
    assert k >= 1 ==> Bit(82, k - 1) == if k == 1 then false else Bit(41, k - 2);
    assert k >= 2 ==> Bit(41, k - 2) == if k == 2 then true else Bit(20, k - 3);
    assert k >= 3 ==> Bit(20, k - 3) == if k == 3 then false else Bit(10, k - 4);
    assert k >= 4 ==> Bit(10, k - 4) == if k == 4 then false else Bit(5, k - 5);
    assert k >= 5 ==> Bit(5, k - 5) == if k == 5 then true else Bit(2, k - 6);
    assert k >= 6 ==> Bit(2, k - 6) == if k == 6 then false else Bit(1, k - 7);
  }

  // ---- Round trip ------------------------------------------------------------------------

  const PASSWORD_FIELD := 2
  const SSPI_FIELD := 8

  lemma GetOptionRead(b: seq<Byte>, s: Slot, part: seq<Byte>)
    requires s.offset > 0 && Holds(b, s.offset, part) && s.offset + |part| < 0x1_0000 && 2 * s.length <= |part|
    ensures GetOption(b, s) == FromUcs2(part[..2 * s.length])
    ensures GetOption(b, s).Some?
  {
    assert b[s.offset..s.offset + 2 * s.length] == part[..2 * s.length];
    assert |Utf16.Decode([])| == 0;
    if s.length == 0 {
      assert ByteUnits(part[..2 * s.length]) == [];
    }
  }

  /** The text of field `i` and its length entry. */
  lemma FieldText(l: Login, i: nat)
    requires i < 11 && i != SSPI_FIELD
    ensures var t := TextOf(l, SlotOfField(i));
            && Lengths(l)[i] == ToU16(|t|)
            && Fields(l)[i] == if i == PASSWORD_FIELD then Mangle(ToUcs2(t)) else ToUcs2(t)
  {
    hide ToUcs2, Mangle, ToU16;
  }

  lemma FieldEnd(l: Login, i: nat)
    requires Fits(l) && i < 11
    ensures SlotTable(l)[SlotOfField(i)].offset + |Fields(l)[i]| < 0x1_0000
    ensures SlotTable(l)[SlotOfField(i)].offset > 0
    ensures |Fields(l)[i]| < 0x1_0000
  {
    hide Fields, LoginBytes, SlotTable, Concat, Holds;
    TableEntry(l, i);
    StartNext(Fields(l), i);
    StartOfMonotone(Fields(l), i + 1, 11);
    ConcatLength(Fields(l));
  }

  /** What DecodeLogin reads for a text slot of an encoded login. */
  lemma TextRead(l: Login, i: nat)
    requires Fits(l) && i < 11 && i != SSPI_FIELD
    ensures var t := TextOf(l, SlotOfField(i));
            && SlotTable(l)[SlotOfField(i)].length == |t| && 2 * |t| <= |Fields(l)[i]|
            && GetOption(LoginBytes(l), SlotTable(l)[SlotOfField(i)]) == FromUcs2(Fields(l)[i][..2 * |t|])
            && GetOption(LoginBytes(l), SlotTable(l)[SlotOfField(i)]).Some?
  {
    hide Fields, LoginBytes, SlotTable, Concat, Holds, GetOption, FromUcs2, ToUcs2, TextOf, Fits, Mangle, OffsetOf, Lengths;
    var t := TextOf(l, SlotOfField(i));
    FieldText(l, i);
    FieldEnd(l, i);
    Ucs2RuneCountRead(t);
    SlotEntry(l, i);
    TableEntry(l, i);
    GetOptionRead(LoginBytes(l), SlotTable(l)[SlotOfField(i)], Fields(l)[i]);
  }

  lemma TextSlotRead(l: Login, j: nat)
    requires Fits(l) && TextSlot(j)
    ensures GetOption(LoginBytes(l), SlotTable(l)[j]).Some?
    ensures j != PASSWORD ==> (GetOption(LoginBytes(l), SlotTable(l)[j]) == Some(TextOf(l, j)) <==> Bmp(TextOf(l, j)))
  {
    hide Fields, LoginBytes, SlotTable, GetOption, FromUcs2, ToUcs2, TextOf, Fits, Bmp;
    var i := if j < EXTENSION then j else j - 1;
    assert SlotOfField(i) == j;
    TextRead(l, i);
    FieldText(l, i);
    Ucs2RuneCountRead(TextOf(l, j));
  }

  lemma FeatureExtRead(l: Login)
    requires Fits(l)
    ensures FeatureExt(LoginBytes(l), SlotTable(l)[EXTENSION]) == Some(l.featureExt)
  {
    hide Fields, LoginBytes, SlotTable, StartOf, LE32, FromLE32, Fits, FeatureBlock;
    var end := HEADER_SIZE + StartOf(Fields(l), 11);
    var b := LoginBytes(l);
    FeatureBlockBytes(l, end);
    if l.featureExt != [] {
      Words32(end + 4);
      EndFits(l);
      FeatureBlockSize(l);
      assert b[end + 4..] == l.featureExt;
    }
  }

  lemma FeatureBlockSize(l: Login)
    ensures l.featureExt != [] ==> |FeatureBlock(l)| == 4 + |l.featureExt|
  {
  }

  /** What a successful decode holds, slot by slot. */
  lemma DecodeParts(data: seq<Byte>)
    requires |data| >= HEADER_SIZE
    requires FeatureExt(data, ReadHeader(data).slots[EXTENSION]).Some?
    requires forall j :: TextSlot(j) ==> GetOption(data, ReadHeader(data).slots[j]).Some?
    ensures Decode(data).Some?
    ensures var r := Decode(data).value;
            && r.header == ReadHeader(data)
            && Some(r.featureExt) == FeatureExt(data, ReadHeader(data).slots[EXTENSION])
            && forall j :: TextSlot(j) ==> Some(TextOf(r, j)) == GetOption(data, ReadHeader(data).slots[j])
  {
    hide GetOption, FeatureExt, ReadHeader;
  }

  /** The round trip of every login that fits: the header comes back without its time zone,
      FeatureExt comes back whatever its length, and each text field but the password comes back
      if and only if it has no character above U+FFFF. */
  lemma RoundTrip(l: Login)
    requires Fits(l)
    ensures Decode(LoginBytes(l)).Some?
    ensures var r := Decode(LoginBytes(l)).value;
            && r.featureExt == l.featureExt
            && r.header == HeaderOf(l).(timeZone := 0)
            && r.header.clientID == l.clientID
            && r.header.scalars == l.header.scalars.(optionFlags3 := r.header.scalars.optionFlags3)
            && forall j :: TextSlot(j) && j != PASSWORD ==> (TextOf(r, j) == TextOf(l, j) <==> Bmp(TextOf(l, j)))
  {
    hide Fields, LoginBytes, SlotTable, GetOption, FeatureExt, ReadHeader, TextOf, Fits, Bmp, Decode, EndOffset;
    EncodedHeader(l);
    FeatureExtRead(l);
    forall j | TextSlot(j)
      ensures GetOption(LoginBytes(l), SlotTable(l)[j]).Some?
      ensures j != PASSWORD ==> (GetOption(LoginBytes(l), SlotTable(l)[j]) == Some(TextOf(l, j)) <==> Bmp(TextOf(l, j)))
    {
      TextSlotRead(l, j);
    }
    DecodeParts(LoginBytes(l));
  }

  /** All text fields but the password. */
  function Texts(l: Login): (t: seq<Text>) {
    [l.hostName, l.userName, l.appName, l.serverName, l.ctlIntName, l.language, l.database, l.atchDBFile, l.changePassword]
  }

  lemma TextsBySlot(l: Login, r: Login)
    ensures Texts(l) == Texts(r) <==> forall j :: TextSlot(j) && j != PASSWORD ==> TextOf(r, j) == TextOf(l, j)
  {
    assert TextSlot(HOST) && TextSlot(USER) && TextSlot(APP) && TextSlot(SERVER) && TextSlot(CTL_INT)
      && TextSlot(LANGUAGE) && TextSlot(DATABASE) && TextSlot(ATCH_DB) && TextSlot(CHANGE_PASSWORD);
    if Texts(l) == Texts(r) {
      assert forall k :: 0 <= k < 9 ==> Texts(l)[k] == Texts(r)[k];
      assert l.hostName == Texts(l)[0] && l.userName == Texts(l)[1] && l.appName == Texts(l)[2];
      assert l.serverName == Texts(l)[3] && l.ctlIntName == Texts(l)[4] && l.language == Texts(l)[5];
      assert l.database == Texts(l)[6] && l.atchDBFile == Texts(l)[7] && l.changePassword == Texts(l)[8];
    }
  }

  /** Disabling the password change and then encoding: the receiver sees the same login with flag
      bit 0 cleared, the extension flag set if there is an extension, and no other flag, text,
      scalar or extension byte changed. */
  lemma DisabledRoundTrip(l: Login)
    requires Fits(l)
    ensures Decode(LoginBytes(PasswordChangeDisabled(l))).Some?
    ensures var r := Decode(LoginBytes(PasswordChangeDisabled(l))).value;
            && (Texts(r) == Texts(l) <==> forall k :: 0 <= k < 9 ==> Bmp(Texts(l)[k]))
            && r.featureExt == l.featureExt
            && r.header.scalars == l.header.scalars.(optionFlags3 := r.header.scalars.optionFlags3)
            && forall k :: 0 <= k < 8 ==>
                 Bit(r.header.scalars.optionFlags3, k) ==
                 ((Bit(l.header.scalars.optionFlags3, k) && k != 0) || (k == 4 && l.featureExt != []))
  {
    hide LoginBytes, SlotTable, Fits, Bmp, Decode, Bit, EndOffset, ByteOp, PasswordChangeDisabled;
    var d := PasswordChangeDisabled(l);
    assert Fits(d) by { SameFits(l, d); }
    RoundTrip(d);
    var r := Decode(LoginBytes(d)).value;
    assert Texts(d) == Texts(l);
    TextsBmp(d);
    TextsBySlot(d, r);
    FlagBits();
  }

  lemma SameFits(l: Login, d: Login)
    requires Fits(l) && d == l.(header := d.header)
    ensures Fits(d)
  {
    hide Concat, ToUcs2, Mangle;
    assert Fields(d) == Fields(l);
  }

  lemma TextsBmp(l: Login)
    ensures (forall k :: 0 <= k < 9 ==> Bmp(Texts(l)[k])) <==> forall j :: TextSlot(j) && j != PASSWORD ==> Bmp(TextOf(l, j))
  {
    hide Bmp;
    var t := Texts(l);
    if forall k :: 0 <= k < 9 ==> Bmp(t[k]) {
      assert Bmp(t[0]) && Bmp(t[1]) && Bmp(t[2]) && Bmp(t[3]) && Bmp(t[4]) && Bmp(t[5]) && Bmp(t[6]) && Bmp(t[7]) && Bmp(t[8]);
    }
    if forall j :: TextSlot(j) && j != PASSWORD ==> Bmp(TextOf(l, j)) {
      assert TextSlot(HOST) && TextSlot(USER) && TextSlot(APP) && TextSlot(SERVER) && TextSlot(CTL_INT)
        && TextSlot(LANGUAGE) && TextSlot(DATABASE) && TextSlot(ATCH_DB) && TextSlot(CHANGE_PASSWORD);
    }
  }

  /** A login with nothing in it but a host name. */
  function HostOnly(host: Text, header: Header): (l: Login) {
    Login(host, [], [], [], [], [], [], [], [0, 0, 0, 0, 0, 0], [], [], [], [], header)
  }

  lemma HostOnlyFits(host: Text, header: Header)
    requires |host| <= 16000
    ensures Fits(HostOnly(host, header))
  {
    var l := HostOnly(host, header);
    var f := Fields(l);
    EncodeLength(host);
    assert ToUcs2([]) == [] && Mangle([]) == [];
    assert forall i :: 0 < i < 11 ==> f[i] == [];
    OnlyFirst(f);
  }

  lemma {:induction false} OnlyFirst(parts: seq<seq<Byte>>)
    requires parts != [] && forall i :: 0 < i < |parts| ==> parts[i] == []
    ensures Concat(parts) == parts[0]
  {
    if |parts| == 1 {
      assert Concat(parts[1..]) == [];
    } else {
      OnlyFirst(parts[1..]);
    }
  }

  /** A failing input: the one-character host name U+10000 is announced as one unit, and half of
      its surrogate pair comes back as the replacement character. */
  lemma SupplementaryHostLost(header: Header)
    ensures Fits(HostOnly([0x1_0000], header))
    ensures Decode(LoginBytes(HostOnly([0x1_0000], header))).Some?
    ensures Decode(LoginBytes(HostOnly([0x1_0000], header))).value.hostName == [REPLACEMENT]
  {
    hide Decode, LoginBytes, Fits, SlotTable, ReadHeader, GetOption, Fields;
    var l := HostOnly([0x1_0000], header);
    HostOnlyFits([0x1_0000], header);
    RoundTrip(l);
    EncodedHeader(l);
    TextRead(l, HOST);
    FieldText(l, HOST);
    UnitsOfBytes(Utf16.Encode([0x1_0000]), 1);
    assert Utf16.Encode([0x1_0000])[..1] == [0xD800];
    assert Utf16.Decode([0xD800]) == [REPLACEMENT];
    assert TextOf(Decode(LoginBytes(l)).value, HOST) == [REPLACEMENT] by { DecodeTexts(l, HOST); }
  }

  lemma DecodeTexts(l: Login, j: nat)
    requires Fits(l) && TextSlot(j)
    ensures Decode(LoginBytes(l)).Some?
    ensures Some(TextOf(Decode(LoginBytes(l)).value, j)) == GetOption(LoginBytes(l), SlotTable(l)[j])
  {
    hide Fields, LoginBytes, SlotTable, GetOption, FeatureExt, ReadHeader, TextOf, Fits, Decode, EndOffset;
    EncodedHeader(l);
    FeatureExtRead(l);
    forall i | TextSlot(i) ensures GetOption(LoginBytes(l), SlotTable(l)[i]).Some? { TextSlotRead(l, i); }
    DecodeParts(LoginBytes(l));
  }

  // ---- The password ----------------------------------------------------------------------

  lemma UnmangleMangle(b: seq<Byte>)
    ensures Unmangle(Mangle(b)) == b
  {
    forall i | 0 <= i < |b| ensures Unmangle(Mangle(b))[i] == b[i] {
      ByteXorTwice(Swap(b[i]), 0xA5);
      SwapNibbles(b[i]);
    }
  }

  /** The password region of the encoded bytes, found through the table, unmangles to the UTF-16
      bytes of the password; they decode to the password, whatever characters it has. */
  lemma PasswordRegion(l: Login)
    requires Fits(l)
    ensures |LoginBytes(l)| >= HEADER_SIZE
    ensures var off, n := ReadHeader(LoginBytes(l)).slots[PASSWORD].offset, |ToUcs2(l.password)|;
            && off + n <= |LoginBytes(l)|
            && Unmangle(LoginBytes(l)[off..off + n]) == ToUcs2(l.password)
            && FromUcs2(Unmangle(LoginBytes(l)[off..off + n])) == Some(l.password)
  {
    hide Fields, LoginBytes, SlotTable, ReadHeader, Fits, ToUcs2, FromUcs2, Unmangle, Mangle;
    EncodedHeader(l);
    TableEntry(l, PASSWORD_FIELD);
    FieldText(l, PASSWORD_FIELD);
    UnmangleMangle(ToUcs2(l.password));
    Ucs2RoundTrip(l.password);
  }

  /** Through the packet layer: a login that fits one packet is decoded from the wire to the same
      frame. */
  lemma PacketRoundTrip(l: Login)
    requires |LoginBytes(l)| + 8 < 0x1_0000
    ensures TdsPacket.Decode(TdsPacket.Encode(Encode(l))) == TdsPacket.Ok(TdsPacket.New(TdsPacket.LOGIN7, LoginBytes(l)))
  {
    hide LoginBytes;
    var p := Encode(l);
    assert p.header[2..4] == p.header[2..][..2];
    TdsPacket.DecodeEncode(p);
  }

  // ---- The source's own form -------------------------------------------------------------

  /** manglePassword overwrites the UTF-16 bytes in place. */
  method ManglePassword(password: Text) returns (ucs2: array<Byte>)
    ensures fresh(ucs2) && ucs2[..] == Mangle(ToUcs2(password))
  {
    ucs2 := Str2Ucs2(password);
    var i := 0;
    while i < ucs2.Length
      invariant 0 <= i <= ucs2.Length
      invariant ucs2.Length == |ToUcs2(password)|
      invariant forall k :: 0 <= k < ucs2.Length ==>
                  ucs2[k] == if k < i then Mangle(ToUcs2(password))[k] else ToUcs2(password)[k]
    {
      ucs2[i] := MangleByte(ucs2[i]);
      i := i + 1;
    }
  }

  /** bytes.Buffer, read from the front. */
  class Buffer {
    const data: seq<Byte>
    var pos: nat

    constructor (data: seq<Byte>)
      ensures this.data == data && pos == 0
    {
      this.data := data;
      pos := 0;
    }

    method Next(n: nat) returns (part: seq<Byte>)
      requires pos + n <= |data|
      modifies this
      ensures pos == old(pos) + n && part == data[old(pos)..old(pos) + n]
    {
      part := data[pos..pos + n];
      pos := pos + n;
    }

    /** A table entry: an offset and a length. */
    method NextSlot() returns (slot: Slot)
      requires pos + 4 <= |data|
      modifies this
      ensures pos == old(pos) + 4 && slot == ReadSlot(data[old(pos)..old(pos) + 4])
    {
      var offset := Next(2);
      var length := Next(2);
      slot := Slot(FromLE16(offset), FromLE16(length));
      assert data[old(pos)..old(pos) + 4] == offset + length;
    }
  }

  /** DecodeLogin consumes the buffer into the header, then follows the table. */
  method DecodeLogin(data: seq<Byte>) returns (r: Option<Login>)
    ensures r == Decode(data)
  {
    if |data| < HEADER_SIZE {
      return None;
    }
    var h := DecodeHeader(data);
    var hostName := GetOption(data, h.slots[HOST]);
    var userName := GetOption(data, h.slots[USER]);
    var password := GetOption(data, h.slots[PASSWORD]);
    var appName := GetOption(data, h.slots[APP]);
    var serverName := GetOption(data, h.slots[SERVER]);
    var ctlIntName := GetOption(data, h.slots[CTL_INT]);
    var language := GetOption(data, h.slots[LANGUAGE]);
    var database := GetOption(data, h.slots[DATABASE]);
    var atchDBFile := GetOption(data, h.slots[ATCH_DB]);
    var changePassword := GetOption(data, h.slots[CHANGE_PASSWORD]);
    var featureExt := FeatureExt(data, h.slots[EXTENSION]);
    if hostName.None? || userName.None? || password.None? || appName.None? || serverName.None? || ctlIntName.None?
       || language.None? || database.None? || atchDBFile.None? || changePassword.None? || featureExt.None? {
      return None;
    }
    r := Some(Login(hostName.value, userName.value, password.value, appName.value, serverName.value,
                    ctlIntName.value, language.value, database.value, [0, 0, 0, 0, 0, 0], [],
                    atchDBFile.value, changePassword.value, featureExt.value, h));
  }

  method DecodeHeader(data: seq<Byte>) returns (h: Header)
    requires |data| >= HEADER_SIZE
    ensures h == ReadHeader(data)
  {
    hide FromLE32, ReadSlots;
    var buf := new Buffer(data);
    var length := buf.Next(4);
    var tdsVersion := buf.Next(4);
    var packetSize := buf.Next(4);
    var clientProgVer := buf.Next(4);
    var clientPID := buf.Next(4);
    var connectionID := buf.Next(4);
    var flags := buf.Next(4);
    var _ := buf.Next(4);
    var clientLCID := buf.Next(4);
    var slots, clientID := DecodeTable(buf);
    var sspiLong := buf.Next(4);
    h := Header(
      FromLE32(length),
      Scalars(FromLE32(tdsVersion), FromLE32(packetSize), FromLE32(clientProgVer), FromLE32(clientPID),
              FromLE32(connectionID), flags[0], flags[1], flags[2], flags[3], FromLE32(clientLCID)),
      0, slots, clientID, FromLE32(sspiLong));
  }

  /** The offset table, with the client id between its ninth and tenth entry. */
  method DecodeTable(buf: Buffer) returns (slots: Slots, clientID: ClientId)
    requires buf.pos == 36 && |buf.data| >= HEADER_SIZE
    modifies buf
    ensures buf.pos == 90 && slots == ReadSlots(buf.data) && clientID == Cell(buf.data, 18)
  {
    hide ReadSlot;
    var host := buf.NextSlot();
    assert host == ReadSlot(Cell(buf.data, 9));
    var user := buf.NextSlot();
    assert user == ReadSlot(Cell(buf.data, 10));
    var password := buf.NextSlot();
    assert password == ReadSlot(Cell(buf.data, 11));
    var app := buf.NextSlot();
    assert app == ReadSlot(Cell(buf.data, 12));
    var server := buf.NextSlot();
    assert server == ReadSlot(Cell(buf.data, 13));
    var extension := buf.NextSlot();
    assert extension == ReadSlot(Cell(buf.data, 14));
    var ctlInt := buf.NextSlot();
    assert ctlInt == ReadSlot(Cell(buf.data, 15));
    var language := buf.NextSlot();
    assert language == ReadSlot(Cell(buf.data, 16));
    var database := buf.NextSlot();
    assert database == ReadSlot(Cell(buf.data, 17));
    clientID := buf.Next(6);
    var sspi := buf.NextSlot();
    assert sspi == ReadSlot(Cell(buf.data, 19));
    var atchDB := buf.NextSlot();
    assert atchDB == ReadSlot(Cell(buf.data, 20));
    var changePassword := buf.NextSlot();
    assert changePassword == ReadSlot(Cell(buf.data, 21));
    slots := [host, user, password, app, server, extension, ctlInt, language, database, sspi, atchDB, changePassword];
    assert slots == ReadSlots(buf.data);
  }

  lemma OffsetSteps(f: seq<seq<Byte>>)
    requires |f| == 11
    ensures OffsetOf(f, 0) == HEADER_SIZE
    ensures forall i :: 0 <= i < 11 ==> OffsetOf(f, i + 1) == Advance(OffsetOf(f, i), |f[i]|)
  {
  }

  /** The header of EncodeLogin, filled while a uint16 offset runs over the fields; also where
      the feature block begins. */
  method EncodeHeader(l: Login, fields: seq<seq<Byte>>) returns (hdr: Header, featureExtOffset: U32)
    requires fields == Fields(l)
    ensures hdr == HeaderOf(l)
    ensures l.featureExt != [] ==> featureExtOffset == EndOffset(l)
  {
    hide Fields, Advance, ByteOp, OffsetOf;
    OffsetSteps(fields);
    var offset: U16 := HEADER_SIZE;
    var host := Slot(offset, ToU16(|l.hostName|));
    offset := Advance(offset, |fields[0]|);
    var user := Slot(offset, ToU16(|l.userName|));
    offset := Advance(offset, |fields[1]|);
    var password := Slot(offset, ToU16(|l.password|));
    offset := Advance(offset, |fields[2]|);
    var app := Slot(offset, ToU16(|l.appName|));
    offset := Advance(offset, |fields[3]|);
    var server := Slot(offset, ToU16(|l.serverName|));
    offset := Advance(offset, |fields[4]|);
    var ctlInt := Slot(offset, ToU16(|l.ctlIntName|));
    offset := Advance(offset, |fields[5]|);
    var language := Slot(offset, ToU16(|l.language|));
    offset := Advance(offset, |fields[6]|);
    var database := Slot(offset, ToU16(|l.database|));
    offset := Advance(offset, |fields[7]|);
    var sspi := Slot(offset, ToU16(|l.sspi|));
    offset := Advance(offset, |fields[8]|);
    var atchDB := Slot(offset, ToU16(|l.atchDBFile|));
    offset := Advance(offset, |fields[9]|);
    var changePassword := Slot(offset, ToU16(|l.changePassword|));
    offset := Advance(offset, |fields[10]|);
    assert offset == OffsetOf(fields, 11);

    featureExtOffset := 0;
    var extension := Slot(0, 0);
    var flags := l.header.scalars.optionFlags3;
    if |l.featureExt| > 0 {
      flags := ByteOp(Or, flags, EXTENSION_FLAG);
      extension := Slot(offset, 4);
      offset := Advance(offset, 4);
      featureExtOffset := offset;
    }
    var slots := [host, user, password, app, server, extension, ctlInt, language, database, sspi, atchDB, changePassword];
    assert slots == SlotTable(l);
    hdr := Header(ToU32(offset + ToU32(|l.featureExt|)), l.header.scalars.(optionFlags3 := flags),
                  l.header.timeZone, slots, l.clientID, 0);
  }

  /** EncodeLogin writes the header, the fields and the feature block into one buffer. */
  method EncodeLogin(l: Login) returns (p: TdsPacket.Packet)
    ensures p == Encode(l)
  {
    hide Cells, HeaderOf, EndOffset, Mangle, ToUcs2;
    var password := ManglePassword(l.password);
    var fields := [ToUcs2(l.hostName), ToUcs2(l.userName), password[..], ToUcs2(l.appName),
                   ToUcs2(l.serverName), ToUcs2(l.ctlIntName), ToUcs2(l.language), ToUcs2(l.database), l.sspi,
                   ToUcs2(l.atchDBFile), ToUcs2(l.changePassword)];
    var hdr, featureExtOffset := EncodeHeader(l, fields);
    var w := Concat(Cells(hdr));
    for i := 0 to 11
      invariant w == Concat(Cells(hdr)) + Concat(fields[..i])
    {
      assert fields[..i + 1] == fields[..i] + [fields[i]];
      ConcatSnoc(fields[..i], fields[i]);
      w := w + fields[i];
    }
    assert fields[..11] == fields;
    if |l.featureExt| > 0 {
      w := w + LE32(featureExtOffset);
      w := w + l.featureExt;
    }
    assert w == LoginBytes(l);
    p := TdsPacket.New(TdsPacket.LOGIN7, w);
  }

  /** The login the decoder hands out, whose flags are changed in place. */
  class LoginMessage {
    var login: Login

    constructor (login: Login)
      ensures this.login == login
    {
      this.login := login;
    }

    /** Only flag bit 0 of OptionFlags3 is cleared. */
    method DisablePasswordChange()
      modifies this
      ensures login == PasswordChangeDisabled(old(login))
      ensures forall k :: 0 <= k < 8 ==>
                Bit(login.header.scalars.optionFlags3, k) == (Bit(old(login).header.scalars.optionFlags3, k) && k != 0)
    {
      hide Bit;
      var flags := login.header.scalars.optionFlags3;
      if ByteOp(And, flags, CHANGE_PASSWORD_FLAG) > 0 {
        login := login.(header := login.header.(scalars := login.header.scalars.(optionFlags3 := ByteOp(AndNot, flags, CHANGE_PASSWORD_FLAG))));
      }
    }
  }
}
