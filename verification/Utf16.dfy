/**
  UTF-16 as the login and batch codecs use it (str2ucs2 and ucs22str of
  common/mssqltypes/login.go over Go's unicode/utf16).  A Go string is a sequence of Unicode
  scalar values.
 */
module Utf16 {
  import opened Selection
  import opened Bytes

  type Scalar = x: int | 0 <= x < 0xD800 || 0xE000 <= x < 0x11_0000
  type Text = seq<Scalar>

  const REPLACEMENT: Scalar := 0xFFFD

  predicate Bmp(s: Text) {
    forall i :: 0 <= i < |s| ==> s[i] < 0x1_0000
  }

  /** Section 2.1 of RFC 2781. */
  function EncodeScalar(c: Scalar): (u: seq<U16>)
    ensures |u| == (if c < 0x1_0000 then 1 else 2)
  {
    if c < 0x1_0000 then [c] else [0xD800 + (c - 0x1_0000) / 0x400, 0xDC00 + (c - 0x1_0000) % 0x400]
  }

  function Encode(s: Text): (u: seq<U16>) {
    if s == [] then [] else EncodeScalar(s[0]) + Encode(s[1..])
  }

  predicate HighSurrogate(u: U16) { 0xD800 <= u < 0xDC00 }
  predicate LowSurrogate(u: U16) { 0xDC00 <= u < 0xE000 }

  /** Section 2.2 of RFC 2781; an unpaired surrogate becomes U+FFFD, as utf16.Decode does. */
  function Decode(u: seq<U16>): (s: Text)
    ensures |s| <= |u|
  {
    if u == [] then []
    else if HighSurrogate(u[0]) && |u| > 1 && LowSurrogate(u[1]) then
      [0x1_0000 + (u[0] - 0xD800) * 0x400 + (u[1] - 0xDC00)] + Decode(u[2..])
    else if HighSurrogate(u[0]) || LowSurrogate(u[0]) then [REPLACEMENT] + Decode(u[1..])
    else [u[0]] + Decode(u[1..])
  }

  lemma {:induction false} DecodeEncode(s: Text)
    ensures Decode(Encode(s)) == s
  {
    if s != [] {
      DecodeEncode(s[1..]);
      var u := EncodeScalar(s[0]);
      assert Encode(s)[|u|..] == Encode(s[1..]);
    }
  }

  lemma {:induction false} EncodeLength(s: Text)
    ensures |s| <= |Encode(s)| <= 2 * |s|
    ensures |Encode(s)| == |s| <==> Bmp(s)
  {
    if s != [] {
      EncodeLength(s[1..]);
      assert Bmp(s) <==> s[0] < 0x1_0000 && Bmp(s[1..]);
    }
  }

  /** As many characters as units leaves no room for a surrogate pair. */
  lemma {:induction false} DecodeFullLength(u: seq<U16>)
    requires |Decode(u)| == |u|
    ensures Bmp(Decode(u))
  {
    if u != [] {
      assert |Decode(u)| == 1 + |Decode(u[1..])|;
      DecodeFullLength(u[1..]);
    }
  }

  /** Reading back as many units as the text has characters gives the text exactly when every
      character fits one unit. */
  lemma RuneCountRead(s: Text)
    ensures |s| <= |Encode(s)|
    ensures Decode(Encode(s)[..|s|]) == s <==> Bmp(s)
  {
    EncodeLength(s);
    var cut := Encode(s)[..|s|];
    if Bmp(s) {
      assert cut == Encode(s);
      DecodeEncode(s);
    }
    if Decode(cut) == s {
      DecodeFullLength(cut);
    }
  }

  // ---- Little-endian bytes ---------------------------------------------------------------

  function UnitBytes(u: seq<U16>): (b: seq<Byte>)
    ensures |b| == 2 * |u|
  {
    seq(2 * |u|, i requires 0 <= i < 2 * |u| => if i % 2 == 0 then u[i / 2] % 256 else u[i / 2] / 256)
  }

  function ByteUnits(b: seq<Byte>): (u: seq<U16>)
    ensures |u| == |b| / 2
  {
    seq(|b| / 2, i requires 0 <= i < |b| / 2 => FromLE16(b[2 * i..]))
  }

  lemma UnitsOfBytes(u: seq<U16>, n: nat)
    requires n <= |u|
    ensures ByteUnits(UnitBytes(u)[..2 * n]) == u[..n]
  {
    var b := UnitBytes(u)[..2 * n];
    forall i | 0 <= i < n ensures ByteUnits(b)[i] == u[i] {
      assert (2 * i) / 2 == i && (2 * i) % 2 == 0;
      assert (2 * i + 1) / 2 == i && (2 * i + 1) % 2 == 1;
    }
  }

  /** str2ucs2 */
  function ToUcs2(s: Text): (b: seq<Byte>) {
    UnitBytes(Encode(s))
  }

  /** ucs22str; an odd number of bytes makes the source index out of range. */
  function FromUcs2(b: seq<Byte>): (s: Option<Text>) {
    if |b| % 2 == 1 then None else Some(Decode(ByteUnits(b)))
  }

  /** ucs22str undoes str2ucs2 on every string, surrogate pairs included. */
  lemma Ucs2RoundTrip(s: Text)
    ensures FromUcs2(ToUcs2(s)) == Some(s)
  {
    var u := Encode(s);
    UnitsOfBytes(u, |u|);
    assert UnitBytes(u)[..2 * |u|] == UnitBytes(u) && u[..|u|] == u;
    DecodeEncode(s);
  }

  /** Reading two bytes per character instead of the whole encoding loses exactly the texts with
      a character above U+FFFF. */
  lemma Ucs2RuneCountRead(s: Text)
    ensures 2 * |s| <= |ToUcs2(s)|
    ensures FromUcs2(ToUcs2(s)[..2 * |s|]).Some?
    ensures FromUcs2(ToUcs2(s)[..2 * |s|]) == Some(s) <==> Bmp(s)
  {
    RuneCountRead(s);
    UnitsOfBytes(Encode(s), |s|);
  }

  /** The units of one character: itself in the basic plane, else a surrogate pair that counts from
      U+10000. */
  lemma UnitsOf(c: Scalar)
    ensures c < 0x1_0000 ==> Encode([c]) == [c]
    ensures c >= 0x1_0000 ==>
              var u := Encode([c]);
              |u| == 2 && 0xD800 <= u[0] < 0xDC00 && 0xDC00 <= u[1] < 0xE000
              && c == 0x1_0000 + (u[0] as int - 0xD800) * 0x400 + (u[1] as int - 0xDC00)
  {
    assert Encode([]) == [];
  }

  /** A surrogate that is not part of a pair decodes to U+FFFD, and does not swallow what follows. */
  lemma LoneSurrogate(u: U16, rest: seq<U16>)
    requires 0xD800 <= u < 0xE000
    requires u >= 0xDC00 || rest == [] || !(0xDC00 <= rest[0] < 0xE000)
    ensures Decode([u] + rest) == [0xFFFD] + Decode(rest)
  {
    assert ([u] + rest)[1..] == rest;
  }

  /** Two bytes a unit, the low one first. */
  lemma LowByteFirst(s: Text, i: nat)
    requires i < |Encode(s)|
    ensures |ToUcs2(s)| == 2 * |Encode(s)|
    ensures (ToUcs2(s)[2 * i] as int) + 256 * (ToUcs2(s)[2 * i + 1] as int) == Encode(s)[i]
  {
    assert (2 * i) / 2 == i && (2 * i) % 2 == 0 && (2 * i + 1) / 2 == i && (2 * i + 1) % 2 == 1;
  }

  /** An odd number of bytes is no text. */
  lemma OddBytes(b: seq<Byte>)
    ensures FromUcs2(b) == None <==> |b| % 2 == 1
  {
  }

  // ---- The loops of the source -----------------------------------------------------------

  /** str2ucs2: two bytes per unit, low byte first. */
  method Str2Ucs2(s: Text) returns (ucs2: array<Byte>)
    ensures fresh(ucs2) && ucs2[..] == ToUcs2(s)
  {
    var res := Encode(s);
    ucs2 := new Byte[2 * |res|];
    var i := 0;
    while i < |res|
      invariant 0 <= i <= |res|
      invariant forall k :: 0 <= k < 2 * i ==> ucs2[k] == UnitBytes(res)[k]
    {
      ucs2[2 * i] := res[i] % 256;
      ucs2[2 * i + 1] := res[i] / 256;
      i := i + 1;
    }
  }

  /** ucs22str: the units are gathered two bytes at a time and decoded. */
  method Ucs22Str(s: seq<Byte>) returns (r: Option<Text>)
    ensures r == FromUcs2(s)
  {
    if |s| % 2 == 1 {
      return None;
    }
    var buf := new U16[|s| / 2];
    var i := 0;
    while i < |s|
      invariant 0 <= i <= |s| && i % 2 == 0
      invariant forall k :: 0 <= k < i / 2 ==> buf[k] == ByteUnits(s)[k]
    {
      buf[i / 2] := FromLE16(s[i..]);
      i := i + 2;
    }
    assert buf[..] == ByteUnits(s);
    return Some(Decode(buf[..]));
  }
}
