/** The register codec of the Modbus client (the manual encoding used with
    pymodbus 3.7 and later): turning the 16-bit words read from the inverter
    into numbers or text according to a register's configuration, and
    turning a number back into words for a write. The conversions between
    a float and its IEEE-754 single-precision bit pattern are parameters. */
module RegisterCodec {
  import opened Common
  import opened Text

  const TwoTo16: int := 0x1_0000
  const TwoTo31: int := 0x8000_0000
  const TwoTo32: int := 0x1_0000_0000

  /** A register value as the bus returns it. */
  type Word = x: int | 0 <= x < 0x1_0000

  datatype Endian = Big | Little

  /** One entry of the register map. Every key is optional, as in the
      configuration file; `writable` defaults to false. */
  datatype RegConfig = RegConfig(
    address: Option<int>,
    dataType: Option<string>,
    scale: Option<real>,
    endian: Option<string>,
    endianness: Option<string>,
    swap: Option<string>,
    count: Option<int>,
    functionCode: Option<int>,
    writable: bool)

  /** A decoded register: a number (integers and floats alike) or text. */
  datatype Value = Num(n: real) | Text(s: string)

  function DataType(c: RegConfig): (r: string)
    ensures c.dataType.None? ==> r == "uint16"
    ensures c.dataType.Some? ==> r == c.dataType.value
  {
    GetOr(c.dataType, "uint16")
  }

  function Scale(c: RegConfig): (r: real)
    ensures c.scale.None? ==> r == 1.0
    ensures c.scale.Some? ==> r == c.scale.value
  {
    GetOr(c.scale, 1.0)
  }

  function SwapWord(c: RegConfig): bool
  {
    c.swap == Some("word")
  }

  /** The byte order: `endian` if present, else `endianness`, else "big";
      little only when that text is "little" in any letter case. */
  function GetEndianness(c: RegConfig): (r: Endian)
    ensures var name := if c.endian.Some? then c.endian.value
                        else if c.endianness.Some? then c.endianness.value else "big";
      r == Little <==> Lower(name) == "little"
  {
    var name := GetOr(c.endian, GetOr(c.endianness, "big"));
    if Lower(name) == "little" then Little else Big
  }

  lemma DefaultEndiannessIsBig(c: RegConfig)
    requires c.endian.None? && c.endianness.None?
    ensures GetEndianness(c) == Big
  {
    assert Lower("big") == "big";
  }

  /** `endian` takes precedence over `endianness`, and the comparison
      ignores letter case. */
  lemma EndianKeyPrecedence(c: RegConfig)
    requires c.endian == Some("LITTLE") && c.endianness == Some("big")
    ensures GetEndianness(c) == Little
  {
    assert Lower("LITTLE") == "little";
  }

  /** `(hi << 16) | lo` for 16-bit words. */
  function Join(hi: Word, lo: Word): (r: int)
    ensures 0 <= r < TwoTo32
    ensures r / TwoTo16 == hi && r % TwoTo16 == lo
  {
    hi * TwoTo16 + lo
  }

  /** The two's complement reading of a 16-bit word. */
  function ToSigned16(w: Word): (r: int)
    ensures -0x8000 <= r < 0x8000
    ensures r % TwoTo16 == w
    ensures w < 0x8000 ==> r == w
  {
    if w < 0x8000 then w else w - TwoTo16
  }

  /** The two's complement reading of a 32-bit pattern. */
  function ToSigned32(u: int): (r: int)
    requires 0 <= u < TwoTo32
    ensures -TwoTo31 <= r < TwoTo31
    ensures r % TwoTo32 == u
  {
    if u >= TwoTo31 then u - TwoTo32 else u
  }

  /** The 32-bit pattern in the first two words, in the order the
      configuration asks for: with word swap the second word is always the
      high one, otherwise big endian puts the first word high. */
  function Join32(regs: seq<Word>, swap: bool, e: Endian): (r: int)
    requires |regs| >= 2
    ensures 0 <= r < TwoTo32
    ensures swap || e == Little ==> r == Join(regs[1], regs[0])
    ensures !swap && e == Big ==> r == Join(regs[0], regs[1])
  {
    if swap then Join(regs[1], regs[0])
    else if e == Big then Join(regs[0], regs[1])
    else Join(regs[1], regs[0])
  }

  /** The characters one register contributes to a text value: none for a
      zero word, else its low byte and then its high byte unless that is
      zero. */
  function WordChars(w: Word): (r: string)
    ensures w == 0 ==> r == []
    ensures w != 0 && w / 256 == 0 ==> r == [(w % 256) as char]
    ensures w != 0 && w / 256 != 0 ==> r == [(w % 256) as char, (w / 256) as char]
  {
    if w == 0 then []
    else if w / 256 != 0 then [(w % 256) as char, (w / 256) as char]
    else [(w % 256) as char]
  }

  function StringChars(regs: seq<Word>): (r: string)
    ensures |r| <= 2 * |regs|
    ensures (forall i :: 0 <= i < |regs| ==> regs[i] == 0) ==> r == []
    ensures forall i :: 0 <= i < |r| ==> r[i] as int < 256
  {
    if |regs| == 0 then [] else StringChars(regs[..|regs| - 1]) + WordChars(regs[|regs| - 1])
  }

  /** The number of registers a text read uses: the count, at most the
      registers returned, and none for a non-positive count. */
  function UsedWords(count: int, len: nat): (u: nat)
    ensures u <= len
    ensures count <= 0 ==> u == 0
    ensures count > 0 ==> u == MinInt(count, len)
  {
    if count <= 0 then 0 else MinInt(count, len)
  }

  /** The characters of the registers a text read uses. */
  function UsedText(regs: seq<Word>, count: int): string
  {
    StringChars(regs[..UsedWords(count, |regs|)])
  }

  /** The first `min(count, len)` registers as text, trimmed of whitespace:
      nothing for a non-positive count, at most two byte-valued characters
      per register used, and no whitespace at either end. */
  function DecodeString(regs: seq<Word>, count: int): (r: string)
    ensures count <= 0 ==> r == []
    ensures |r| <= 2 * UsedWords(count, |regs|)
    ensures |r| > 0 ==> !IsSpace(r[0]) && !IsSpace(r[|r| - 1])
    ensures forall i :: 0 <= i < |r| ==> r[i] as int < 256
  {
    Strip(UsedText(regs, count))
  }

  /** Registers at or past the configured count do not change the text. */
  lemma DecodeStringUsesOnlyCount(regs: seq<Word>, count: int)
    requires count > 0
    ensures DecodeString(regs, count) == DecodeString(regs[..MinInt(count, |regs|)], count)
  {
    var u := MinInt(count, |regs|);
    assert regs[..u][..UsedWords(count, u)] == regs[..u];
  }

  /** Zero registers padding the end of a text value do not change it. */
  lemma DecodeStringIgnoresPadding(a: seq<Word>, b: seq<Word>, count: int)
    requires count >= |a| + |b|
    requires forall i :: 0 <= i < |b| ==> b[i] == 0
    ensures DecodeString(a + b, count) == DecodeString(a, count)
  {
    if count > 0 {
      assert (a + b)[..UsedWords(count, |a + b|)] == a + b;
      assert a[..UsedWords(count, |a|)] == a;
      StringIgnoresZeroWords(a, b);
    }
  }

  /** The decoded text is the used registers' characters with only
      whitespace removed at either end. */
  lemma DecodeStringTrims(regs: seq<Word>, count: int)
    ensures exists i, j ::
      && 0 <= i <= j <= |UsedText(regs, count)| && DecodeString(regs, count) == UsedText(regs, count)[i..j]
      && SpaceOutside(UsedText(regs, count), i, j)
  {
    StripRemovesOnlySpace(UsedText(regs, count));
  }

  /** The number of words a data type needs before decoding succeeds. */
  function WordsNeeded(dataType: string): nat
  {
    if dataType in {"uint32", "int32", "float32"} then 2
    else if dataType in {"uint16", "int16"} then 1
    else 0
  }

  function IsKnownType(t: string): bool
  {
    t in {"uint16", "int16", "uint32", "int32", "float32", "string"}
  }

  /** Decoding before scaling; None for an unknown type and, as the caught
      index error, for too few registers. */
  function DecodeRaw(regs: seq<Word>, c: RegConfig, bitsToFloat: int -> real): (r: Option<Value>)
    ensures !IsKnownType(DataType(c)) ==> r.None?
    ensures |regs| < WordsNeeded(DataType(c)) ==> r.None?
    ensures IsKnownType(DataType(c)) && |regs| >= WordsNeeded(DataType(c)) ==> r.Some?
    ensures DataType(c) == "string" <==> r.Some? && r.value.Text?
  {
    var t := DataType(c);
    if |regs| < WordsNeeded(t) then None
    else if t == "uint16" then Some(Num(regs[0] as real))
    else if t == "int16" then Some(Num(ToSigned16(regs[0]) as real))
    else if t == "uint32" then Some(Num(Join32(regs, SwapWord(c), GetEndianness(c)) as real))
    else if t == "int32" then Some(Num(ToSigned32(Join32(regs, SwapWord(c), GetEndianness(c))) as real))
    else if t == "float32" then
      Some(Num(bitsToFloat(if GetEndianness(c) == Big then Join(regs[0], regs[1]) else Join(regs[1], regs[0]))))
    else if t == "string" then Some(Text(DecodeString(regs, GetOr(c.count, 1))))
    else None
  }

  /** `value * scale` when the scale is not 1, else the value itself. */
  function ApplyScale(v: real, s: real): (r: real)
    ensures r == v * s
  {
    if s != 1.0 then v * s else v
  }

  /** `_decode_value`: raw decoding, then numbers are multiplied by the
      configured scale when it is not 1. */
  function Decode(regs: seq<Word>, c: RegConfig, bitsToFloat: int -> real): (r: Option<Value>)
    ensures DecodeRaw(regs, c, bitsToFloat).None? <==> r.None?
    ensures DecodeRaw(regs, c, bitsToFloat).Some? && DecodeRaw(regs, c, bitsToFloat).value.Text? ==>
      r == DecodeRaw(regs, c, bitsToFloat)
    ensures DecodeRaw(regs, c, bitsToFloat).Some? && DecodeRaw(regs, c, bitsToFloat).value.Num? ==>
      r == Some(Num(DecodeRaw(regs, c, bitsToFloat).value.n * Scale(c)))
  {
    var raw := DecodeRaw(regs, c, bitsToFloat);
    if raw.None? || raw.value.Text? then raw
    else Some(Num(ApplyScale(raw.value.n, Scale(c))))
  }

  /** A 32-bit pattern as two words, high word first for big endian. */
  function Split32(v: int, e: Endian): (r: seq<Word>)
    ensures |r| == 2
    ensures e == Big ==> r == [(v / TwoTo16) % TwoTo16, v % TwoTo16]
    ensures e == Little ==> r == [v % TwoTo16, (v / TwoTo16) % TwoTo16]
  {
    var hi := (v / TwoTo16) % TwoTo16;
    var lo := v % TwoTo16;
    if e == Big then [hi, lo] else [lo, hi]
  }

  /** `_encode_value`: with a scale other than 1 the value is first divided
      by it and truncated (a zero scale raises, giving no words); then
      16-bit types keep the low 16 bits, 32-bit types split into two words
      in the configured byte order (word swap is not consulted), and an
      unknown type gives no words. */
  function Encode(value: real, c: RegConfig, floatToBits: real -> int): (r: seq<Word>)
    ensures !IsKnownType(DataType(c)) || DataType(c) == "string" ==> r == []
    ensures Scale(c) == 0.0 ==> r == []
    ensures Scale(c) != 0.0 && DataType(c) in {"uint16", "int16"} ==> |r| == 1
    ensures Scale(c) != 0.0 && DataType(c) in {"uint32", "int32", "float32"} ==> |r| == 2
  {
    var s := Scale(c);
    if s != 1.0 && s == 0.0 then []
    else
      var v := if s != 1.0 then Trunc(value / s) as real else value;
      var t := DataType(c);
      if t == "uint16" || t == "int16" then [Trunc(v) % TwoTo16]
      else if t == "uint32" then Split32(Trunc(v), GetEndianness(c))
      else if t == "int32" then
        var u := Trunc(v);
        Split32(if u < 0 then u + TwoTo32 else u, GetEndianness(c))
      else if t == "float32" then Split32(floatToBits(v), GetEndianness(c))
      else []
  }

  function WithType(t: string, e: Endian): RegConfig
  {
    RegConfig(None, Some(t), None, Some(if e == Big then "big" else "little"), None, None, None, None, false)
  }

  lemma EndianOfWithType(t: string, e: Endian)
    ensures GetEndianness(WithType(t, e)) == e
  {
    assert Lower("big") == "big";
    assert Lower("little") == "little";
  }

  /** Unsigned 16-bit values survive a write followed by a read. */
  lemma Uint16RoundTrip(v: int, c: RegConfig, bitsToFloat: int -> real, floatToBits: real -> int)
    requires DataType(c) == "uint16" && Scale(c) == 1.0
    requires 0 <= v < TwoTo16
    ensures Decode(Encode(v as real, c, floatToBits), c, bitsToFloat) == Some(Num(v as real))
  {
    assert Encode(v as real, c, floatToBits) == [v] by {
      assert Trunc(v as real) == v;
    }
    assert DecodeRaw([v], c, bitsToFloat) == Some(Num(v as real));
  }

  /** Signed 16-bit values survive a write followed by a read. */
  lemma Int16RoundTrip(v: int, c: RegConfig, bitsToFloat: int -> real, floatToBits: real -> int)
    requires DataType(c) == "int16" && Scale(c) == 1.0
    requires -0x8000 <= v < 0x8000
    ensures Decode(Encode(v as real, c, floatToBits), c, bitsToFloat) == Some(Num(v as real))
  {
    var w: Word := v % TwoTo16;
    EncodeInt16(v as real, c, floatToBits);
    DecodeInt16(w, c, bitsToFloat);
    if v < 0 {
      assert w == v + TwoTo16;
    }
  }

  lemma EncodeInt16(value: real, c: RegConfig, floatToBits: real -> int)
    requires DataType(c) == "int16" && Scale(c) == 1.0
    ensures Encode(value, c, floatToBits) == [Trunc(value) % TwoTo16]
  {
  }

  lemma DecodeInt16(w: Word, c: RegConfig, bitsToFloat: int -> real)
    requires DataType(c) == "int16" && Scale(c) == 1.0
    ensures Decode([w], c, bitsToFloat) == Some(Num(ToSigned16(w) as real))
  {
  }

  lemma SplitJoinBig(u: int)
    requires 0 <= u < TwoTo32
    ensures var ws := Split32(u, Big); Join(ws[0], ws[1]) == u
  {
  }

  lemma SplitJoinLittle(u: int)
    requires 0 <= u < TwoTo32
    ensures var ws := Split32(u, Little); Join(ws[1], ws[0]) == u
  {
  }

  /** Unsigned 32-bit values survive a write followed by a read in either
      byte order when words are not swapped. */
  lemma Uint32RoundTrip(v: int, c: RegConfig, bitsToFloat: int -> real, floatToBits: real -> int)
    requires DataType(c) == "uint32" && Scale(c) == 1.0 && !SwapWord(c)
    requires 0 <= v < TwoTo32
    ensures Decode(Encode(v as real, c, floatToBits), c, bitsToFloat) == Some(Num(v as real))
  {
    var ws := Encode(v as real, c, floatToBits);
    assert ws == Split32(v, GetEndianness(c));
    if GetEndianness(c) == Big {
      SplitJoinBig(v);
    } else {
      SplitJoinLittle(v);
    }
    assert Join32(ws, false, GetEndianness(c)) == v;
  }

  /** Signed 32-bit values survive a write followed by a read in either
      byte order when words are not swapped: the write adds 2^32 to a
      negative value and the read subtracts it again. */
  lemma Int32RoundTrip(v: int, c: RegConfig, bitsToFloat: int -> real, floatToBits: real -> int)
    requires DataType(c) == "int32" && Scale(c) == 1.0 && !SwapWord(c)
    requires -TwoTo31 <= v < TwoTo31
    ensures Decode(Encode(v as real, c, floatToBits), c, bitsToFloat) == Some(Num(v as real))
  {
    var u := if v < 0 then v + TwoTo32 else v;
    var ws := Encode(v as real, c, floatToBits);
    assert ws == Split32(u, GetEndianness(c));
    if GetEndianness(c) == Big {
      SplitJoinBig(u);
    } else {
      SplitJoinLittle(u);
    }
    assert Join32(ws, false, GetEndianness(c)) == u;
    assert ToSigned32(u) == v;
  }

  /** With word swap a 32-bit read takes the second register as the high
      word whatever the byte order. */
  lemma SwapTakesSecondWordHigh(regs: seq<Word>, c: RegConfig, bitsToFloat: int -> real)
    requires DataType(c) == "uint32" && Scale(c) == 1.0 && SwapWord(c) && |regs| >= 2
    ensures Decode(regs, c, bitsToFloat) == Some(Num((regs[1] * TwoTo16 + regs[0]) as real))
  {
  }

  /** The signed 32-bit read with word swap also takes the second register
      as the high word, then reinterprets the joined value as two's complement. */
  lemma SwapTakesSecondWordHighSigned(regs: seq<Word>, c: RegConfig, bitsToFloat: int -> real)
    requires DataType(c) == "int32" && Scale(c) == 1.0 && SwapWord(c) && |regs| >= 2
    ensures Decode(regs, c, bitsToFloat) == Some(Num(ToSigned32(regs[1] * TwoTo16 + regs[0]) as real))
  {
    assert Join32(regs, true, GetEndianness(c)) == regs[1] * TwoTo16 + regs[0];
    assert DecodeRaw(regs, c, bitsToFloat)
        == Some(Num(ToSigned32(regs[1] * TwoTo16 + regs[0]) as real));
  }

  /** Encoding never looks at the word-swap setting. */
  lemma EncodeIgnoresSwap(value: real, c: RegConfig, s: Option<string>, floatToBits: real -> int)
    ensures Encode(value, c.(swap := s), floatToBits) == Encode(value, c, floatToBits)
  {
    assert GetEndianness(c.(swap := s)) == GetEndianness(c);
  }

  /** So a big-endian register with word swap does not read back what was
      written: 65536 is written as [1, 0] and read as 1. */
  lemma SwapBigDoesNotRoundTrip(bitsToFloat: int -> real, floatToBits: real -> int)
    ensures var c := WithType("uint32", Big).(swap := Some("word"));
      Encode(65536.0, c, floatToBits) == [1, 0]
      && Decode([1, 0], c, bitsToFloat) == Some(Num(1.0))
  {
    var c := WithType("uint32", Big).(swap := Some("word"));
    EndianOfWithType("uint32", Big);
    assert GetEndianness(c) == Big;
    assert Trunc(65536.0) == 65536;
  }

  /** An unknown data type reads as nothing and writes no words. */
  lemma UnknownType(regs: seq<Word>, value: real, c: RegConfig, bitsToFloat: int -> real,
                    floatToBits: real -> int)
    requires !IsKnownType(DataType(c))
    ensures Decode(regs, c, bitsToFloat).None?
    ensures Encode(value, c, floatToBits) == []
  {
  }

  /** Reading a text register: zero words add nothing, and nothing beyond
      the configured count or the registers returned is used. */
  lemma {:induction false} StringIgnoresZeroWords(a: seq<Word>, b: seq<Word>)
    requires forall i :: 0 <= i < |b| ==> b[i] == 0
    ensures StringChars(a + b) == StringChars(a)
    decreases |b|
  {
    if |b| > 0 {
      var ab := a + b;
      var init := b[..|b| - 1];
      assert StringChars(ab) == StringChars(ab[..|ab| - 1]) + WordChars(ab[|ab| - 1]);
      assert ab[..|ab| - 1] == a + init;
      assert ab[|ab| - 1] == 0;
      StringIgnoresZeroWords(a, init);
    } else {
      assert a + b == a;
    }
  }

  /** One text register that holds two printable characters decodes to
      those two characters, low byte first. */
  lemma StringLowByteFirst(hi: int, lo: int)
    requires 0x21 <= hi <= 0x7E && 0x21 <= lo <= 0x7E
    ensures DecodeString([hi * 256 + lo], 1) == [lo as char, hi as char]
  {
    var w: Word := hi * 256 + lo;
    var regs: seq<Word> := [w];
    var s := [lo as char, hi as char];
    PairChars(hi, lo);
    assert regs[..1] == regs && regs[..0] == [];
    assert StringChars(regs) == StringChars([]) + WordChars(w);
    assert !IsSpace(s[0]) && !IsSpace(s[1]);
    StripKeepsPrintable(s);
  }

  lemma PairChars(hi: int, lo: int)
    requires 0x21 <= hi <= 0x7E && 0x21 <= lo <= 0x7E
    ensures WordChars(hi * 256 + lo) == [lo as char, hi as char]
  {
    var w := hi * 256 + lo;
    assert w / 256 == hi && w % 256 == lo;
  }

  lemma StripKeepsPrintable(s: string)
    requires |s| > 0 && !IsSpace(s[0]) && !IsSpace(s[|s| - 1])
    ensures Strip(s) == s
  {
    assert StripLeft(s) == s;
    assert StripRight(s) == s;
  }
}
