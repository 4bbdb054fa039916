/** The codecs the mojibake repair goes through: Latin-1 and Windows-1252 encoding with
    `errors="ignore"`, UTF-8 decoding with `errors="ignore"`, and the UTF-8 encoder and
    the single-byte decoders that produce mojibake in the first place. */
module Encoding {
  import opened Wrappers

  newtype byte = x: int | 0 <= x < 256

  // ---------------------------------------------------------------------------
  // Latin-1
  // ---------------------------------------------------------------------------

  /** `s.encode("latin1", errors="ignore")`: code points up to U+00FF become the byte of
      the same value, all others are dropped. */
  function Latin1Encode(s: string): (bs: seq<byte>)
    ensures |bs| <= |s|
  {
    if s == [] then []
    else (if s[0] as int < 256 then [s[0] as int as byte] else []) + Latin1Encode(s[1..])
  }

  /** The bytes are exactly the Latin-1 characters of the text, in order: read back as
      Latin-1 they give those characters and nothing else. */
  lemma {:induction false} Latin1EncodeKeepsLatin1Chars(s: string)
    ensures Latin1Decode(Latin1Encode(s)) == Latin1Chars(s)
  {
    if s != [] {
      Latin1EncodeKeepsLatin1Chars(s[1..]);
      var rest := Latin1Encode(s[1..]);
      if s[0] as int < 256 {
        assert ([s[0] as int as byte] + rest)[1..] == rest;
      } else {
        assert Latin1Encode(s) == rest;
      }
    }
  }

  /** The characters of `s` that have a Latin-1 byte (U+0000 to U+00FF), in order. */
  function Latin1Chars(s: string): (r: string)
    ensures |r| <= |s|
  {
    if s == [] then []
    else (if s[0] as int < 256 then [s[0]] else []) + Latin1Chars(s[1..])
  }

  /** The encoder works character by character: the bytes of a concatenation are the
      bytes of its parts, so a character without a Latin-1 byte is dropped wherever it
      stands and the characters around it keep their order. */
  lemma {:induction false} Latin1EncodeAppend(a: string, b: string)
    ensures Latin1Encode(a + b) == Latin1Encode(a) + Latin1Encode(b)
  {
    if a == [] {
      assert a + b == b;
    } else {
      assert (a + b)[0] == a[0] && (a + b)[1..] == a[1..] + b;
      Latin1EncodeAppend(a[1..], b);
    }
  }

  /** `bs.decode("latin1")`: every byte is the code point of the same value. */
  function Latin1Decode(bs: seq<byte>): (s: string)
    ensures |s| == |bs|
  {
    if bs == [] then [] else [bs[0] as int as char] + Latin1Decode(bs[1..])
  }

  /** Bytes read as Latin-1 and written back as Latin-1 are unchanged. */
  lemma {:induction false} Latin1RoundTrip(bs: seq<byte>)
    ensures Latin1Encode(Latin1Decode(bs)) == bs
  {
    if bs != [] {
      Latin1RoundTrip(bs[1..]);
      assert Latin1Decode(bs)[1..] == Latin1Decode(bs[1..]);
    }
  }

  // ---------------------------------------------------------------------------
  // Windows-1252
  // ---------------------------------------------------------------------------

  /** The code point Windows-1252 gives a byte in 0x80-0x9F, or -1 for the five bytes it
      leaves undefined (0x81, 0x8D, 0x8F, 0x90, 0x9D). Every other byte is its own code point. */
  function Cp1252High(b: int): int
    requires 0x80 <= b < 0xA0
  {
    if b == 0x80 then 0x20AC else if b == 0x82 then 0x201A else if b == 0x83 then 0x0192
    else if b == 0x84 then 0x201E else if b == 0x85 then 0x2026 else if b == 0x86 then 0x2020
    else if b == 0x87 then 0x2021 else if b == 0x88 then 0x02C6 else if b == 0x89 then 0x2030
    else if b == 0x8A then 0x0160 else if b == 0x8B then 0x2039 else if b == 0x8C then 0x0152
    else if b == 0x8E then 0x017D else if b == 0x91 then 0x2018 else if b == 0x92 then 0x2019
    else if b == 0x93 then 0x201C else if b == 0x94 then 0x201D else if b == 0x95 then 0x2022
    else if b == 0x96 then 0x2013 else if b == 0x97 then 0x2014 else if b == 0x98 then 0x02DC
    else if b == 0x99 then 0x2122 else if b == 0x9A then 0x0161 else if b == 0x9B then 0x203A
    else if b == 0x9C then 0x0153 else if b == 0x9E then 0x017E else if b == 0x9F then 0x0178
    else -1
  }

  /** The byte Windows-1252 uses for a code point outside its identity ranges, or -1. */
  function Cp1252HighByte(c: int): int {
    if c == 0x20AC then 0x80 else if c == 0x201A then 0x82 else if c == 0x0192 then 0x83
    else if c == 0x201E then 0x84 else if c == 0x2026 then 0x85 else if c == 0x2020 then 0x86
    else if c == 0x2021 then 0x87 else if c == 0x02C6 then 0x88 else if c == 0x2030 then 0x89
    else if c == 0x0160 then 0x8A else if c == 0x2039 then 0x8B else if c == 0x0152 then 0x8C
    else if c == 0x017D then 0x8E else if c == 0x2018 then 0x91 else if c == 0x2019 then 0x92
    else if c == 0x201C then 0x93 else if c == 0x201D then 0x94 else if c == 0x2022 then 0x95
    else if c == 0x2013 then 0x96 else if c == 0x2014 then 0x97 else if c == 0x02DC then 0x98
    else if c == 0x2122 then 0x99 else if c == 0x0161 then 0x9A else if c == 0x203A then 0x9B
    else if c == 0x0153 then 0x9C else if c == 0x017E then 0x9E else if c == 0x0178 then 0x9F
    else -1
  }

  predicate Cp1252Defined(b: byte) {
    b < 0x80 || b >= 0xA0 || Cp1252High(b as int) >= 0
  }

  /** The character Windows-1252 gives a defined byte. */
  function Cp1252Char(b: byte): char
    requires Cp1252Defined(b)
  {
    if b < 0x80 || b >= 0xA0 then b as int as char else Cp1252High(b as int) as char
  }

  /** `bs.decode("cp1252")`: `None` where Python raises on an undefined byte. */
  function Cp1252Decode(bs: seq<byte>): (r: Option<string>)
    ensures r.Some? <==> forall i :: 0 <= i < |bs| ==> Cp1252Defined(bs[i])
    ensures r.Some? ==> |r.value| == |bs|
  {
    if bs == [] then Some([])
    else if !Cp1252Defined(bs[0]) then None
    else match Cp1252Decode(bs[1..])
      case None => None
      case Some(rest) => Some([Cp1252Char(bs[0])] + rest)
  }

  /** The byte of one character in Windows-1252, if it has one. */
  function Cp1252Byte(c: char): Option<byte> {
    if c as int < 0x80 || 0xA0 <= c as int < 0x100 then Some(c as int as byte)
    else if Cp1252HighByte(c as int) >= 0 then Some(Cp1252HighByte(c as int) as byte)
    else None
  }

  /** `s.encode("cp1252", errors="ignore")`. */
  function Cp1252Encode(s: string): (bs: seq<byte>)
    ensures |bs| <= |s|
  {
    if s == [] then []
    else (match Cp1252Byte(s[0]) case Some(b) => [b] case None => []) + Cp1252Encode(s[1..])
  }

  lemma Cp1252ByteOfChar(b: byte)
    requires Cp1252Defined(b)
    ensures Cp1252Byte(Cp1252Char(b)) == Some(b)
  {
  }

  /** Bytes that Windows-1252 defines, read and written back, are unchanged. */
  lemma {:induction false} Cp1252RoundTrip(bs: seq<byte>)
    requires Cp1252Decode(bs).Some?
    ensures Cp1252Encode(Cp1252Decode(bs).value) == bs
  {
    if bs != [] {
      Cp1252ByteOfChar(bs[0]);
      Cp1252RoundTrip(bs[1..]);
      var s := Cp1252Decode(bs).value;
      assert s[0] == Cp1252Char(bs[0]) && s[1..] == Cp1252Decode(bs[1..]).value;
    }
  }

  // ---------------------------------------------------------------------------
  // UTF-8
  // ---------------------------------------------------------------------------

  predicate IsCont(b: byte) {
    0x80 <= b < 0xC0
  }

  /** The length of the well-formed UTF-8 sequence that starts `bs` (Table 3-7 of the
      Unicode Standard), or 0 when none does. */
  function SeqLen(bs: seq<byte>): (n: nat)
    ensures n <= |bs| && n <= 4
  {
    if |bs| == 0 then 0
    else
      var b0 := bs[0];
      if b0 < 0x80 then 1
      else if 0xC2 <= b0 <= 0xDF then
        (if |bs| >= 2 && IsCont(bs[1]) then 2 else 0)
      else if 0xE0 <= b0 <= 0xEF then
        var lo: byte := if b0 == 0xE0 then 0xA0 else 0x80;
        var hi: byte := if b0 == 0xED then 0x9F else 0xBF;
        (if |bs| >= 3 && lo <= bs[1] <= hi && IsCont(bs[2]) then 3 else 0)
      else if 0xF0 <= b0 <= 0xF4 then
        var lo: byte := if b0 == 0xF0 then 0x90 else 0x80;
        var hi: byte := if b0 == 0xF4 then 0x8F else 0xBF;
        (if |bs| >= 4 && lo <= bs[1] <= hi && IsCont(bs[2]) && IsCont(bs[3]) then 4 else 0)
      else 0
  }

  /** The character a well-formed sequence at the start of `bs` stands for. */
  function SeqChar(bs: seq<byte>): char
    requires SeqLen(bs) > 0
  {
    var n := SeqLen(bs);
    var b0 := bs[0] as int;
    if n == 1 then b0 as char
    else if n == 2 then ((b0 - 0xC0) * 64 + (bs[1] as int - 0x80)) as char
    else if n == 3 then
      ((b0 - 0xE0) * 4096 + (bs[1] as int - 0x80) * 64 + (bs[2] as int - 0x80)) as char
    else
      ((b0 - 0xF0) * 262144 + (bs[1] as int - 0x80) * 4096 + (bs[2] as int - 0x80) * 64
        + (bs[3] as int - 0x80)) as char
  }

  /** `bs.decode("utf-8", errors="ignore")`: well-formed sequences become their
      characters and every other byte is dropped. (CPython drops a maximal ill-formed
      prefix at once; the bytes after its first are continuation bytes, which can never
      start a sequence, so dropping one byte at a time gives the same string.) */
  function Utf8Decode(bs: seq<byte>): string
    decreases |bs|
  {
    if bs == [] then []
    else if SeqLen(bs) == 0 then Utf8Decode(bs[1..])
    else [SeqChar(bs)] + Utf8Decode(bs[SeqLen(bs)..])
  }

  /** The UTF-8 encoding of one character. */
  function EncodeChar(c: char): (bs: seq<byte>)
    ensures 1 <= |bs| <= 4
  {
    var n := c as int;
    if n < 0x80 then [n as byte]
    else if n < 0x800 then [(0xC0 + n / 64) as byte, (0x80 + n % 64) as byte]
    else if n < 0x10000 then
      [(0xE0 + n / 4096) as byte, (0x80 + (n / 64) % 64) as byte, (0x80 + n % 64) as byte]
    else
      [(0xF0 + n / 262144) as byte, (0x80 + (n / 4096) % 64) as byte,
       (0x80 + (n / 64) % 64) as byte, (0x80 + n % 64) as byte]
  }

  /** `s.encode("utf-8")` */
  function Utf8Encode(s: string): seq<byte> {
    if s == [] then [] else EncodeChar(s[0]) + Utf8Encode(s[1..])
  }

  lemma Div64(n: int)
    requires n >= 0
    ensures (n / 64) / 64 == n / 4096
    ensures ((n / 64) / 64) / 64 == n / 262144
  {
    var q := n / 64;
    assert n == 64 * q + n % 64;
    assert q == 64 * (q / 64) + q % 64;
    assert n == 4096 * (q / 64) + (64 * (q % 64) + n % 64);
    var q2 := q / 64;
    assert q2 == 64 * (q2 / 64) + q2 % 64;
    assert n == 262144 * (q2 / 64) + (4096 * (q2 % 64) + 64 * (q % 64) + n % 64);
  }

  /** A character's encoding, followed by anything, is read back as that character. */
  lemma DecodeEncodedChar(c: char, rest: seq<byte>)
    ensures SeqLen(EncodeChar(c) + rest) == |EncodeChar(c)|
    ensures SeqChar(EncodeChar(c) + rest) == c
  {
    var n := c as int;
    var bs := EncodeChar(c) + rest;
    Div64(n);
    if n < 0x80 {
    } else if n < 0x800 {
      assert n == 64 * (n / 64) + n % 64;
    } else if n < 0x10000 {
      assert n == 64 * (n / 64) + n % 64;
      assert n / 64 == 64 * (n / 4096) + (n / 64) % 64;
      assert bs[0] as int == 0xE0 + n / 4096;
      assert bs[1] as int == 0x80 + (n / 64) % 64;
    } else {
      assert n == 64 * (n / 64) + n % 64;
      assert n / 64 == 64 * (n / 4096) + (n / 64) % 64;
      assert n / 4096 == 64 * (n / 262144) + (n / 4096) % 64;
      assert bs[0] as int == 0xF0 + n / 262144;
      assert bs[1] as int == 0x80 + (n / 4096) % 64;
    }
  }

  /** UTF-8 decoding undoes UTF-8 encoding. */
  lemma {:induction false} Utf8RoundTrip(s: string)
    ensures Utf8Decode(Utf8Encode(s)) == s
  {
    if s != [] {
      var e := EncodeChar(s[0]);
      var rest := Utf8Encode(s[1..]);
      DecodeEncodedChar(s[0], rest);
      assert (e + rest)[|e|..] == rest;
      Utf8RoundTrip(s[1..]);
    }
  }
}
