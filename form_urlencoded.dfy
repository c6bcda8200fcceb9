/** The application/x-www-form-urlencoded serializer of the WHATWG URL
    Standard, section 5.2, which `URLSearchParams.prototype.toString` runs,
    and, as its partner, the parser of section 5.1 with a strict UTF-8
    decoder. The round trip `Parse(Serialize(pairs)) == Some(pairs)` shows
    that a query string determines exactly which name-value pairs, in which
    order, it was built from. */
module FormUrlEncoded {
  import opened Wrappers

  type Byte = b: int | 0 <= b < 256

  const Ampersand: Byte := 0x26
  const EqualsSign: Byte := 0x3D
  const PlusSign: Byte := 0x2B
  const PercentSign: Byte := 0x25
  const Space: Byte := 0x20

  // ---------------------------------------------------------------------------
  // UTF-8 (section 4 of RFC 3629)

  predicate IsContinuation(b: Byte) {
    0x80 <= b < 0xC0
  }

  /** The UTF-8 encoding of one Unicode scalar value: 1 to 4 bytes. */
  function Utf8EncodeChar(c: char): (bs: seq<Byte>)
    ensures 1 <= |bs| <= 4
    ensures |bs| == 1 <==> c as int < 0x80
    ensures |bs| == 1 ==> bs[0] == c as int
  {
    var cp := c as int;
    if cp < 0x80 then [cp]
    else if cp < 0x800 then [0xC0 + cp / 64, 0x80 + cp % 64]
    else if cp < 0x10000 then [0xE0 + cp / 4096, 0x80 + (cp / 64) % 64, 0x80 + cp % 64]
    else [0xF0 + cp / 262144, 0x80 + (cp / 4096) % 64, 0x80 + (cp / 64) % 64, 0x80 + cp % 64]
  }

  function Utf8Encode(s: string): seq<Byte> {
    if s == [] then [] else Utf8EncodeChar(s[0]) + Utf8Encode(s[1..])
  }

  /** The code point carried by a 2-, 3- or 4-byte sequence: the payload
      bits of the lead byte followed by six bits per continuation byte. */
  function Payload2(b0: int, b1: int): int { (b0 - 0xC0) * 64 + (b1 - 0x80) }
  function Payload3(b0: int, b1: int, b2: int): int {
    (b0 - 0xE0) * 4096 + (b1 - 0x80) * 64 + (b2 - 0x80)
  }
  function Payload4(b0: int, b1: int, b2: int, b3: int): int {
    (b0 - 0xF0) * 262144 + (b1 - 0x80) * 4096 + (b2 - 0x80) * 64 + (b3 - 0x80)
  }

  /** Decodes the first scalar value of `bs` and says how many bytes it took;
      overlong forms, surrogates and values past U+10FFFF are rejected. */
  function Utf8DecodeFirst(bs: seq<Byte>): (r: Option<(char, nat)>)
    requires bs != []
    ensures r.Some? ==> 1 <= r.value.1 <= |bs|
  {
    var b0: int := bs[0];
    if b0 < 0x80 then Some((b0 as char, 1))
    else if 0xC2 <= b0 < 0xE0 && |bs| >= 2 && IsContinuation(bs[1]) then
      Some((Payload2(b0, bs[1]) as char, 2))
    else if 0xE0 <= b0 < 0xF0 && |bs| >= 3 && IsContinuation(bs[1]) && IsContinuation(bs[2]) then
      var cp := Payload3(b0, bs[1], bs[2]);
      if 0x800 <= cp && !(0xD800 <= cp < 0xE000) then Some((cp as char, 3)) else None
    else if 0xF0 <= b0 < 0xF5 && |bs| >= 4
         && IsContinuation(bs[1]) && IsContinuation(bs[2]) && IsContinuation(bs[3]) then
      var cp := Payload4(b0, bs[1], bs[2], bs[3]);
      if 0x10000 <= cp < 0x110000 then Some((cp as char, 4)) else None
    else None
  }

  /** Strict UTF-8 decoding: None on any malformed sequence. */
  function Utf8Decode(bs: seq<Byte>): Option<string>
    decreases |bs|
  {
    if bs == [] then Some([])
    else
      match Utf8DecodeFirst(bs)
      case None => None
      case Some((c, n)) =>
        match Utf8Decode(bs[n..])
        case None => None
        case Some(rest) => Some([c] + rest)
  }

  lemma SixBitSplit(cp: nat)
    ensures cp == (cp / 64) * 64 + cp % 64
    ensures cp / 64 == (cp / 4096) * 64 + (cp / 64) % 64
    ensures cp / 4096 == (cp / 262144) * 64 + (cp / 4096) % 64
  {
  }

  /** Decoding the encoding of `c` yields `c` and consumes exactly its bytes. */
  lemma Utf8CharRoundTrip(c: char, rest: seq<Byte>)
    ensures Utf8DecodeFirst(Utf8EncodeChar(c) + rest) == Some((c, |Utf8EncodeChar(c)|))
  {
    var cp := c as int;
    var bs := Utf8EncodeChar(c) + rest;
    SixBitSplit(cp);
    if cp < 0x80 {
    } else if cp < 0x800 {
      assert bs[0] == 0xC0 + cp / 64 && bs[1] == 0x80 + cp % 64;
      assert Payload2(bs[0], bs[1]) == cp;
    } else if cp < 0x10000 {
      assert bs[0] == 0xE0 + cp / 4096;
      assert bs[1] == 0x80 + (cp / 64) % 64 && bs[2] == 0x80 + cp % 64;
      assert Payload3(bs[0], bs[1], bs[2]) == cp;
    } else {
      assert bs[0] == 0xF0 + cp / 262144 && bs[1] == 0x80 + (cp / 4096) % 64;
      assert bs[2] == 0x80 + (cp / 64) % 64 && bs[3] == 0x80 + cp % 64;
      assert Payload4(bs[0], bs[1], bs[2], bs[3]) == cp;
    }
  }

  /** Strict UTF-8 decoding inverts UTF-8 encoding. */
  lemma {:induction false} Utf8RoundTrip(s: string)
    ensures Utf8Decode(Utf8Encode(s)) == Some(s)
  {
    if s != [] {
      var head := Utf8EncodeChar(s[0]);
      var tail := Utf8Encode(s[1..]);
      Utf8CharRoundTrip(s[0], tail);
      assert (head + tail)[|head|..] == tail;
      Utf8RoundTrip(s[1..]);
      assert [s[0]] + s[1..] == s;
    }
  }

  lemma {:induction false} Utf8EncodeAppend(a: string, b: string)
    ensures Utf8Encode(a + b) == Utf8Encode(a) + Utf8Encode(b)
  {
    if a == [] {
      assert a + b == b;
    } else {
      assert (a + b)[0] == a[0];
      assert (a + b)[1..] == a[1..] + b;
      Utf8EncodeAppend(a[1..], b);
    }
  }

  // ---------------------------------------------------------------------------
  // Percent-encoding (sections 1.3 and 5.2 of the URL Standard)

  /** The bytes the application/x-www-form-urlencoded percent-encode set
      leaves alone: ASCII alphanumerics and `*`, `-`, `.`, `_`. */
  predicate IsFormSafe(b: Byte) {
    || (0x30 <= b <= 0x39) || (0x41 <= b <= 0x5A) || (0x61 <= b <= 0x7A)
    || b == 0x2A || b == 0x2D || b == 0x2E || b == 0x5F
  }

  function HexDigit(d: nat): (c: char)
    requires d < 16
    ensures c as int < 0x80 && IsHexByte(c as int) && HexValue(c as int) == d
  {
    if d < 10 then (0x30 + d) as char else (0x41 + d - 10) as char
  }

  predicate IsHexByte(b: Byte) {
    (0x30 <= b <= 0x39) || (0x41 <= b <= 0x46) || (0x61 <= b <= 0x66)
  }

  function HexValue(b: Byte): (d: nat)
    requires IsHexByte(b)
    ensures d < 16
  {
    if b <= 0x39 then b - 0x30 else if b <= 0x46 then b - 0x41 + 10 else b - 0x61 + 10
  }

  /** A byte as it appears in serialized form: space as `+`, a safe byte as
      itself, anything else as `%` and two upper-case hex digits. */
  function PercentEncodeByte(b: Byte): (r: string)
    ensures forall k | 0 <= k < |r| :: IsFormChar(r[k])
  {
    if b == Space then "+"
    else if IsFormSafe(b) then [b as char]
    else ['%', HexDigit(b / 16), HexDigit(b % 16)]
  }

  function PercentEncodeBytes(bs: seq<Byte>): (r: string)
    ensures forall k | 0 <= k < |r| :: IsFormChar(r[k])
  {
    if bs == [] then "" else PercentEncodeByte(bs[0]) + PercentEncodeBytes(bs[1..])
  }

  /** Characters a serialized component can contain: ASCII, and never the
      `&` and `=` that delimit pairs. */
  predicate IsFormChar(c: char) {
    c as int < 0x80 && c != '&' && c != '='
  }

  /** The percent-encode-after-encoding of `s` with UTF-8, the
      application/x-www-form-urlencoded percent-encode set and spaces as `+`. */
  function EncodeComponent(s: string): (r: string)
    ensures forall k | 0 <= k < |r| :: IsFormChar(r[k])
  {
    PercentEncodeBytes(Utf8Encode(s))
  }

  /** One serialized pair: `name=value`. */
  function SerializePair(p: (string, string)): string {
    EncodeComponent(p.0) + "=" + EncodeComponent(p.1)
  }

  /** The application/x-www-form-urlencoded serializer: the serialized pairs
      in order, separated by `&`. (The standard appends `&` before a pair when
      the output so far is non-empty; every serialized pair contains `=`, so
      that is exactly "between consecutive pairs".) */
  function Serialize(pairs: seq<(string, string)>): string {
    if |pairs| == 0 then ""
    else if |pairs| == 1 then SerializePair(pairs[0])
    else SerializePair(pairs[0]) + "&" + Serialize(pairs[1..])
  }

  lemma SerializeEmptyIff(pairs: seq<(string, string)>)
    ensures Serialize(pairs) == "" <==> pairs == []
  {
    if pairs != [] {
      assert '=' in SerializePair(pairs[0]);
      assert SerializePair(pairs[0]) <= Serialize(pairs);
    }
  }

  // ---------------------------------------------------------------------------
  // The parser of section 5.1, used as the serializer's partner

  /** Splits `bs` on every `sep`; there is always at least one part. */
  function Split(bs: seq<Byte>, sep: Byte): (parts: seq<seq<Byte>>)
    ensures |parts| >= 1
  {
    if bs == [] then [[]]
    else if bs[0] == sep then [[]] + Split(bs[1..], sep)
    else
      var rest := Split(bs[1..], sep);
      [[bs[0]] + rest[0]] + rest[1..]
  }

  /** Splits `bs` at its first `sep` (dropping it); without one, the second
      half is empty. */
  function SplitAtFirst(bs: seq<Byte>, sep: Byte): (seq<Byte>, seq<Byte>) {
    if bs == [] then ([], [])
    else if bs[0] == sep then ([], bs[1..])
    else
      var (a, b) := SplitAtFirst(bs[1..], sep);
      ([bs[0]] + a, b)
  }

  function PlusToSpace(bs: seq<Byte>): seq<Byte> {
    if bs == [] then [] else [if bs[0] == PlusSign then Space else bs[0]] + PlusToSpace(bs[1..])
  }

  /** Percent-decoding: `%` followed by two hex digits (either case) stands
      for one byte; every other byte, a stray `%` included, stands for itself. */
  function PercentDecode(bs: seq<Byte>): seq<Byte>
    decreases |bs|
  {
    if bs == [] then []
    else if bs[0] == PercentSign && |bs| >= 3 && IsHexByte(bs[1]) && IsHexByte(bs[2]) then
      [HexValue(bs[1]) * 16 + HexValue(bs[2])] + PercentDecode(bs[3..])
    else [bs[0]] + PercentDecode(bs[1..])
  }

  function DecodeComponent(bs: seq<Byte>): Option<string> {
    Utf8Decode(PercentDecode(PlusToSpace(bs)))
  }

  function ParseSequences(parts: seq<seq<Byte>>): Option<seq<(string, string)>> {
    if parts == [] then Some([])
    else if parts[0] == [] then ParseSequences(parts[1..])
    else
      var (nameBytes, valueBytes) := SplitAtFirst(parts[0], EqualsSign);
      match (DecodeComponent(nameBytes), DecodeComponent(valueBytes), ParseSequences(parts[1..]))
      case (Some(name), Some(value), Some(rest)) => Some([(name, value)] + rest)
      case _ => None
  }

  /** The application/x-www-form-urlencoded parser applied to the UTF-8
      encoding of `query`, failing where the standard would substitute
      U+FFFD for malformed UTF-8. */
  function Parse(query: string): Option<seq<(string, string)>> {
    ParseSequences(Split(Utf8Encode(query), Ampersand))
  }

  // ---------------------------------------------------------------------------
  // Round trip

  /** The bytes of a string of ASCII characters are its character codes. */
  function AsciiBytes(s: string): seq<Byte>
    requires forall k | 0 <= k < |s| :: s[k] as int < 0x80
  {
    seq(|s|, k requires 0 <= k < |s| => s[k] as int)
  }

  lemma {:induction false} Utf8EncodeAscii(s: string)
    requires forall k | 0 <= k < |s| :: s[k] as int < 0x80
    ensures Utf8Encode(s) == AsciiBytes(s)
  {
    if s != [] {
      Utf8EncodeAscii(s[1..]);
      assert AsciiBytes(s) == [s[0] as int] + AsciiBytes(s[1..]);
    }
  }

  /** The serialized bytes of one input byte, before `+` is turned back into
      a space and percent-escapes are decoded. */
  lemma EncodedByteDecodes(b: Byte, rest: seq<Byte>)
    ensures var t := Utf8Encode(PercentEncodeByte(b));
      PercentDecode(PlusToSpace(t) + rest) == [b] + PercentDecode(rest)
  {
    var e := PercentEncodeByte(b);
    Utf8EncodeAscii(e);
    var t := Utf8Encode(e);
    if b == Space {
      assert t == [PlusSign];
      assert PlusToSpace(t) == [Space];
    } else if IsFormSafe(b) {
      assert t == [b];
      assert PlusToSpace(t) == [b];
    } else {
      var h1, h2 := HexDigit(b / 16), HexDigit(b % 16);
      assert t == [PercentSign, h1 as int, h2 as int];
      assert PlusToSpace(t) == t by {
        assert PlusToSpace(t) == [t[0]] + PlusToSpace(t[1..]);
        assert PlusToSpace(t[1..]) == [t[1]] + PlusToSpace(t[2..]);
        assert PlusToSpace(t[2..]) == [t[2]] + PlusToSpace([]);
      }
      var u := t + rest;
      assert u[3..] == rest;
      assert HexValue(h1 as int) * 16 + HexValue(h2 as int) == b;
    }
  }

  lemma {:induction false} PlusToSpaceAppend(a: seq<Byte>, b: seq<Byte>)
    ensures PlusToSpace(a + b) == PlusToSpace(a) + PlusToSpace(b)
  {
    if a == [] {
      assert a + b == b;
    } else {
      assert (a + b)[0] == a[0];
      assert (a + b)[1..] == a[1..] + b;
      PlusToSpaceAppend(a[1..], b);
    }
  }

  /** Decoding the serialized form of a byte string gives the byte string. */
  lemma {:induction false} PercentRoundTrip(bs: seq<Byte>)
    ensures PercentDecode(PlusToSpace(Utf8Encode(PercentEncodeBytes(bs)))) == bs
  {
    if bs != [] {
      var e := PercentEncodeByte(bs[0]);
      var f := PercentEncodeBytes(bs[1..]);
      Utf8EncodeAppend(e, f);
      PlusToSpaceAppend(Utf8Encode(e), Utf8Encode(f));
      EncodedByteDecodes(bs[0], PlusToSpace(Utf8Encode(f)));
      PercentRoundTrip(bs[1..]);
    }
  }

  /** A serialized component decodes to the original string. */
  lemma ComponentRoundTrip(s: string)
    ensures DecodeComponent(Utf8Encode(EncodeComponent(s))) == Some(s)
  {
    PercentRoundTrip(Utf8Encode(s));
    Utf8RoundTrip(s);
  }

  /** The bytes of a serialized component contain neither delimiter. */
  lemma ComponentBytesDelimiterFree(s: string)
    ensures var bs := Utf8Encode(EncodeComponent(s));
      Ampersand !in bs && EqualsSign !in bs
  {
    var e := EncodeComponent(s);
    Utf8EncodeAscii(e);
  }

  /** The bytes of one serialized pair. */
  function PairBytes(p: (string, string)): seq<Byte> {
    Utf8Encode(EncodeComponent(p.0)) + [EqualsSign] + Utf8Encode(EncodeComponent(p.1))
  }

  /** The bytes of each serialized pair, one sequence per pair. */
  function PairsBytes(pairs: seq<(string, string)>): seq<seq<Byte>> {
    if pairs == [] then [] else [PairBytes(pairs[0])] + PairsBytes(pairs[1..])
  }

  lemma PairBytesOf(p: (string, string))
    ensures Utf8Encode(SerializePair(p)) == PairBytes(p)
    ensures Ampersand !in PairBytes(p)
  {
    var a, b := EncodeComponent(p.0), EncodeComponent(p.1);
    Utf8EncodeAppend(a + "=", b);
    Utf8EncodeAppend(a, "=");
    ComponentBytesDelimiterFree(p.0);
    ComponentBytesDelimiterFree(p.1);
  }

  lemma {:induction false} SplitWithoutSeparator(x: seq<Byte>, sep: Byte)
    requires sep !in x
    ensures Split(x, sep) == [x]
  {
    if x != [] {
      SplitWithoutSeparator(x[1..], sep);
      assert [x[0]] + x[1..] == x;
    }
  }

  lemma {:induction false} SplitAfterPart(x: seq<Byte>, y: seq<Byte>, sep: Byte)
    requires sep !in x
    ensures Split(x + [sep] + y, sep) == [x] + Split(y, sep)
  {
    var z := x + [sep] + y;
    if x == [] {
      assert z == [sep] + y;
      assert z[1..] == y;
    } else {
      assert z[1..] == x[1..] + [sep] + y;
      SplitAfterPart(x[1..], y, sep);
      assert [x[0]] + x[1..] == x;
    }
  }

  lemma {:induction false} SplitAtFirstSeparator(x: seq<Byte>, y: seq<Byte>, sep: Byte)
    requires sep !in x
    ensures SplitAtFirst(x + [sep] + y, sep) == (x, y)
  {
    var z := x + [sep] + y;
    if x == [] {
      assert z == [sep] + y;
      assert z[1..] == y;
    } else {
      assert z[1..] == x[1..] + [sep] + y;
      SplitAtFirstSeparator(x[1..], y, sep);
      assert [x[0]] + x[1..] == x;
    }
  }

  /** The serialized query, split on `&`, is the list of serialized pairs. */
  lemma {:induction false} SplitSerialized(pairs: seq<(string, string)>)
    requires pairs != []
    ensures Split(Utf8Encode(Serialize(pairs)), Ampersand) == PairsBytes(pairs)
  {
    PairBytesOf(pairs[0]);
    if |pairs| == 1 {
      SplitWithoutSeparator(PairBytes(pairs[0]), Ampersand);
    } else {
      var rest := Serialize(pairs[1..]);
      Utf8EncodeAppend(SerializePair(pairs[0]) + "&", rest);
      Utf8EncodeAppend(SerializePair(pairs[0]), "&");
      assert Utf8Encode("&") == [Ampersand];
      assert Utf8Encode(Serialize(pairs)) == PairBytes(pairs[0]) + [Ampersand] + Utf8Encode(rest);
      SplitAfterPart(PairBytes(pairs[0]), Utf8Encode(rest), Ampersand);
      SplitSerialized(pairs[1..]);
    }
  }

  lemma {:induction false} ParsePairs(pairs: seq<(string, string)>)
    ensures ParseSequences(PairsBytes(pairs)) == Some(pairs)
  {
    var parts := PairsBytes(pairs);
    if pairs != [] {
      var p := pairs[0];
      var name, value := Utf8Encode(EncodeComponent(p.0)), Utf8Encode(EncodeComponent(p.1));
      ComponentBytesDelimiterFree(p.0);
      assert parts[0] == name + [EqualsSign] + value;
      assert parts[0] != [];
      SplitAtFirstSeparator(name, value, EqualsSign);
      ComponentRoundTrip(p.0);
      ComponentRoundTrip(p.1);
      assert parts[1..] == PairsBytes(pairs[1..]);
      ParsePairs(pairs[1..]);
      assert [p] + pairs[1..] == pairs;
    }
  }

  /** Parsing a serialized query gives back exactly the pairs it was built
      from, in order. */
  lemma QueryRoundTrip(pairs: seq<(string, string)>)
    ensures Parse(Serialize(pairs)) == Some(pairs)
  {
    if pairs == [] {
      var parts := Split(Utf8Encode(""), Ampersand);
      assert parts == [[]];
      assert ParseSequences(parts) == ParseSequences(parts[1..]);
      assert parts[1..] == [];
    } else {
      SplitSerialized(pairs);
      ParsePairs(pairs);
    }
  }
}
