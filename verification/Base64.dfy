/** The base64 text of content chunks and input-file parts: section 4 of RFC 4648, with the
    unused bits zero as section 3.5 asks. */
module Base64 {

  type Byte = n: int | 0 <= n < 256

  predicate IsDigit(ch: char) {
    'A' <= ch <= 'Z' || 'a' <= ch <= 'z' || '0' <= ch <= '9' || ch == '+' || ch == '/'
  }

  function ValueOf(ch: char): (v: int)
    requires IsDigit(ch)
    ensures 0 <= v < 64
  {
    if 'A' <= ch <= 'Z' then ch as int - 'A' as int
    else if 'a' <= ch <= 'z' then ch as int - 'a' as int + 26
    else if '0' <= ch <= '9' then ch as int - '0' as int + 52
    else if ch == '+' then 62
    else 63
  }

  function DigitOf(v: int): (ch: char)
    requires 0 <= v < 64
    ensures IsDigit(ch)
  {
    if v < 26 then ('A' as int + v) as char
    else if v < 52 then ('a' as int + (v - 26)) as char
    else if v < 62 then ('0' as int + (v - 52)) as char
    else if v == 62 then '+'
    else '/'
  }

  lemma DigitRoundTrip(v: int)
    requires 0 <= v < 64
    ensures ValueOf(DigitOf(v)) == v
  {}

  lemma ValueRoundTrip(ch: char)
    requires IsDigit(ch)
    ensures DigitOf(ValueOf(ch)) == ch
  {}

  // ---------- The three text forms ----------

  predicate IsQuad(s: string) { |s| >= 4 && IsDigit(s[0]) && IsDigit(s[1]) && IsDigit(s[2]) && IsDigit(s[3]) }

  predicate IsLooseTail(s: string) {
    |s| == 4 && IsDigit(s[0]) && IsDigit(s[1]) && s[3] == '=' && (s[2] == '=' || IsDigit(s[2]))
  }

  /** The digits whose unused bits are zero, as the chunk pattern lists them. */
  predicate IsCanonicalTail(s: string) {
    && |s| == 4 && IsDigit(s[0]) && s[3] == '='
    && ((s[1] in "AQgw" && s[2] == '=') || (IsDigit(s[1]) && s[2] in "AEIMQUYcgkosw048"))
  }

  /** The pattern of an input-file part: whole quadruples, then perhaps a padded one. */
  predicate IsLoose(s: string) { s == [] || IsLooseTail(s) || (IsQuad(s) && IsLoose(s[4..])) }

  /** The pattern of a content chunk. */
  predicate IsCanonical(s: string) { s == [] || IsCanonicalTail(s) || (IsQuad(s) && IsCanonical(s[4..])) }

  function Padding(s: string): nat {
    if |s| >= 2 && s[|s| - 2..] == "==" then 2 else if |s| >= 1 && s[|s| - 1] == '=' then 1 else 0
  }

  // ---------- Encoding and decoding ----------

  function Encode(bytes: seq<Byte>): string {
    if bytes == [] then []
    else if |bytes| == 1 then [DigitOf(bytes[0] / 4), DigitOf(bytes[0] % 4 * 16), '=', '=']
    else if |bytes| == 2 then
      [DigitOf(bytes[0] / 4), DigitOf(bytes[0] % 4 * 16 + bytes[1] / 16), DigitOf(bytes[1] % 16 * 4), '=']
    else
      [DigitOf(bytes[0] / 4), DigitOf(bytes[0] % 4 * 16 + bytes[1] / 16),
       DigitOf(bytes[1] % 16 * 4 + bytes[2] / 64), DigitOf(bytes[2] % 64)] + Encode(bytes[3..])
  }

  /** Unused bits are dropped. */
  function Decode(s: string): seq<Byte>
    requires IsLoose(s)
  {
    if s == [] then []
    else
      var a, b := ValueOf(s[0]), ValueOf(s[1]);
      if s[2] == '=' then [a * 4 + b / 16]
      else
        var c := ValueOf(s[2]);
        if s[3] == '=' then [a * 4 + b / 16, b % 16 * 16 + c / 4]
        else [a * 4 + b / 16, b % 16 * 16 + c / 4, c % 4 * 64 + ValueOf(s[3])] + Decode(s[4..])
  }

  lemma OneByteTail(ch: char)
    ensures ch in "AQgw" <==> IsDigit(ch) && ValueOf(ch) % 16 == 0
  {}

  lemma TwoByteTail(ch: char)
    ensures ch in "AEIMQUYcgkosw048" <==> IsDigit(ch) && ValueOf(ch) % 4 == 0
  {}

  lemma {:induction false} CanonicalIsLoose(s: string)
    requires IsCanonical(s)
    ensures IsLoose(s)
  {
    if IsCanonicalTail(s) {
      OneByteTail(s[1]);
      TwoByteTail(s[2]);
    } else if s != [] {
      CanonicalIsLoose(s[4..]);
    }
  }

  // ---------- One group of three bytes ----------

  lemma DigitsOfBytes(a: int, b: int, c: int, d: int)
    requires 0 <= a < 64 && 0 <= b < 64 && 0 <= c < 64 && 0 <= d < 64
    ensures var x, y, z := a * 4 + b / 16, b % 16 * 16 + c / 4, c % 4 * 64 + d;
            && 0 <= x < 256 && 0 <= y < 256 && 0 <= z < 256
            && x / 4 == a && x % 4 * 16 + y / 16 == b && y % 16 * 4 + z / 64 == c && z % 64 == d
  {}

  lemma GroupOfTwo(x: Byte, y: Byte)
    ensures var s := Encode([x, y]); IsCanonicalTail(s) && IsLoose(s) && Decode(s) == [x, y]
  {
    hide DigitOf, ValueOf, IsDigit;
    DigitRoundTrip(x / 4);
    DigitRoundTrip(x % 4 * 16 + y / 16);
    DigitRoundTrip(y % 16 * 4);
    TwoByteTail(DigitOf(y % 16 * 4));
    NoPadDigit();
  }

  lemma GroupOfThree(x: Byte, y: Byte, z: Byte)
    ensures var a, b := ValueOf(DigitOf(x / 4)), ValueOf(DigitOf(x % 4 * 16 + y / 16));
            var c, d := ValueOf(DigitOf(y % 16 * 4 + z / 64)), ValueOf(DigitOf(z % 64));
            a * 4 + b / 16 == x && b % 16 * 16 + c / 4 == y && c % 4 * 64 + d == z
  {
    hide DigitOf, ValueOf;
    DigitRoundTrip(x / 4);
    DigitRoundTrip(x % 4 * 16 + y / 16);
    DigitRoundTrip(y % 16 * 4 + z / 64);
    DigitRoundTrip(z % 64);
  }

  lemma NoPadDigit()
    ensures !IsDigit('=')
  {}

  // ---------- The encoder and the pattern ----------

  /** Every byte string has a canonical text, and decoding it gives the bytes back. */
  lemma {:induction false} DecodeOfEncode(bytes: seq<Byte>)
    ensures IsCanonical(Encode(bytes)) && IsLoose(Encode(bytes)) && Decode(Encode(bytes)) == bytes
  {
    if |bytes| == 1 {
      assert bytes == [bytes[0]];
    } else if |bytes| == 2 {
      assert bytes == [bytes[0], bytes[1]];
      GroupOfTwo(bytes[0], bytes[1]);
    } else if |bytes| >= 3 {
      DecodeOfEncode(bytes[3..]);
      QuadStep(bytes);
    }
  }

  lemma QuadStep(bytes: seq<Byte>)
    requires |bytes| >= 3 && IsCanonical(Encode(bytes[3..])) && IsLoose(Encode(bytes[3..])) && Decode(Encode(bytes[3..])) == bytes[3..]
    ensures IsCanonical(Encode(bytes)) && IsLoose(Encode(bytes)) && Decode(Encode(bytes)) == bytes
  {
    hide *;
    var x, y, z := bytes[0], bytes[1], bytes[2];
    GroupOfThree(x, y, z);
    EncodeStep(bytes);
    QuadIsRead(DigitOf(x / 4), DigitOf(x % 4 * 16 + y / 16), DigitOf(y % 16 * 4 + z / 64), DigitOf(z % 64), Encode(bytes[3..]));
    assert bytes == [x, y, z] + bytes[3..];
  }

  lemma EncodeStep(bytes: seq<Byte>)
    requires |bytes| >= 3
    ensures Encode(bytes) == [DigitOf(bytes[0] / 4), DigitOf(bytes[0] % 4 * 16 + bytes[1] / 16),
                              DigitOf(bytes[1] % 16 * 4 + bytes[2] / 64), DigitOf(bytes[2] % 64)] + Encode(bytes[3..])
  {}

  lemma QuadIsRead(p: char, q: char, r: char, t: char, rest: string)
    requires IsDigit(p) && IsDigit(q) && IsDigit(r) && IsDigit(t) && IsLoose(rest)
    ensures var s := [p, q, r, t] + rest;
            var a, b, c, d := ValueOf(p), ValueOf(q), ValueOf(r), ValueOf(t);
            && IsLoose(s) && (IsCanonical(rest) ==> IsCanonical(s))
            && Decode(s) == [a * 4 + b / 16, b % 16 * 16 + c / 4, c % 4 * 64 + d] + Decode(rest)
  {
    NoPadDigit();
    hide ValueOf, IsDigit;
    var s := [p, q, r, t] + rest;
    assert s[4..] == rest && IsQuad(s);
    assert !IsLooseTail(s);
  }

  /** Encoding what a canonical text decodes to gives that text back. */
  lemma {:induction false} EncodeOfDecode(s: string)
    requires IsCanonical(s) && IsLoose(s)
    ensures Encode(Decode(s)) == s
  {
    if s == [] {
    } else if IsCanonicalTail(s) {
      TailEncodes(s);
    } else {
      hide *;
      QuadSplits(s);
      CanonicalIsLoose(s[4..]);
      EncodeOfDecode(s[4..]);
      QuadEncodes(s[0], s[1], s[2], s[3], s[4..]);
      assert s == [s[0], s[1], s[2], s[3]] + s[4..];
    }
  }

  lemma QuadSplits(s: string)
    requires IsCanonical(s) && s != [] && !IsCanonicalTail(s)
    ensures |s| >= 4 && IsDigit(s[0]) && IsDigit(s[1]) && IsDigit(s[2]) && IsDigit(s[3]) && IsCanonical(s[4..])
  {}

  lemma TailEncodes(s: string)
    requires IsCanonicalTail(s) && IsLoose(s)
    ensures Encode(Decode(s)) == s
  {
    hide ValueOf, DigitOf, IsDigit, IsLooseTail, IsLoose;
    NoPadDigit();
    OneByteTail(s[1]);
    TwoByteTail(s[2]);
    ValueRoundTrip(s[0]);
    ValueRoundTrip(s[1]);
    if s[2] == '=' {
      DigitsOfBytes(ValueOf(s[0]), ValueOf(s[1]), 0, 0);
    } else {
      ValueRoundTrip(s[2]);
      DigitsOfBytes(ValueOf(s[0]), ValueOf(s[1]), ValueOf(s[2]), 0);
    }
  }

  lemma QuadEncodes(p: char, q: char, r: char, t: char, rest: string)
    requires IsDigit(p) && IsDigit(q) && IsDigit(r) && IsDigit(t) && IsLoose(rest) && Encode(Decode(rest)) == rest
    ensures IsLoose([p, q, r, t] + rest) && Encode(Decode([p, q, r, t] + rest)) == [p, q, r, t] + rest
  {
    hide ValueOf, DigitOf, IsDigit;
    QuadIsRead(p, q, r, t, rest);
    ValueRoundTrip(p);
    ValueRoundTrip(q);
    ValueRoundTrip(r);
    ValueRoundTrip(t);
    DigitsOfBytes(ValueOf(p), ValueOf(q), ValueOf(r), ValueOf(t));
    var bytes := Decode([p, q, r, t] + rest);
    assert bytes[3..] == Decode(rest);
  }

  /** The chunk pattern accepts exactly what the encoder produces. */
  lemma PatternIsTheImage(s: string)
    ensures IsCanonical(s) <==> exists bytes: seq<Byte> :: Encode(bytes) == s
  {
    if IsCanonical(s) {
      CanonicalIsLoose(s);
      EncodeOfDecode(s);
    }
    forall bytes: seq<Byte> ensures IsCanonical(Encode(bytes)) {
      DecodeOfEncode(bytes);
    }
  }

  /** The upload store's test, that re-encoding the decoded bytes gives the text back,
      accepts exactly the canonical texts among those its schema lets through. */
  lemma ReencodingDecides(s: string)
    requires IsLoose(s)
    ensures Encode(Decode(s)) == s <==> IsCanonical(s)
  {
    if IsCanonical(s) { EncodeOfDecode(s); }
    DecodeOfEncode(Decode(s));
  }

  /** The length arithmetic of both schemas. */
  lemma {:induction false} DecodedLength(s: string)
    requires IsLoose(s)
    ensures |s| % 4 == 0 && |Decode(s)| == |s| / 4 * 3 - Padding(s)
  {
    if s != [] && !IsLooseTail(s) {
      DecodedLength(s[4..]);
      if |s| > 4 {
        assert s[|s| - 1] == s[4..][|s| - 5] && s[|s| - 2] == s[4..][|s| - 6];
      }
    }
  }

  const CHUNK_BYTES := 65536
  const CHUNK_TEXT := 87384

  /** A canonical text of at most 64 KiB is never too long for the schemas' text limit. */
  lemma ChunkTextFits(s: string)
    requires IsLoose(s) && |Decode(s)| <= CHUNK_BYTES
    ensures |s| <= CHUNK_TEXT
  {
    DecodedLength(s);
  }
}
