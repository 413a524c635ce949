/**
  The textual form in which the document state is stored in the
  `documents.content` bytea column: the hex format of section 8.4.1 of the
  PostgreSQL documentation, `\x` followed by two hex digits per byte.
  The encoder is the expression inside `saveDocument`; the parser is
  `parsePostgresHex`.
*/
module ByteaHex {
  import opened Wrappers
  import opened Crdt

  /** The error `parsePostgresHex` throws ('Invalid Hex String from Database'). */
  datatype HexError = InvalidHexString

  /** The two characters `\x` that open a bytea hex literal. */
  const Prefix: string := "\\x"

  /** One character of the class `[0-9a-fA-F]`. */
  predicate IsHexDigit(ch: char) {
    '0' <= ch <= '9' || 'a' <= ch <= 'f' || 'A' <= ch <= 'F'
  }

  predicate IsLowerHexDigit(ch: char) {
    '0' <= ch <= '9' || 'a' <= ch <= 'f'
  }

  /** The value `parseInt(ch, 16)` gives a single hex digit. */
  function DigitValue(ch: char): (v: nat)
    requires IsHexDigit(ch)
    ensures v < 16
  {
    if '0' <= ch <= '9' then ch as int - '0' as int
    else if 'a' <= ch <= 'f' then ch as int - 'a' as int + 10
    else ch as int - 'A' as int + 10
  }

  /** The digit `Number.prototype.toString(16)` writes for a value below 16. */
  function LowerDigit(n: nat): (ch: char)
    requires n < 16
    ensures IsLowerHexDigit(ch) && IsHexDigit(ch) && DigitValue(ch) == n
  {
    if n < 10 then ('0' as int + n) as char else ('a' as int + n - 10) as char
  }

  /** `b.toString(16)` for a byte: no leading zero. */
  function ToBase16(b: Byte): string {
    if b < 16 then [LowerDigit(b)] else [LowerDigit(b / 16), LowerDigit(b % 16)]
  }

  /** `s.padStart(2, '0')`. */
  function PadStart2(s: string): string {
    if |s| < 2 then seq(2 - |s|, _ => '0') + s else s
  }

  /** `b.toString(16).padStart(2, '0')`: always the two digits of the byte. */
  function ByteToHex(b: Byte): (s: string)
    ensures s == [LowerDigit(b / 16), LowerDigit(b % 16)]
  {
    PadStart2(ToBase16(b))
  }

  /** `Array.from(state).map(ByteToHex).join('')`. */
  function HexBody(bytes: Bytes): (s: string)
    ensures |s| == 2 * |bytes|
  {
    if bytes == [] then "" else ByteToHex(bytes[0]) + HexBody(bytes[1..])
  }

  /** The payload `saveDocument` upserts into `documents.content`. */
  function EncodeBytea(bytes: Bytes): string {
    Prefix + HexBody(bytes)
  }

  /** `cleanHex`: the content with one leading `\x` removed, if present. */
  function StripPrefix(content: string): string {
    if |content| >= 2 && content[..2] == Prefix then content[2..] else content
  }

  /** `cleanHex.match(/.{1,2}/g)` on a non-empty string of hex digits: pairs, left to right. */
  function HexPairs(h: string): (pairs: seq<string>)
    ensures |pairs| == (|h| + 1) / 2
    ensures forall i :: 0 <= i < |pairs| ==> 1 <= |pairs[i]| <= 2
  {
    if |h| <= 2 then (if h == "" then [] else [h]) else [h[..2]] + HexPairs(h[2..])
  }

  /** `parseInt(pair, 16)` for one or two hex digits. */
  function ParsePair(p: string): (b: Byte)
    requires 1 <= |p| <= 2 && forall i :: 0 <= i < |p| ==> IsHexDigit(p[i])
  {
    if |p| == 1 then DigitValue(p[0]) else 16 * DigitValue(p[0]) + DigitValue(p[1])
  }

  /** The byte that hex digits `2i` and `2i+1` of `h` stand for (a lone last digit stands alone). */
  function ByteAt(h: string, i: nat): Byte
    requires 2 * i < |h| && forall k :: 0 <= k < |h| ==> IsHexDigit(h[k])
  {
    if 2 * i + 1 < |h| then 16 * DigitValue(h[2 * i]) + DigitValue(h[2 * i + 1])
    else DigitValue(h[2 * i])
  }

  /** `parsePostgresHex`. */
  function ParsePostgresHex(content: string): (r: Result<Bytes, HexError>)
    ensures r.Failure? <==> exists k :: 0 <= k < |StripPrefix(content)| && !IsHexDigit(StripPrefix(content)[k])
    ensures r.Success? ==> |r.value| == (|StripPrefix(content)| + 1) / 2
    ensures r.Success? ==> forall i :: 0 <= i < |r.value| ==> r.value[i] == ByteAt(StripPrefix(content), i)
  {
    var clean := StripPrefix(content);
    if !(forall k :: 0 <= k < |clean| ==> IsHexDigit(clean[k])) then Failure(InvalidHexString)
    else
      var pairs := HexPairs(clean);
      if pairs == [] then Success([])
      else
        assert forall i :: 0 <= i < |pairs| ==> pairs[i] == clean[2 * i .. if 2 * i + 2 <= |clean| then 2 * i + 2 else |clean|] by {
          HexPairsAt(clean);
        }
        Success(seq(|pairs|, i requires 0 <= i < |pairs| => ParsePair(pairs[i])))
  }

  /** Pair `i` of the split is the slice `[2i, 2i+2)`, cut short at the end. */
  lemma {:induction false} HexPairsAt(h: string)
    ensures forall i :: 0 <= i < |HexPairs(h)| ==>
      HexPairs(h)[i] == h[2 * i .. if 2 * i + 2 <= |h| then 2 * i + 2 else |h|]
  {
    if |h| > 2 {
      HexPairsAt(h[2..]);
      forall i | 0 <= i < |HexPairs(h)|
        ensures HexPairs(h)[i] == h[2 * i .. if 2 * i + 2 <= |h| then 2 * i + 2 else |h|]
      {
        var rest := h[2..];
        assert HexPairs(h) == [h[..2]] + HexPairs(rest);
        if i > 0 {
          var j := i - 1;
          var hi := if 2 * j + 2 <= |rest| then 2 * j + 2 else |rest|;
          assert HexPairs(h)[i] == HexPairs(rest)[j] == rest[2 * j .. hi];
          assert |rest[2 * j .. hi]| == |h[2 * i .. hi + 2]|;
          forall k | 0 <= k < hi - 2 * j ensures rest[2 * j .. hi][k] == h[2 * i .. hi + 2][k] {
            assert rest[2 * j + k] == h[2 * i + k];
          }
          assert rest[2 * j .. hi] == h[2 * i .. hi + 2];
        } else {
          assert h[..2] == h[0 .. 2];
        }
      }
    }
  }

  /** Digit pair `i` of the encoder's body holds byte `i`, high nibble first. */
  lemma {:induction false} HexBodyAt(bytes: Bytes, i: nat)
    requires i < |bytes|
    ensures HexBody(bytes)[2 * i] == LowerDigit(bytes[i] / 16)
    ensures HexBody(bytes)[2 * i + 1] == LowerDigit(bytes[i] % 16)
  {
    if i > 0 {
      HexBodyAt(bytes[1..], i - 1);
    }
  }

  /** The encoder writes `\x`, then exactly two lower-case digits per byte. */
  lemma EncodeByteaShape(bytes: Bytes)
    ensures |EncodeBytea(bytes)| == 2 + 2 * |bytes|
    ensures EncodeBytea(bytes)[..2] == Prefix
    ensures forall k :: 2 <= k < |EncodeBytea(bytes)| ==> IsLowerHexDigit(EncodeBytea(bytes)[k])
    ensures forall i :: 0 <= i < |bytes| ==>
      EncodeBytea(bytes)[2 + 2 * i] == LowerDigit(bytes[i] / 16) &&
      EncodeBytea(bytes)[3 + 2 * i] == LowerDigit(bytes[i] % 16)
  {
    var s := EncodeBytea(bytes);
    forall i | 0 <= i < |bytes|
      ensures s[2 + 2 * i] == LowerDigit(bytes[i] / 16) && s[3 + 2 * i] == LowerDigit(bytes[i] % 16)
    {
      HexBodyAt(bytes, i);
    }
    forall k | 2 <= k < |s| ensures IsLowerHexDigit(s[k]) {
      HexBodyAt(bytes, (k - 2) / 2);
    }
  }

  /** Parsing what the encoder stored gives back the same bytes. */
  lemma ParseEncodeRoundTrip(bytes: Bytes)
    ensures ParsePostgresHex(EncodeBytea(bytes)) == Success(bytes)
  {
    var s := EncodeBytea(bytes);
    EncodeByteaShape(bytes);
    var h := HexBody(bytes);
    assert StripPrefix(s) == h;
    forall k | 0 <= k < |h| ensures IsHexDigit(h[k]) {
      HexBodyAt(bytes, k / 2);
    }
    var r := ParsePostgresHex(s);
    assert r.Success?;
    assert |r.value| == |bytes|;
    forall i | 0 <= i < |bytes| ensures r.value[i] == bytes[i] {
      HexBodyAt(bytes, i);
      assert r.value[i] == ByteAt(h, i) == 16 * (bytes[i] / 16) + bytes[i] % 16;
    }
    assert r.value == bytes;
  }

  /** An empty body, with or without the prefix, parses to no bytes. */
  lemma ParseEmptyBody()
    ensures ParsePostgresHex("") == Success([])
    ensures ParsePostgresHex(Prefix) == Success([])
  {
  }

  /** Only one prefix is removed: content opening with a second `\x` is invalid, whatever follows. */
  lemma ParseStripsOnePrefix(rest: string)
    ensures ParsePostgresHex(Prefix + Prefix + rest) == Failure(InvalidHexString)
  {
    assert StripPrefix(Prefix + Prefix + rest) == Prefix + rest by {
      assert (Prefix + Prefix + rest)[..2] == Prefix;
      assert (Prefix + Prefix + rest)[2..] == Prefix + rest;
    }
    assert !IsHexDigit((Prefix + rest)[0]);
  }

  /** The hex digits `A`-`F` written in lower case; every other character is kept. */
  function LowerHexDigit(ch: char): (lower: char)
    ensures IsHexDigit(lower) <==> IsHexDigit(ch)
    ensures IsHexDigit(ch) ==> DigitValue(lower) == DigitValue(ch)
  {
    if 'A' <= ch <= 'F' then (ch as int - 'A' as int + 'a' as int) as char else ch
  }

  function LowerHexCase(s: string): (t: string)
    ensures |t| == |s|
    ensures forall i :: 0 <= i < |s| ==> t[i] == LowerHexDigit(s[i])
  {
    seq(|s|, i requires 0 <= i < |s| => LowerHexDigit(s[i]))
  }

  /**
    Upper- and lower-case digits are read alike: writing the digits of any
    content in lower case does not change what it parses to.
  */
  lemma ParseIgnoresDigitCase(content: string)
    ensures ParsePostgresHex(LowerHexCase(content)) == ParsePostgresHex(content)
  {
    var lowered := LowerHexCase(content);
    var clean, lowerClean := StripPrefix(content), StripPrefix(lowered);
    assert lowerClean == LowerHexCase(clean) by {
      if |content| >= 2 {
        assert lowered[..2] == Prefix <==> content[..2] == Prefix by {
          assert lowered[0] == LowerHexDigit(content[0]) && lowered[1] == LowerHexDigit(content[1]);
        }
      }
    }
    var r, lowerR := ParsePostgresHex(content), ParsePostgresHex(lowered);
    if r.Failure? {
      var k :| 0 <= k < |clean| && !IsHexDigit(clean[k]);
      assert !IsHexDigit(lowerClean[k]);
    } else {
      assert lowerR.Success? by {
        forall k | 0 <= k < |lowerClean| ensures IsHexDigit(lowerClean[k]) {
          assert IsHexDigit(clean[k]);
        }
      }
      forall i | 0 <= i < |r.value| ensures lowerR.value[i] == r.value[i] {
        assert ByteAt(lowerClean, i) == ByteAt(clean, i);
      }
      assert |lowerR.value| == |r.value|;
      assert lowerR.value == r.value;
    }
  }

  /** An odd number of digits leaves the last digit as a byte of its own. */
  lemma ParseLoneLastDigit(content: string)
    requires forall k :: 0 <= k < |StripPrefix(content)| ==> IsHexDigit(StripPrefix(content)[k])
    requires |StripPrefix(content)| % 2 == 1
    ensures var r := ParsePostgresHex(content);
      r.Success? && |r.value| == |StripPrefix(content)| / 2 + 1
      && r.value[|r.value| - 1] == DigitValue(StripPrefix(content)[|StripPrefix(content)| - 1])
  {
  }

  /** A worked example: `\xAbC` decodes to the byte 0xAB and then the lone digit's byte 0xC. */
  lemma ParseOddLengthExample()
    ensures ParsePostgresHex("\\xAbC") == Success([0xAB, 0xC])
  {
    var example := ParsePostgresHex("\\xAbC");
    assert StripPrefix("\\xAbC") == "AbC";
    assert IsHexDigit("AbC"[0]) && IsHexDigit("AbC"[1]) && IsHexDigit("AbC"[2]);
    assert example.Success?;
    assert example.value[0] == ByteAt("AbC", 0) == 0xAB && example.value[1] == ByteAt("AbC", 1) == 0xC;
    assert example.value == [0xAB, 0xC];
  }
}
