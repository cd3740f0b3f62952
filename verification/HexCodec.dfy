/** Hex strings (src/oauth2/session/crypto.rs, src/oauth2/flow.rs). */
module HexCodec {
  import opened Prelude
  import opened Strings

  newtype Byte = b: int | 0 <= b < 256

  datatype HexError = OddLength | NonHexCharacter(c: char)

  function FromHexDigit(c: char): (r: Result<Byte, HexError>)
    ensures r.Ok? ==> r.value < 16
  {
    if '0' <= c <= '9' then Ok((c as int - '0' as int) as Byte)
    else if 'a' <= c <= 'f' then Ok((c as int - 'a' as int + 10) as Byte)
    else if 'A' <= c <= 'F' then Ok((c as int - 'A' as int + 10) as Byte)
    else Err(NonHexCharacter(c))
  }

  predicate IsHexDigit(c: char) {
    FromHexDigit(c).Ok?
  }

  predicate AllHex(s: string) {
    forall i :: 0 <= i < |s| ==> IsHexDigit(s[i])
  }

  /** One of the sixteen lower-case digits. */
  function ToHexDigit(n: Byte): (c: char)
    requires n < 16
    ensures FromHexDigit(c) == Ok(n) && Lower(c) == c
  {
    if n < 10 then ('0' as int + n as int) as char else ('a' as int + n as int - 10) as char
  }

  function Lower(c: char): char {
    if 'A' <= c <= 'Z' then (c as int - 'A' as int + 'a' as int) as char else c
  }

  function Lowercase(s: string): (r: string)
    ensures |r| == |s| && forall i :: 0 <= i < |s| ==> r[i] == Lower(s[i])
  {
    seq(|s|, i requires 0 <= i < |s| => Lower(s[i]))
  }

  /** Two lower-case digits for every byte. */
  function Encode(bytes: seq<Byte>): (s: string)
    ensures |s| == 2 * |bytes|
  {
    if bytes == [] then ""
    else Encode(bytes[..|bytes| - 1]) + [ToHexDigit(bytes[|bytes| - 1] / 16), ToHexDigit(bytes[|bytes| - 1] % 16)]
  }

  method HexEncode(bytes: seq<Byte>) returns (s: string)
    ensures s == Encode(bytes)
  {
    s := "";
    for i := 0 to |bytes|
      invariant s == Encode(bytes[..i])
    {
      s := s + [ToHexDigit(bytes[i] / 16), ToHexDigit(bytes[i] % 16)];
      assert bytes[..i + 1][..i] == bytes[..i];
    }
    assert bytes[..|bytes|] == bytes;
  }

  /** The byte two digits spell, or the first character that is no digit. */
  function DigitPair(c: char, d: char): Result<Byte, HexError> {
    if FromHexDigit(c).Err? then FromHexDigit(c)
    else if FromHexDigit(d).Err? then FromHexDigit(d)
    else Ok(16 * FromHexDigit(c).value + FromHexDigit(d).value)
  }

  /** Pairs of digits from the left; the first bad character is the error. */
  function DecodePairs(s: string): Result<seq<Byte>, HexError>
    requires |s| % 2 == 0
    decreases |s|
  {
    if s == [] then Ok([])
    else
      var before := DecodePairs(s[..|s| - 2]);
      var b := DigitPair(s[|s| - 2], s[|s| - 1]);
      if before.Err? then before else if b.Err? then Err(b.error) else Ok(before.value + [b.value])
  }

  /** The UTF-8 bytes of a character, each as the character of that number. */
  function Utf8Char(c: char): (s: string)
    ensures c as int < 0x80 ==> s == [c]
    ensures c as int >= 0x80 ==> |s| >= 2 && forall i :: 0 <= i < |s| ==> 0x80 <= s[i] as int < 0x100
  {
    var n := c as int;
    if n < 0x80 then [c]
    else if n < 0x800 then [(0xC0 + n / 0x40) as char, Tail(n)]
    else if n < 0x1_0000 then [(0xE0 + n / 0x1000) as char, Tail(n / 0x40), Tail(n)]
    else [(0xF0 + n / 0x4_0000) as char, Tail(n / 0x1000), Tail(n / 0x40), Tail(n)]
  }

  /** A continuation byte. */
  function Tail(n: nat): (c: char)
    ensures 0x80 <= c as int < 0xC0
  {
    (0x80 + n % 0x40) as char
  }

  function Utf8(s: string): string {
    if s == [] then [] else Utf8(s[..|s| - 1]) + Utf8Char(s[|s| - 1])
  }

  /** Hex digits are ASCII: they are their own bytes, and no other text has such bytes. */
  lemma {:induction false} HexInUtf8(s: string)
    ensures AllHex(Utf8(s)) <==> AllHex(s)
    ensures AllHex(s) ==> Utf8(s) == s
  {
    if s != [] {
      var t, c := s[..|s| - 1], s[|s| - 1];
      assert s == t + [c];
      HexInUtf8(t);
      AllHexSplit(t, [c]);
      AllHexSplit(Utf8(t), Utf8Char(c));
      HexInUtf8Char(c);
    }
  }

  lemma HexInUtf8Char(c: char)
    ensures AllHex(Utf8Char(c)) <==> AllHex([c])
    ensures AllHex([c]) ==> Utf8Char(c) == [c]
  {
    if c as int >= 0x80 {
      assert !IsHexDigit(Utf8Char(c)[0]);
      assert !IsHexDigit([c][0]);
    }
  }

  function Decode(input: string): Result<seq<Byte>, HexError> {
    var s := Utf8(Trim(input));
    if |s| % 2 != 0 then Err(OddLength) else DecodePairs(s)
  }

  method HexDecode(input: string) returns (r: Result<seq<Byte>, HexError>)
    ensures r == Decode(input)
  {
    var s := Utf8(Trim(input));
    if |s| % 2 != 0 {
      return Err(OddLength);
    }
    r := DecodeChunks(s);
  }

  method DecodeChunks(s: string) returns (r: Result<seq<Byte>, HexError>)
    requires |s| % 2 == 0
    ensures r == DecodePairs(s)
  {
    var out: seq<Byte> := [];
    var i := 0;
    while i < |s|
      invariant 0 <= i <= |s| && i % 2 == 0
      invariant DecodePairs(s[..i]) == Ok(out)
    {
      NextChunk(s, i, out);
      var hi := FromHexDigit(s[i]);
      if hi.Err? {
        return Err(hi.error);
      }
      var lo := FromHexDigit(s[i + 1]);
      if lo.Err? {
        return Err(lo.error);
      }
      out := out + [16 * hi.value + lo.value];
      i := i + 2;
    }
    assert s[..|s|] == s;
    return Ok(out);
  }

  lemma NextChunk(s: string, i: nat, out: seq<Byte>)
    requires |s| % 2 == 0 && i % 2 == 0 && i < |s| && DecodePairs(s[..i]) == Ok(out)
    ensures var b := DigitPair(s[i], s[i + 1]);
            if b.Err? then DecodePairs(s) == Err(b.error) else DecodePairs(s[..i + 2]) == Ok(out + [b.value])
  {
    DecodeOneMore(s[..i], s[i], s[i + 1]);
    assert s[..i + 2] == s[..i] + [s[i], s[i + 1]];
    if DigitPair(s[i], s[i + 1]).Err? {
      FirstErrorStays(s, i + 2);
    }
  }

  lemma {:induction false} FirstErrorStays(s: string, i: nat)
    requires |s| % 2 == 0 && i % 2 == 0 && i <= |s| && DecodePairs(s[..i]).Err?
    ensures DecodePairs(s) == DecodePairs(s[..i])
    decreases |s|
  {
    if i == |s| {
      assert s[..i] == s;
    } else {
      assert s[..|s| - 2][..i] == s[..i];
      FirstErrorStays(s[..|s| - 2], i);
    }
  }

  lemma EncodeOneMore(bytes: seq<Byte>, b: Byte)
    ensures Encode(bytes + [b]) == Encode(bytes) + [ToHexDigit(b / 16), ToHexDigit(b % 16)]
  {
    assert (bytes + [b])[..|bytes|] == bytes;
  }

  lemma AllHexSplit(s: string, t: string)
    ensures AllHex(s + t) <==> AllHex(s) && AllHex(t)
  {
    if AllHex(s + t) {
      assert forall i :: 0 <= i < |s| ==> (s + t)[i] == s[i];
      assert forall i :: 0 <= i < |t| ==> (s + t)[|s| + i] == t[i];
    }
  }

  /** Two digits and their byte. */
  lemma PairOfDigits(c: char, d: char)
    ensures DigitPair(c, d).Ok? <==> IsHexDigit(c) && IsHexDigit(d)
    ensures DigitPair(c, d).Ok? ==>
              var b := DigitPair(c, d).value; ToHexDigit(b / 16) == Lower(c) && ToHexDigit(b % 16) == Lower(d)
  {
  }

  lemma BytePair(b: Byte)
    ensures DigitPair(ToHexDigit(b / 16), ToHexDigit(b % 16)) == Ok(b)
  {
    assert b as int == 16 * (b as int / 16) + b as int % 16;
  }

  lemma DecodeOneMore(s: string, c: char, d: char)
    requires |s| % 2 == 0
    ensures var before, b := DecodePairs(s), DigitPair(c, d);
            DecodePairs(s + [c, d])
            == if before.Err? then before else if b.Err? then Err(b.error) else Ok(before.value + [b.value])
  {
    assert (s + [c, d])[..|s|] == s;
  }

  lemma AllHexPair(s: string, c: char, d: char)
    ensures AllHex(s + [c, d]) <==> AllHex(s) && IsHexDigit(c) && IsHexDigit(d)
  {
    AllHexSplit(s, [c, d]);
    assert [c, d][0] == c && [c, d][1] == d;
  }

  lemma LowercasePair(s: string, c: char, d: char)
    ensures Lowercase(s + [c, d]) == Lowercase(s) + [Lower(c), Lower(d)]
  {
  }

  /** A string decodes exactly when all its characters are hex digits, and then
      encoding the bytes writes it again in lower case. */
  lemma {:induction false} DecodePairsResult(s: string)
    requires |s| % 2 == 0
    ensures DecodePairs(s).Ok? <==> AllHex(s)
    ensures DecodePairs(s).Ok? ==> Encode(DecodePairs(s).value) == Lowercase(s)
    decreases |s|
  {
    if s != [] {
      var t, c, d := s[..|s| - 2], s[|s| - 2], s[|s| - 1];
      assert s == t + [c, d];
      DecodePairsResult(t);
      DecodeOneMore(t, c, d);
      AllHexPair(t, c, d);
      PairOfDigits(c, d);
      if DecodePairs(s).Ok? {
        EncodeOneMore(DecodePairs(t).value, DigitPair(c, d).value);
        LowercasePair(t, c, d);
      }
    }
  }

  lemma {:induction false} DecodePairsOfEncode(bytes: seq<Byte>)
    ensures DecodePairs(Encode(bytes)) == Ok(bytes)
  {
    if bytes != [] {
      var front, b := bytes[..|bytes| - 1], bytes[|bytes| - 1];
      assert bytes == front + [b];
      DecodePairsOfEncode(front);
      EncodeOneMore(front, b);
      DecodeOneMore(Encode(front), ToHexDigit(b / 16), ToHexDigit(b % 16));
      BytePair(b);
    }
  }

  lemma HexIsTrimmed(s: string)
    requires AllHex(s)
    ensures Trim(s) == s
  {
    TrimResult(s);
    if s != [] {
      assert IsHexDigit(s[0]) && IsHexDigit(s[|s| - 1]);
    }
  }

  lemma DecodeClean(s: string, bytes: seq<Byte>)
    requires |s| % 2 == 0 && DecodePairs(s) == Ok(bytes)
    ensures Decode(s) == Ok(bytes)
  {
    DecodePairsResult(s);
    HexIsTrimmed(s);
    HexInUtf8(s);
  }

  /** decode(encode(b)) == b for all byte strings. */
  lemma DecodeOfEncode(bytes: seq<Byte>)
    ensures Decode(Encode(bytes)) == Ok(bytes)
  {
    var s := Encode(bytes);
    assert |s| % 2 == 0;
    DecodePairsOfEncode(bytes);
    DecodeClean(s, bytes);
  }

  /** Decoding succeeds exactly on an even number of hex digits, padding aside,
      and encoding the result is the trimmed input in lower case. */
  lemma EncodeOfDecode(s: string)
    ensures Decode(s).Ok? <==> |Trim(s)| % 2 == 0 && AllHex(Trim(s))
    ensures Decode(s).Ok? ==> Encode(Decode(s).value) == Lowercase(Trim(s))
  {
    HexInUtf8(Trim(s));
    if |Utf8(Trim(s))| % 2 == 0 {
      DecodePairsResult(Utf8(Trim(s)));
    }
  }

  /** The error names the first byte that is not a hex digit. */
  lemma {:induction false} FirstBadByte(s: string)
    requires |s| % 2 == 0
    ensures DecodePairs(s).Err? ==>
              exists i :: 0 <= i < |s| && !IsHexDigit(s[i]) && AllHex(s[..i])
                && DecodePairs(s) == Err(NonHexCharacter(s[i]))
    decreases |s|
  {
    if DecodePairs(s).Err? {
      var t, c, d := s[..|s| - 2], s[|s| - 2], s[|s| - 1];
      assert s == t + [c, d];
      DecodeOneMore(t, c, d);
      if DecodePairs(t).Err? {
        FirstBadByte(t);
        var i :| 0 <= i < |t| && !IsHexDigit(t[i]) && AllHex(t[..i]) && DecodePairs(t) == Err(NonHexCharacter(t[i]));
        assert s[i] == t[i] && s[..i] == t[..i];
      } else {
        DecodePairsResult(t);
        var i := if IsHexDigit(c) then |t| + 1 else |t|;
        assert s[..|t|] == t && s[..|t| + 1] == t + [c];
        AllHexSplit(t, [c]);
        assert s[i] == (if IsHexDigit(c) then d else c);
        assert AllHex(s[..i]);
      }
    }
  }

  /** An odd number of bytes is noticed before anything else. */
  lemma DecodeErrors(input: string)
    ensures Decode(input) == Err(OddLength) <==> |Utf8(Trim(input))| % 2 == 1
    ensures Decode(input).Err? && Decode(input) != Err(OddLength) ==>
              var s := Utf8(Trim(input));
              exists i :: 0 <= i < |s| && !IsHexDigit(s[i]) && AllHex(s[..i])
                && Decode(input) == Err(NonHexCharacter(s[i]))
  {
    if |Utf8(Trim(input))| % 2 == 0 {
      FirstBadByte(Utf8(Trim(input)));
    }
  }
}
