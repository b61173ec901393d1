/** Base 64 encoding with the URL and filename safe alphabet, for inputs whose length is a multiple
    of three so that no padding arises (sections 4 and 5 of RFC 4648). */
module Base64Url {
  import opened Words

  type Sextet = x: int | 0 <= x < 64

  predicate IsDigit(c: char) {
    'A' <= c <= 'Z' || 'a' <= c <= 'z' || '0' <= c <= '9' || c == '-' || c == '_'
  }

  predicate AllDigits(text: string) {
    forall i :: 0 <= i < |text| ==> IsDigit(text[i])
  }

  function Digit(value: Sextet): (c: char)
    ensures IsDigit(c)
  {
    if value < 26 then ('A' as int + value) as char
    else if value < 52 then ('a' as int + (value - 26)) as char
    else if value < 62 then ('0' as int + (value - 52)) as char
    else if value == 62 then '-'
    else '_'
  }

  function Value(c: char): Sextet
    requires IsDigit(c)
  {
    if 'A' <= c <= 'Z' then c as int - 'A' as int
    else if 'a' <= c <= 'z' then c as int - 'a' as int + 26
    else if '0' <= c <= '9' then c as int - '0' as int + 52
    else if c == '-' then 62
    else 63
  }

  lemma DigitValue(value: Sextet)
    ensures Value(Digit(value)) == value
  {
  }

  lemma ValueDigit(c: char)
    requires IsDigit(c)
    ensures Digit(Value(c)) == c
  {
  }

  /** Three bytes as four digits. */
  function EncodeBlock(b0: uint8, b1: uint8, b2: uint8): (block: string)
    ensures |block| == 4 && AllDigits(block)
  {
    [Digit(b0 / 4), Digit(b0 % 4 * 16 + b1 / 16), Digit(b1 % 16 * 4 + b2 / 64), Digit(b2 % 64)]
  }

  /** Four groups of six bits as three bytes. */
  function Join(v0: Sextet, v1: Sextet, v2: Sextet, v3: Sextet): (bytes: seq<uint8>)
    ensures |bytes| == 3
  {
    [v0 * 4 + v1 / 16, v1 % 16 * 16 + v2 / 4, v2 % 4 * 64 + v3]
  }

  /** Four digits as three bytes. */
  function DecodeBlock(block: string): (bytes: seq<uint8>)
    requires |block| == 4 && AllDigits(block)
    ensures |bytes| == 3
  {
    Join(Value(block[0]), Value(block[1]), Value(block[2]), Value(block[3]))
  }

  function Encode(bytes: seq<uint8>): (text: string)
    requires |bytes| % 3 == 0
    ensures |text| == |bytes| / 3 * 4 && AllDigits(text)
  {
    if bytes == [] then "" else EncodeBlock(bytes[0], bytes[1], bytes[2]) + Encode(bytes[3..])
  }

  function Decode(text: string): (bytes: seq<uint8>)
    requires |text| % 4 == 0 && AllDigits(text)
    ensures |bytes| == |text| / 4 * 3
  {
    if text == "" then [] else DecodeBlock(text[..4]) + Decode(text[4..])
  }

  lemma SplitThenJoin(b0: uint8, b1: uint8, b2: uint8)
    ensures Join(b0 / 4, b0 % 4 * 16 + b1 / 16, b1 % 16 * 4 + b2 / 64, b2 % 64) == [b0, b1, b2]
  {
    assert (b0 % 4 * 16 + b1 / 16) / 16 == b0 % 4 && (b0 % 4 * 16 + b1 / 16) % 16 == b1 / 16;
    assert (b1 % 16 * 4 + b2 / 64) / 4 == b1 % 16 && (b1 % 16 * 4 + b2 / 64) % 4 == b2 / 64;
  }

  lemma BlockRoundTrip(b0: uint8, b1: uint8, b2: uint8)
    ensures DecodeBlock(EncodeBlock(b0, b1, b2)) == [b0, b1, b2]
  {
    var v0, v1, v2, v3 := b0 / 4, b0 % 4 * 16 + b1 / 16, b1 % 16 * 4 + b2 / 64, b2 % 64;
    calc {
      DecodeBlock(EncodeBlock(b0, b1, b2));
      Join(Value(Digit(v0)), Value(Digit(v1)), Value(Digit(v2)), Value(Digit(v3)));
      { DigitValue(v0); DigitValue(v1); DigitValue(v2); DigitValue(v3); }
      Join(v0, v1, v2, v3);
      { SplitThenJoin(b0, b1, b2); }
      [b0, b1, b2];
    }
  }

  lemma JoinThenEncode(v0: Sextet, v1: Sextet, v2: Sextet, v3: Sextet)
    ensures var b := Join(v0, v1, v2, v3);
            EncodeBlock(b[0], b[1], b[2]) == [Digit(v0), Digit(v1), Digit(v2), Digit(v3)]
  {
    var b := Join(v0, v1, v2, v3);
    assert b[0] / 4 == v0;
    assert b[0] % 4 * 16 + b[1] / 16 == v1;
    assert b[1] % 16 * 4 + b[2] / 64 == v2;
    assert b[2] % 64 == v3;
  }

  lemma ValuesDigits(block: string)
    requires |block| == 4 && AllDigits(block)
    ensures [Digit(Value(block[0])), Digit(Value(block[1])), Digit(Value(block[2])), Digit(Value(block[3]))] == block
  {
    ValueDigit(block[0]);
    ValueDigit(block[1]);
    ValueDigit(block[2]);
    ValueDigit(block[3]);
  }

  lemma BlockRoundTripBack(block: string)
    requires |block| == 4 && AllDigits(block)
    ensures var b := DecodeBlock(block); EncodeBlock(b[0], b[1], b[2]) == block
  {
    ValuesDigits(block);
    JoinThenEncode(Value(block[0]), Value(block[1]), Value(block[2]), Value(block[3]));
  }

  lemma DecodeAppend(block: string, rest: string)
    requires |block| == 4 && AllDigits(block)
    requires |rest| % 4 == 0 && AllDigits(rest)
    ensures AllDigits(block + rest)
    ensures Decode(block + rest) == DecodeBlock(block) + Decode(rest)
  {
    assert (block + rest)[..4] == block && (block + rest)[4..] == rest;
  }

  lemma EncodeAppend(block: seq<uint8>, rest: seq<uint8>)
    requires |block| == 3 && |rest| % 3 == 0
    ensures Encode(block + rest) == EncodeBlock(block[0], block[1], block[2]) + Encode(rest)
  {
    assert (block + rest)[3..] == rest;
  }

  lemma {:induction false} RoundTrip(bytes: seq<uint8>)
    requires |bytes| % 3 == 0
    ensures Decode(Encode(bytes)) == bytes
  {
    hide EncodeBlock, DecodeBlock;
    if bytes != [] {
      BlockRoundTrip(bytes[0], bytes[1], bytes[2]);
      RoundTrip(bytes[3..]);
      DecodeAppend(EncodeBlock(bytes[0], bytes[1], bytes[2]), Encode(bytes[3..]));
    }
  }

  lemma {:induction false} RoundTripBack(text: string)
    requires |text| % 4 == 0 && AllDigits(text)
    ensures Encode(Decode(text)) == text
  {
    hide EncodeBlock, DecodeBlock;
    if text != "" {
      BlockRoundTripBack(text[..4]);
      RoundTripBack(text[4..]);
      EncodeAppend(DecodeBlock(text[..4]), Decode(text[4..]));
    }
  }
}
