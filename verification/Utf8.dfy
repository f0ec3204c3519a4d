/** UTF-8 (RFC 3629): encoding, well-formed octet sequences, and cutting them to a limit. */
module Utf8 {

  type Byte = n: nat | n < 256

  // ---- Encoding (section 3) ----------------------------------------------------

  function EncodeChar(c: char): (r: seq<Byte>)
    ensures 1 <= |r| <= 4
  {
    EncodePoint(c as int)
  }

  function EncodePoint(n: int): (r: seq<Byte>)
    requires 0 <= n < 0x11_0000
    ensures 1 <= |r| <= 4
  {
    var high := n / 0x40;
    var higher := high / 0x40;
    if n < 0x80 then [n]
    else if n < 0x800 then [0xC0 + high, 0x80 + n % 0x40]
    else if n < 0x1_0000 then [0xE0 + higher, 0x80 + high % 0x40, 0x80 + n % 0x40]
    else [0xF0 + higher / 0x40, 0x80 + higher % 0x40, 0x80 + high % 0x40, 0x80 + n % 0x40]
  }

  function Encode(s: string): seq<Byte> {
    if s == [] then [] else EncodeChar(s[0]) + Encode(s[1..])
  }

  function Size(s: string): nat {
    |Encode(s)|
  }

  // ---- Well-formed sequences (section 4) -----------------------------------------

  predicate Tail(b: Byte) {
    0x80 <= b <= 0xBF
  }

  /** How many octets the first character of `b` has; 0 when no well-formed one starts there. */
  function CharLength(b: seq<Byte>): (n: nat)
    ensures n <= |b| && n <= 4
  {
    if b == [] then 0
    else if b[0] <= 0x7F then 1
    else if 0xC2 <= b[0] <= 0xDF && |b| >= 2 && Tail(b[1]) then 2
    else if ThreeOctets(b) then 3
    else if FourOctets(b) then 4
    else 0
  }

  predicate ThreeOctets(b: seq<Byte>) {
    && |b| >= 3
    && 0xE0 <= b[0] <= 0xEF
    && Tail(b[1]) && (b[0] == 0xE0 ==> 0xA0 <= b[1]) && (b[0] == 0xED ==> b[1] <= 0x9F)
    && Tail(b[2])
  }

  predicate FourOctets(b: seq<Byte>) {
    && |b| >= 4
    && 0xF0 <= b[0] <= 0xF4
    && Tail(b[1]) && (b[0] == 0xF0 ==> 0x90 <= b[1]) && (b[0] == 0xF4 ==> b[1] <= 0x8F)
    && Tail(b[2]) && Tail(b[3])
  }

  /** What a strict decoder accepts. */
  predicate WellFormed(b: seq<Byte>) {
    b == [] || (CharLength(b) > 0 && WellFormed(b[CharLength(b)..]))
  }

  // ---- Encoding and decoding ---------------------------------------------------------

  function Value(b: Byte, base: int): int {
    b - base
  }

  function CodePoint(b: seq<Byte>): (n: int)
    requires CharLength(b) > 0
    ensures 0 <= n < 0xD800 || 0xE000 <= n < 0x11_0000
  {
    if b[0] <= 0x7F then b[0]
    else if b[0] <= 0xDF then Value(b[0], 0xC0) * 0x40 + Value(b[1], 0x80)
    else if b[0] <= 0xEF then (Value(b[0], 0xE0) * 0x40 + Value(b[1], 0x80)) * 0x40 + Value(b[2], 0x80)
    else ((Value(b[0], 0xF0) * 0x40 + Value(b[1], 0x80)) * 0x40 + Value(b[2], 0x80)) * 0x40 + Value(b[3], 0x80)
  }

  function Decode(b: seq<Byte>): string
    requires WellFormed(b)
  {
    if b == [] then "" else [CodePoint(b) as char] + Decode(b[CharLength(b)..])
  }

  lemma EncodedChar(c: char, rest: seq<Byte>)
    ensures CharLength(EncodeChar(c) + rest) == |EncodeChar(c)|
    ensures CodePoint(EncodeChar(c) + rest) == c as int
  {
    var n := c as int;
    var first := EncodePoint(n);
    assert 0 <= n < 0xD800 || 0xE000 <= n < 0x11_0000;
    EncodedPoint(n);
    SameStart(first, first + rest);
  }

  lemma SameStart(first: seq<Byte>, b: seq<Byte>)
    requires first <= b && CharLength(first) == |first| > 0
    ensures CharLength(b) == |first| && CodePoint(b) == CodePoint(first)
  {
    hide CodePoint;
    assert b[0] == first[0];
    assert |first| >= 2 ==> b[1] == first[1];
    assert |first| >= 3 ==> b[2] == first[2];
    assert |first| >= 4 ==> b[3] == first[3];
    SamePoint(first, b);
  }

  lemma SamePoint(first: seq<Byte>, b: seq<Byte>)
    requires first <= b && CharLength(first) == |first| == CharLength(b) > 0
    ensures CodePoint(b) == CodePoint(first)
  {
    assert b[0] == first[0];
    assert |first| >= 2 ==> b[1] == first[1];
    assert |first| >= 3 ==> b[2] == first[2];
    assert |first| >= 4 ==> b[3] == first[3];
  }

  lemma EncodedPoint(n: int)
    requires 0 <= n < 0xD800 || 0xE000 <= n < 0x11_0000
    ensures CharLength(EncodePoint(n)) == |EncodePoint(n)| && CodePoint(EncodePoint(n)) == n
  {
  }

  lemma DecodedChar(b: seq<Byte>)
    requires CharLength(b) > 0
    ensures EncodePoint(CodePoint(b)) == b[..CharLength(b)]
  {
    var first := b[..CharLength(b)];
    assert CharLength(first) == |first|;
    SamePoint(first, b);
    match |first| {
      case 1 =>
      case 2 => DecodedTwo(first);
      case 3 => DecodedThree(first);
      case 4 => DecodedFour(first);
    }
  }

  lemma Digits(q: int, r: int)
    requires 0 <= q && 0 <= r < 0x40
    ensures (q * 0x40 + r) / 0x40 == q && (q * 0x40 + r) % 0x40 == r
  {
  }

  lemma DecodedTwo(b: seq<Byte>)
    requires CharLength(b) == |b| == 2
    ensures EncodePoint(CodePoint(b)) == b
  {
    Digits(Value(b[0], 0xC0), Value(b[1], 0x80));
  }

  lemma DecodedThree(b: seq<Byte>)
    requires CharLength(b) == |b| == 3
    ensures EncodePoint(CodePoint(b)) == b
  {
    var high := Value(b[0], 0xE0) * 0x40 + Value(b[1], 0x80);
    Digits(Value(b[0], 0xE0), Value(b[1], 0x80));
    Digits(high, Value(b[2], 0x80));
  }

  lemma DecodedFour(b: seq<Byte>)
    requires CharLength(b) == |b| == 4
    ensures EncodePoint(CodePoint(b)) == b
  {
    var higher := Value(b[0], 0xF0) * 0x40 + Value(b[1], 0x80);
    var high := higher * 0x40 + Value(b[2], 0x80);
    Digits(Value(b[0], 0xF0), Value(b[1], 0x80));
    Digits(higher, Value(b[2], 0x80));
    Digits(high, Value(b[3], 0x80));
  }

  /** Decoding an encoded text gives the text back. */
  lemma {:induction false} DecodeOfEncode(s: string)
    ensures WellFormed(Encode(s)) && Decode(Encode(s)) == s
  {
    if s != [] {
      var b := Encode(s);
      EncodedChar(s[0], Encode(s[1..]));
      assert b[CharLength(b)..] == Encode(s[1..]);
      DecodeOfEncode(s[1..]);
    }
  }

  /** And every well-formed sequence is the encoding of the text it decodes to. */
  lemma {:induction false} EncodeOfDecode(b: seq<Byte>)
    requires WellFormed(b)
    ensures Encode(Decode(b)) == b
  {
    if b != [] {
      DecodedChar(b);
      EncodeOfDecode(b[CharLength(b)..]);
      assert Decode(b)[1..] == Decode(b[CharLength(b)..]);
    }
  }

  lemma {:induction false} EncodeConcat(s: string, t: string)
    ensures Encode(s + t) == Encode(s) + Encode(t)
  {
    if s == [] {
      assert s + t == t;
    } else {
      assert (s + t)[1..] == s[1..] + t;
      EncodeConcat(s[1..], t);
    }
  }

  lemma SizeConcat(s: string, t: string)
    ensures Size(s + t) == Size(s) + Size(t)
  {
    EncodeConcat(s, t);
  }

  lemma {:induction false} SizeOfAscii(s: string)
    requires forall c | c in s :: c as int < 0x80
    ensures Size(s) == |s|
  {
    if s != [] {
      assert s[0] in s && forall c | c in s[1..] :: c in s;
      SizeOfAscii(s[1..]);
    }
  }

  /** A text has as many octets as characters exactly when it is in ASCII. */
  lemma {:induction false} SizeIsLength(s: string)
    ensures Size(s) == |s| <==> forall c | c in s :: c as int < 0x80
  {
    if s != [] {
      SizeIsLength(s[1..]);
      SizeAtLeastLength(s[1..]);
      assert s[0] in s && forall c :: c in s <==> c == s[0] || c in s[1..];
    }
  }

  lemma {:induction false} SizeAtLeastLength(s: string)
    ensures |s| <= Size(s) <= 4 * |s|
  {
    if s != [] {
      SizeAtLeastLength(s[1..]);
    }
  }

  // ---- Cutting ------------------------------------------------------------------------

  /** How many whole characters of `s` fit in `limit` octets. */
  function Fit(s: string, limit: int): (n: nat)
    ensures n <= |s|
  {
    if s == [] || |EncodeChar(s[0])| > limit then 0 else 1 + Fit(s[1..], limit - |EncodeChar(s[0])|)
  }

  /** The fitting characters fill the limit up to three octets, and all of it when the text is short enough. */
  lemma {:induction false} FitFills(s: string, limit: nat)
    ensures Size(s[..Fit(s, limit)]) <= limit
    ensures Fit(s, limit) < |s| ==> Size(s[..Fit(s, limit)]) >= limit - 3
    ensures Fit(s, limit) == |s| <==> Size(s) <= limit
  {
    if s != [] && |EncodeChar(s[0])| <= limit {
      var rest := limit - |EncodeChar(s[0])|;
      FitFills(s[1..], rest);
      assert s[..Fit(s, limit)] == [s[0]] + s[1..][..Fit(s[1..], rest)];
    }
  }

  /** A cut inside the first character leaves nothing decodable. */
  lemma CutInsideChar(c: char, rest: seq<Byte>, k: nat)
    requires 0 < k < |EncodeChar(c)|
    ensures CharLength((EncodeChar(c) + rest)[..k]) == 0
  {
  }

  /** Of the encoding of `s`, the prefixes up to `limit` longer than the fitting characters are not well formed. */
  lemma {:induction false} BeyondFit(s: string, limit: int, k: nat)
    requires Size(s[..Fit(s, limit)]) < k <= limit && k <= Size(s)
    ensures !WellFormed(Encode(s)[..k])
  {
    var b := Encode(s);
    var first := EncodeChar(s[0]);
    var rest := Encode(s[1..]);
    assert b == first + rest;
    if k < |first| {
      CutInsideChar(s[0], rest, k);
    } else {
      assert s[..Fit(s, limit)] == [s[0]] + s[1..][..Fit(s[1..], limit - |first|)];
      BeyondFit(s[1..], limit - |first|, k - |first|);
      assert b[..k] == first + rest[..k - |first|];
      EncodedChar(s[0], rest[..k - |first|]);
      assert b[..k][|first|..] == rest[..k - |first|];
    }
  }

  /** `r` is the longest well-formed prefix of `value` within `limit`. */
  ghost predicate LongestPrefix(value: seq<Byte>, limit: int, r: seq<Byte>) {
    && r <= value && WellFormed(r) && (r == [] || |r| <= limit)
    && forall k: nat | |r| < k <= limit && k <= |value| :: !WellFormed(value[..k])
  }

  /** Shortens the clipped value octet by octet until it decodes. */
  method TruncateUtf8(value: seq<Byte>, limit: int) returns (clipped: seq<Byte>)
    ensures LongestPrefix(value, limit, clipped)
  {
    if limit <= 0 {
      return [];
    }
    clipped := if |value| <= limit then value else value[..limit];
    while clipped != []
      invariant clipped <= value && |clipped| <= limit
      invariant forall k: nat | |clipped| < k <= limit && k <= |value| :: !WellFormed(value[..k])
      decreases |clipped|
    {
      assert clipped == value[..|clipped|];
      if WellFormed(clipped) {
        return;
      }
      clipped := clipped[..|clipped| - 1];
    }
  }

  /** Cutting an encoded text keeps exactly the whole characters that fit. */
  lemma CutKeepsWholeCharacters(s: string, limit: int, r: seq<Byte>)
    requires LongestPrefix(Encode(s), limit, r)
    ensures r == Encode(s[..Fit(s, limit)])
    ensures Size(s) <= limit ==> r == Encode(s)
    ensures 0 < limit < Size(s) ==> limit - 3 <= |r| <= limit
  {
    var kept := s[..Fit(s, limit)];
    assert s == kept + s[Fit(s, limit)..];
    EncodeConcat(kept, s[Fit(s, limit)..]);
    DecodeOfEncode(kept);
    hide Encode, WellFormed, Fit;
    assert Encode(kept) == Encode(s)[..Size(kept)];
    if limit > 0 {
      FitFills(s, limit);
      if |r| < Size(kept) {
      } else if |r| > Size(kept) {
        assert r == Encode(s)[..|r|];
        BeyondFit(s, limit, |r|);
      }
    }
  }
}
