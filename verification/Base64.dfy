/** Unpadded base64 in its standard and its URL alphabet (sections 4 and 5 of RFC 4648), and
Crockford's Base32 over the five bytes of a key's lookup part. */
module Base64 {
  import opened Wrappers
  import opened Text

  datatype Alphabet = Standard | Url

  const STANDARD_ALPHABET := "ABCDEFGHIJKLMNOPQRSTUVWXYZ" + "abcdefghijklmnopqrstuvwxyz" + "0123456789" + "+/"
  const URL_ALPHABET := "ABCDEFGHIJKLMNOPQRSTUVWXYZ" + "abcdefghijklmnopqrstuvwxyz" + "0123456789" + "-_"

  function Symbol(i: nat, a: Alphabet): char
    requires i < 64
  {
    if i < 26 then (i + 'A' as int) as char
    else if i < 52 then (i - 26 + 'a' as int) as char
    else if i < 62 then (i - 52 + '0' as int) as char
    else if i == 62 then (if a == Standard then '+' else '-')
    else if a == Standard then '/' else '_'
  }

  lemma SymbolIs(i: nat, a: Alphabet)
    requires i < 64
    ensures Symbol(i, a) == (if a == Standard then STANDARD_ALPHABET else URL_ALPHABET)[i]
  {
  }

  /** The symbols of an alphabet are exactly its characters. */
  lemma IsSymbolIff(c: char, a: Alphabet)
    ensures IsSymbol(c, a) <==> c in if a == Standard then STANDARD_ALPHABET else URL_ALPHABET
  {
    var alphabet := if a == Standard then STANDARD_ALPHABET else URL_ALPHABET;
    if IsSymbol(c, a) {
      SymbolIs(Value(c, a), a);
    }
    if c in alphabet {
      var i :| 0 <= i < 64 && alphabet[i] == c;
      SymbolIs(i, a);
    }
  }

  /** The value of a symbol, or 64 for a character outside the alphabet. */
  function Value(c: char, a: Alphabet): (v: nat)
    ensures v <= 64
    ensures v < 64 ==> Symbol(v, a) == c
    ensures forall i: nat :: i < 64 && Symbol(i, a) == c ==> v == i
  {
    if 'A' <= c <= 'Z' then c as int - 'A' as int
    else if 'a' <= c <= 'z' then c as int - 'a' as int + 26
    else if '0' <= c <= '9' then c as int - '0' as int + 52
    else if c == (if a == Standard then '+' else '-') then 62
    else if c == (if a == Standard then '/' else '_') then 63
    else 64
  }

  predicate IsSymbol(c: char, a: Alphabet) {
    Value(c, a) < 64
  }

  /** A value of six bits. */
  type Sextet = x: nat | x < 64

  function Sextets(b: seq<byte>): (v: seq<Sextet>)
    ensures |v| == (4 * |b| + 2) / 3
  {
    if |b| == 0 then []
    else
      var b0 := b[0] as nat;
      if |b| == 1 then [b0 / 4, b0 % 4 * 16]
      else
        var b1 := b[1] as nat;
        if |b| == 2 then [b0 / 4, b0 % 4 * 16 + b1 / 16, b1 % 16 * 4]
        else
          var b2 := b[2] as nat;
          [b0 / 4, b0 % 4 * 16 + b1 / 16, b1 % 16 * 4 + b2 / 64, b2 % 64] + Sextets(b[3..])
  }

  /** Strict reading: a lone sextet is refused, and so are bits left over after the last byte that are
  not zero (section 3.5 of RFC 4648). */
  function Bytes(v: seq<Sextet>): Option<seq<byte>> {
    if |v| == 0 then Some([])
    else if |v| == 1 then None
    else
      var v0: nat, v1: nat := v[0], v[1];
      var b0 := (v0 * 4 + v1 / 16) as byte;
      if |v| == 2 then if v1 % 16 == 0 then Some([b0]) else None
      else
        var v2: nat := v[2];
        var b1 := (v1 % 16 * 16 + v2 / 4) as byte;
        if |v| == 3 then if v2 % 4 == 0 then Some([b0, b1]) else None
        else
          var v3: nat := v[3];
          match Bytes(v[4..])
          case None => None
          case Some(rest) => Some([b0, b1, (v2 % 4 * 64 + v3) as byte] + rest)
  }

  lemma BytesBack(b0: nat, b1: nat, b2: nat)
    requires b0 < 256 && b1 < 256 && b2 < 256
    ensures b0 / 4 * 4 + (b0 % 4 * 16 + b1 / 16) / 16 == b0
    ensures (b0 % 4 * 16 + b1 / 16) % 16 * 16 + (b1 % 16 * 4 + b2 / 64) / 4 == b1
    ensures (b1 % 16 * 4 + b2 / 64) % 4 * 64 + b2 % 64 == b2
  {
  }

  lemma {:induction false} BytesOfSextets(b: seq<byte>)
    ensures Bytes(Sextets(b)) == Some(b)
  {
    if |b| >= 3 {
      BytesOfSextets(b[3..]);
      assert Sextets(b)[4..] == Sextets(b[3..]);
      BytesBack(b[0] as nat, b[1] as nat, b[2] as nat);
      assert b == [b[0], b[1], b[2]] + b[3..];
    } else if |b| == 2 {
      BytesOfTwo(b);
    } else if |b| == 1 {
      BytesBack(b[0] as nat, 0, 0);
      assert b == [b[0]];
    }
  }

  lemma BytesOfTwo(b: seq<byte>)
    requires |b| == 2
    ensures Bytes(Sextets(b)) == Some(b)
  {
    var b0, b1 := b[0] as nat, b[1] as nat;
    TwoBack(b0, b1);
    var v := Sextets(b);
    var v0: nat, v1: nat, v2: nat := v[0], v[1], v[2];
    assert |v| == 3 && v0 == b0 / 4 && v1 == b0 % 4 * 16 + b1 / 16 && v2 == b1 % 16 * 4;
    assert v0 * 4 + v1 / 16 == b0 && v1 % 16 * 16 + v2 / 4 == b1 && v2 % 4 == 0;
    BytesOfThree(v, b[0], b[1]);
    assert b == [b[0], b[1]];
  }

  lemma BytesOfThree(v: seq<Sextet>, b0: byte, b1: byte)
    requires |v| == 3
    requires var v0: nat, v1: nat, v2: nat := v[0], v[1], v[2];
      v0 * 4 + v1 / 16 == b0 as nat && v1 % 16 * 16 + v2 / 4 == b1 as nat && v2 % 4 == 0
    ensures Bytes(v) == Some([b0, b1])
  {
  }

  lemma TwoBack(b0: nat, b1: nat)
    requires b0 < 256 && b1 < 256
    ensures b0 / 4 * 4 + (b0 % 4 * 16 + b1 / 16) / 16 == b0
    ensures (b0 % 4 * 16 + b1 / 16) % 16 * 16 + b1 % 16 * 4 / 4 == b1
    ensures b1 % 16 * 4 % 4 == 0
  {
    BytesBack(b0, b1, 0);
  }

  function Symbols(v: seq<Sextet>, a: Alphabet): (s: string)
    ensures |s| == |v|
  {
    seq(|v|, i requires 0 <= i < |v| => Symbol(v[i], a))
  }

  function SextetOf(c: char, a: Alphabet): Sextet
    requires IsSymbol(c, a)
  {
    Value(c, a)
  }

  function Values(s: string, a: Alphabet): (v: seq<Sextet>)
    requires forall i :: 0 <= i < |s| ==> IsSymbol(s[i], a)
    ensures |v| == |s|
  {
    seq(|s|, i requires 0 <= i < |s| => SextetOf(s[i], a))
  }

  function Encode(b: seq<byte>, a: Alphabet): (s: string)
    ensures |s| == (4 * |b| + 2) / 3
    ensures forall i :: 0 <= i < |s| ==> IsSymbol(s[i], a)
  {
    Symbols(Sextets(b), a)
  }

  function DecodeSymbols(s: string, a: Alphabet): Option<seq<byte>> {
    if exists i :: 0 <= i < |s| && !IsSymbol(s[i], a) then None
    else Bytes(Values(s, a))
  }

  lemma DecodeEncode(b: seq<byte>, a: Alphabet)
    ensures DecodeSymbols(Encode(b, a), a) == Some(b)
  {
    BytesOfSextets(b);
    assert Values(Encode(b, a), a) == Sextets(b);
  }

  lemma EncodeInjective(b: seq<byte>, b': seq<byte>, a: Alphabet)
    requires Encode(b, a) == Encode(b', a)
    ensures b == b'
  {
    DecodeEncode(b, a);
    DecodeEncode(b', a);
  }

  /** The language's decoder skips line breaks wherever they stand. */
  function SkipLineBreaks(s: string): string {
    if s == "" then ""
    else if s[0] == '\r' || s[0] == '\n' then SkipLineBreaks(s[1..])
    else [s[0]] + SkipLineBreaks(s[1..])
  }

  function StrictBase64(s: string): Option<seq<byte>> {
    match DecodeSymbols(SkipLineBreaks(s), Standard)
    case None => None
    case Some(b) => if Encode(b, Standard) == s then Some(b) else None
  }

  lemma {:induction false} NothingToSkip(s: string)
    requires forall i :: 0 <= i < |s| ==> s[i] != '\r' && s[i] != '\n'
    ensures SkipLineBreaks(s) == s
  {
    if s != "" {
      NothingToSkip(s[1..]);
    }
  }

  /** Bytes are read from exactly one spelling: their canonical encoding. */
  lemma StrictBase64Iff(s: string, b: seq<byte>)
    ensures StrictBase64(s) == Some(b) <==> s == Encode(b, Standard)
  {
    if s == Encode(b, Standard) {
      NothingToSkip(s);
      DecodeEncode(b, Standard);
    }
  }

  // ----- what the encodings say -----------------------------------------------------------------

  function Octets(b: seq<byte>): seq<nat> {
    seq(|b|, i requires 0 <= i < |b| => b[i] as nat)
  }

  /** The zero bits after the last byte, as a factor. */
  function Padding(length: nat): nat {
    if length % 3 == 0 then 1 else if length % 3 == 1 then 16 else 4
  }

  lemma NumberOne(read: nat, base: nat, d: nat, rest: seq<nat>)
    ensures Number(read, base, [d] + rest) == Number(read * base + d, base, rest)
  {
    assert ([d] + rest)[1..] == rest;
  }

  lemma NumberTwo(read: nat, base: nat, d: nat, e: nat, rest: seq<nat>)
    ensures Number(read, base, [d, e] + rest) == Number((read * base + d) * base + e, base, rest)
  {
    assert [d, e] + rest == [d] + ([e] + rest);
    NumberOne(read, base, d, [e] + rest);
    NumberOne(read * base + d, base, e, rest);
  }

  lemma NumberThree(read: nat, base: nat, d: nat, e: nat, f: nat, rest: seq<nat>)
    ensures Number(read, base, [d, e, f] + rest) == Number(((read * base + d) * base + e) * base + f, base, rest)
  {
    assert [d, e, f] + rest == [d] + ([e, f] + rest);
    NumberOne(read, base, d, [e, f] + rest);
    NumberTwo(read * base + d, base, e, f, rest);
  }

  lemma NumberFour(read: nat, base: nat, d: nat, e: nat, f: nat, g: nat, rest: seq<nat>)
    ensures Number(read, base, [d, e, f, g] + rest) ==
            Number((((read * base + d) * base + e) * base + f) * base + g, base, rest)
  {
    assert [d, e, f, g] + rest == [d] + ([e, f, g] + rest);
    NumberOne(read, base, d, [e, f, g] + rest);
    NumberThree(read * base + d, base, e, f, g, rest);
  }

  lemma ThreeBytesInFour(read: nat, b0: nat, b1: nat, b2: nat, v0: nat, v1: nat, v2: nat, v3: nat)
    requires v0 == b0 / 4 && v1 == b0 % 4 * 16 + b1 / 16 && v2 == b1 % 16 * 4 + b2 / 64 && v3 == b2 % 64
    ensures (((read * 64 + v0) * 64 + v1) * 64 + v2) * 64 + v3 == ((read * 256 + b0) * 256 + b1) * 256 + b2
  {
  }

  lemma {:induction false} LastTwo(read: nat, b: seq<byte>)
    requires |b| == 2
    ensures Number(read, 64, Sextets(b)) == Number(read, 256, Octets(b)) * 4
  {
    var v, b0, b1 := Sextets(b), b[0] as nat, b[1] as nat;
    assert Octets(b) == [b0, b1] + [];
    NumberTwo(read, 256, b0, b1, []);
    assert v == [v[0], v[1], v[2]] + [];
    NumberThree(read, 64, v[0], v[1], v[2], []);
    ThreeBytesInFour(read, b0, b1, 0, v[0], v[1], v[2], 0);
  }

  lemma {:induction false} LastOne(read: nat, b: seq<byte>)
    requires |b| == 1
    ensures Number(read, 64, Sextets(b)) == Number(read, 256, Octets(b)) * 16
  {
    var v, b0 := Sextets(b), b[0] as nat;
    assert Octets(b) == [b0] + [];
    NumberOne(read, 256, b0, []);
    assert v == [v[0], v[1]] + [];
    NumberTwo(read, 64, v[0], v[1], []);
  }

  lemma {:induction false} FirstThree(read: nat, b: seq<byte>)
    requires |b| >= 3
    ensures var next := ((read * 256 + b[0] as nat) * 256 + b[1] as nat) * 256 + b[2] as nat;
      && Number(read, 64, Sextets(b)) == Number(next, 64, Sextets(b[3..]))
      && Number(read, 256, Octets(b)) == Number(next, 256, Octets(b[3..]))
  {
    var v, b0, b1, b2 := Sextets(b), b[0] as nat, b[1] as nat, b[2] as nat;
    assert Octets(b) == [b0, b1, b2] + Octets(b[3..]);
    NumberThree(read, 256, b0, b1, b2, Octets(b[3..]));
    assert v == [v[0], v[1], v[2], v[3]] + Sextets(b[3..]);
    NumberFour(read, 64, v[0], v[1], v[2], v[3], Sextets(b[3..]));
    ThreeBytesInFour(read, b0, b1, b2, v[0], v[1], v[2], v[3]);
  }

  /** The sextets write the same number as the bytes, followed by the padding's zero bits. */
  lemma {:induction false} SextetsNumber(read: nat, b: seq<byte>)
    ensures Number(read, 64, Sextets(b)) == Number(read, 256, Octets(b)) * Padding(|b|)
    decreases |b|
  {
    if |b| >= 3 {
      FirstThree(read, b);
      SextetsNumber(((read * 256 + b[0] as nat) * 256 + b[1] as nat) * 256 + b[2] as nat, b[3..]);
      assert Padding(|b|) == Padding(|b| - 3);
    } else if |b| == 2 {
      LastTwo(read, b);
    } else if |b| == 1 {
      LastOne(read, b);
    }
  }

  /** An encoding is the number its bytes write, in base 64 and the alphabet's symbols, the most
  significant first. */
  lemma {:induction false} EncodeIsBase64(b: seq<byte>, a: Alphabet) returns (digits: seq<nat>)
    ensures |digits| == |Encode(b, a)| == (4 * |b| + 2) / 3
    ensures forall i :: 0 <= i < |digits| ==>
      digits[i] < 64 && Encode(b, a)[i] == (if a == Standard then STANDARD_ALPHABET else URL_ALPHABET)[digits[i]]
    ensures Number(0, 64, digits) == Number(0, 256, Octets(b)) * Padding(|b|)
  {
    digits := Sextets(b);
    SextetsNumber(0, b);
    forall i | 0 <= i < |digits|
      ensures Encode(b, a)[i] == (if a == Standard then STANDARD_ALPHABET else URL_ALPHABET)[digits[i]]
    {
      SymbolIs(Sextets(b)[i], a);
    }
  }

  // ----- Crockford's Base32 ---------------------------------------------------------------------

  const LOOKUP_ALPHABET := "0123456789ABCDEFGHJKMNPQRSTVWXYZ"

  function LookupSymbol(i: nat): (c: char)
    requires i < 32
    ensures c == LOOKUP_ALPHABET[i]
  {
    if i < 10 then Digit(i)
    else if i < 18 then (i - 10 + 'A' as int) as char
    else if i < 20 then (i - 18 + 'J' as int) as char
    else if i < 22 then (i - 20 + 'M' as int) as char
    else if i < 27 then (i - 22 + 'P' as int) as char
    else (i - 27 + 'V' as int) as char
  }

  predicate IsLookupSymbol(c: char) {
    c in LOOKUP_ALPHABET
  }

  function Quintets(b: seq<byte>): (q: seq<nat>)
    requires |b| == 5
    ensures |q| == 8 && forall i :: 0 <= i < 8 ==> q[i] < 32
  {
    var b0, b1, b2, b3, b4 := b[0] as nat, b[1] as nat, b[2] as nat, b[3] as nat, b[4] as nat;
    [ b0 / 8, b0 % 8 * 4 + b1 / 64, b1 / 2 % 32, b1 % 2 * 16 + b2 / 16,
      b2 % 16 * 2 + b3 / 128, b3 / 4 % 32, b3 % 4 * 8 + b4 / 32, b4 % 32 ]
  }

  /** Five bytes as eight symbols of five bits each. */
  function EncodeLookup(b: seq<byte>): (s: string)
    requires |b| == 5
    ensures |s| == 8
  {
    seq(8, i requires 0 <= i < 8 => LookupSymbol(Quintets(b)[i]))
  }

  lemma LookupSymbols(b: seq<byte>)
    requires |b| == 5
    ensures forall i :: 0 <= i < 8 ==> IsLookupSymbol(EncodeLookup(b)[i])
  {
  }

  lemma LookupSymbolInjective(i: nat, j: nat)
    requires i < 32 && j < 32 && LookupSymbol(i) == LookupSymbol(j)
    ensures i == j
  {
  }

  lemma FirstQuintets(b0: nat, b1: nat, b2: nat, c0: nat, c1: nat, c2: nat)
    requires b0 < 256 && b1 < 256 && b2 < 256 && c0 < 256 && c1 < 256 && c2 < 256
    requires b0 / 8 == c0 / 8 && b0 % 8 * 4 + b1 / 64 == c0 % 8 * 4 + c1 / 64
    requires b1 / 2 % 32 == c1 / 2 % 32 && b1 % 2 * 16 + b2 / 16 == c1 % 2 * 16 + c2 / 16
    ensures b0 == c0 && b1 == c1 && b2 / 16 == c2 / 16
  {
    assert b0 % 8 == c0 % 8 && b1 / 64 == c1 / 64;
    assert b1 % 2 == c1 % 2 && b2 / 16 == c2 / 16;
    ThreeParts(b1);
    ThreeParts(c1);
  }

  lemma ThreeParts(b: nat)
    requires b < 256
    ensures b == b / 128 * 128 + b / 4 % 32 * 4 + b % 4
    ensures b == b / 64 * 64 + b / 2 % 32 * 2 + b % 2
  {
    assert b / 4 == b / 128 * 32 + b / 4 % 32;
    assert b / 2 == b / 64 * 32 + b / 2 % 32;
  }

  lemma LastQuintets(b2: nat, b3: nat, b4: nat, c2: nat, c3: nat, c4: nat)
    requires b2 < 256 && b3 < 256 && b4 < 256 && c2 < 256 && c3 < 256 && c4 < 256
    requires b2 / 16 == c2 / 16 && b2 % 16 * 2 + b3 / 128 == c2 % 16 * 2 + c3 / 128
    requires b3 / 4 % 32 == c3 / 4 % 32 && b3 % 4 * 8 + b4 / 32 == c3 % 4 * 8 + c4 / 32 && b4 % 32 == c4 % 32
    ensures b2 == c2 && b3 == c3 && b4 == c4
  {
    assert b2 % 16 == c2 % 16 && b3 / 128 == c3 / 128;
    assert b3 % 4 == c3 % 4 && b4 / 32 == c4 / 32;
    ThreeParts(b3);
    ThreeParts(c3);
  }

  /** Distinct random bytes make distinct lookup parts. */
  lemma EncodeLookupInjective(b: seq<byte>, c: seq<byte>)
    requires |b| == 5 && |c| == 5 && EncodeLookup(b) == EncodeLookup(c)
    ensures b == c
  {
    forall i | 0 <= i < 8 ensures Quintets(b)[i] == Quintets(c)[i] {
      assert EncodeLookup(b)[i] == LookupSymbol(Quintets(b)[i]);
      assert EncodeLookup(c)[i] == LookupSymbol(Quintets(c)[i]);
      LookupSymbolInjective(Quintets(b)[i], Quintets(c)[i]);
    }
    var q, r := Quintets(b), Quintets(c);
    assert q[0] == r[0] && q[1] == r[1] && q[2] == r[2] && q[3] == r[3];
    assert q[4] == r[4] && q[5] == r[5] && q[6] == r[6] && q[7] == r[7];
    FirstQuintets(b[0] as nat, b[1] as nat, b[2] as nat, c[0] as nat, c[1] as nat, c[2] as nat);
    LastQuintets(b[2] as nat, b[3] as nat, b[4] as nat, c[2] as nat, c[3] as nat, c[4] as nat);
  }

  lemma FirstHalf(b0: nat, b1: nat, b2: nat, q0: nat, q1: nat, q2: nat, q3: nat)
    requires b0 < 256 && b1 < 256 && b2 < 256
    requires q0 == b0 / 8 && q1 == b0 % 8 * 4 + b1 / 64 && q2 == b1 / 2 % 32 && q3 == b1 % 2 * 16 + b2 / 16
    ensures ((q0 * 32 + q1) * 32 + q2) * 32 + q3 == (b0 * 256 + b1) * 16 + b2 / 16
  {
    ThreeParts(b1);
  }

  lemma SecondHalf(half: nat, b2: nat, b3: nat, b4: nat, q4: nat, q5: nat, q6: nat, q7: nat)
    requires b2 < 256 && b3 < 256 && b4 < 256
    requires q4 == b2 % 16 * 2 + b3 / 128 && q5 == b3 / 4 % 32 && q6 == b3 % 4 * 8 + b4 / 32 && q7 == b4 % 32
    ensures (((half * 32 + q4) * 32 + q5) * 32 + q6) * 32 + q7 == ((half * 16 + b2 % 16) * 256 + b3) * 256 + b4
  {
    ThreeParts(b3);
  }

  lemma {:induction false} NumberEight(q: seq<nat>, half: nat)
    requires |q| == 8 && half == ((q[0] * 32 + q[1]) * 32 + q[2]) * 32 + q[3]
    ensures Number(0, 32, q) == (((half * 32 + q[4]) * 32 + q[5]) * 32 + q[6]) * 32 + q[7]
  {
    var rest := [q[4], q[5], q[6], q[7]] + [];
    assert q == [q[0], q[1], q[2], q[3]] + rest;
    NumberFour(0, 32, q[0], q[1], q[2], q[3], rest);
    NumberFour(half, 32, q[4], q[5], q[6], q[7], []);
  }

  lemma {:induction false} NumberFive(b: seq<nat>)
    requires |b| == 5
    ensures Number(0, 256, b) == (((b[0] * 256 + b[1]) * 256 + b[2]) * 256 + b[3]) * 256 + b[4]
  {
    var rest := [b[3], b[4]] + [];
    assert b == [b[0], b[1], b[2]] + rest;
    NumberThree(0, 256, b[0], b[1], b[2], rest);
    NumberTwo((b[0] * 256 + b[1]) * 256 + b[2], 256, b[3], b[4], []);
  }

  /** A lookup part is the number its five bytes write, in base 32 and Crockford's symbols. */
  lemma {:induction false} LookupIsBase32(b: seq<byte>) returns (digits: seq<nat>)
    requires |b| == 5
    ensures |digits| == |EncodeLookup(b)| == 8
    ensures forall i :: 0 <= i < 8 ==> digits[i] < 32 && EncodeLookup(b)[i] == LOOKUP_ALPHABET[digits[i]]
    ensures Number(0, 32, digits) == Number(0, 256, Octets(b))
  {
    var q, o := Quintets(b), Octets(b);
    var half := (o[0] * 256 + o[1]) * 16 + o[2] / 16;
    FirstHalf(o[0], o[1], o[2], q[0], q[1], q[2], q[3]);
    SecondHalf(half, o[2], o[3], o[4], q[4], q[5], q[6], q[7]);
    NumberEight(q, half);
    NumberFive(o);
    digits := q;
  }
}
