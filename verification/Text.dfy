/** The string primitives the codecs stand on: splitting and joining at a character, decimal
numbers, and hexadecimal. A string here is a sequence of characters, one for each byte. */
module Text {
  import opened Wrappers

  newtype byte = x: int | 0 <= x < 0x100

  // ----- splitting ------------------------------------------------------------------------------

  function Split(s: string, sep: char): (parts: seq<string>)
    ensures |parts| >= 1
  {
    if s == "" then [""]
    else
      var rest := Split(s[1..], sep);
      if s[0] == sep then [""] + rest else [[s[0]] + rest[0]] + rest[1..]
  }

  function Join(parts: seq<string>, sep: char): string
    requires |parts| >= 1
  {
    if |parts| == 1 then parts[0] else parts[0] + [sep] + Join(parts[1..], sep)
  }

  lemma JoinCons(first: string, rest: seq<string>, sep: char)
    requires |rest| >= 1
    ensures Join([first] + rest, sep) == first + [sep] + Join(rest, sep)
  {
    assert ([first] + rest)[1..] == rest;
  }

  lemma JoinThree(a: string, b: string, c: string, sep: char)
    ensures Join([a, b, c], sep) == a + [sep] + b + [sep] + c
  {
    assert [a, b, c] == [a] + [b, c] && [b, c] == [b] + [c];
    JoinCons(b, [c], sep);
    JoinCons(a, [b, c], sep);
  }

  lemma JoinSix(a: string, b: string, c: string, d: string, e: string, f: string, sep: char)
    ensures Join([a, b, c, d, e, f], sep) == a + [sep] + b + [sep] + c + [sep] + d + [sep] + e + [sep] + f
  {
    assert [a, b, c, d, e, f] == [a] + [b, c, d, e, f] && [b, c, d, e, f] == [b] + [c, d, e, f];
    assert [c, d, e, f] == [c] + [d, e, f];
    JoinThree(d, e, f, sep);
    JoinCons(c, [d, e, f], sep);
    JoinCons(b, [c, d, e, f], sep);
    JoinCons(a, [b, c, d, e, f], sep);
  }

  ghost predicate Free(parts: seq<string>, sep: char) {
    forall i :: 0 <= i < |parts| ==> sep !in parts[i]
  }

  /** Splitting loses nothing, and leaves no separator behind. */
  lemma {:induction false} JoinSplit(s: string, sep: char)
    ensures Join(Split(s, sep), sep) == s
    ensures Free(Split(s, sep), sep)
  {
    if s != "" {
      JoinSplit(s[1..], sep);
      var rest := Split(s[1..], sep);
      if s[0] == sep {
        assert ([""] + rest)[1..] == rest;
      } else {
        var first := [s[0]] + rest[0];
        assert ([first] + rest[1..])[1..] == rest[1..];
      }
    }
  }

  /** Parts free of the separator are found again. */
  lemma {:induction false} SplitJoin(parts: seq<string>, sep: char)
    requires |parts| >= 1 && Free(parts, sep)
    ensures Split(Join(parts, sep), sep) == parts
  {
    if |parts| == 1 {
      SplitFree(parts[0], sep);
    } else {
      SplitJoin(parts[1..], sep);
      SplitAfter(parts[0], Join(parts[1..], sep), sep);
      assert parts == [parts[0]] + parts[1..];
      assert parts[0] + [sep] + Join(parts[1..], sep) == parts[0] + ([sep] + Join(parts[1..], sep));
    }
  }

  lemma {:induction false} SplitFree(s: string, sep: char)
    requires sep !in s
    ensures Split(s, sep) == [s]
  {
    if s != "" {
      SplitFree(s[1..], sep);
      assert [s[0]] + s[1..] == s;
    }
  }

  lemma {:induction false} SplitAfter(first: string, rest: string, sep: char)
    requires sep !in first
    ensures Split(first + ([sep] + rest), sep) == [first] + Split(rest, sep)
  {
    var s := first + ([sep] + rest);
    if first == "" {
      assert s[1..] == rest;
    } else {
      SplitAfter(first[1..], rest, sep);
      assert s[1..] == first[1..] + ([sep] + rest);
      assert [first[0]] + first[1..] == first;
    }
  }

  // ----- decimal --------------------------------------------------------------------------------

  const DIGITS := "0123456789"

  function Digit(d: nat): char
    requires d < 10
  {
    (d + '0' as int) as char
  }

  lemma DigitIs(d: nat)
    requires d < 10
    ensures Digit(d) == DIGITS[d]
  {
  }

  /** The number written by digits of a base, the most significant first, after one already read. */
  function Number(read: nat, base: nat, digits: seq<nat>): nat
    decreases |digits|
  {
    if digits == [] then read else Number(read * base + digits[0], base, digits[1..])
  }

  lemma {:induction false} NumberLast(read: nat, base: nat, digits: seq<nat>, d: nat)
    ensures Number(read, base, digits + [d]) == Number(read, base, digits) * base + d
    decreases |digits|
  {
    if digits != [] {
      NumberLast(read * base + digits[0], base, digits[1..], d);
      assert (digits + [d])[1..] == digits[1..] + [d];
    } else {
      assert (digits + [d])[1..] == [];
    }
  }

  /** A number is printed in its decimal digits, the most significant first and no zero before them. */
  lemma {:induction false} FormatIsDecimal(n: nat) returns (digits: seq<nat>)
    ensures |digits| == |FormatUint(n)| && Number(0, 10, digits) == n
    ensures forall i :: 0 <= i < |digits| ==> digits[i] < 10 && FormatUint(n)[i] == DIGITS[digits[i]]
    ensures |digits| > 1 ==> digits[0] != 0
  {
    DigitIs(n % 10);
    if n < 10 {
      digits := [n];
      assert digits[1..] == [];
    } else {
      var first := FormatIsDecimal(n / 10);
      digits := first + [n % 10];
      NumberLast(0, 10, first, n % 10);
    }
  }

  predicate IsDigit(c: char) {
    '0' <= c <= '9'
  }

  lemma DigitIff(c: char)
    ensures IsDigit(c) <==> c in DIGITS
  {
    if IsDigit(c) {
      DigitIs(c as int - '0' as int);
    }
  }

  function DigitValue(c: char): (d: nat)
    requires IsDigit(c)
    ensures d < 10 && Digit(d) == c
  {
    c as int - '0' as int
  }

  function FormatUint(n: nat): (s: string)
    ensures s != "" && forall i :: 0 <= i < |s| ==> IsDigit(s[i])
  {
    if n < 10 then [Digit(n)] else FormatUint(n / 10) + [Digit(n % 10)]
  }

  function ValueOf(s: string): nat
    requires forall i :: 0 <= i < |s| ==> IsDigit(s[i])
  {
    if s == "" then 0
    else ValueOf(s[..|s| - 1]) * 10 + DigitValue(s[|s| - 1])
  }

  /** An unsigned decimal below the limit, in any spelling the language's parser takes: leading zeros
  pass, a sign, an underscore or the empty string does not. */
  function ParseUint(s: string, limit: nat): Option<nat> {
    if s == "" || exists i :: 0 <= i < |s| && !IsDigit(s[i]) then None
    else if ValueOf(s) >= limit then None
    else Some(ValueOf(s))
  }

  lemma {:induction false} ValueOfFormat(n: nat)
    ensures ValueOf(FormatUint(n)) == n
  {
    var s := FormatUint(n);
    if n >= 10 {
      ValueOfFormat(n / 10);
      assert s[..|s| - 1] == FormatUint(n / 10);
    } else {
      assert s[..0] == "";
      assert ValueOf(s) == ValueOf(s[..0]) * 10 + n;
    }
  }

  lemma {:induction false} FormatLength(n: nat, digits: nat, limit: nat)
    requires digits >= 1 && n < limit && limit == PowerOfTen(digits)
    ensures |FormatUint(n)| <= digits
  {
    if n >= 10 {
      assert digits != 1;
      FormatLength(n / 10, digits - 1, PowerOfTen(digits - 1));
    }
  }

  function PowerOfTen(k: nat): nat {
    if k == 0 then 1 else 10 * PowerOfTen(k - 1)
  }

  predicate HasPrefix(s: string, prefix: string) {
    |prefix| <= |s| && s[..|prefix|] == prefix
  }

  /** A named number read back only from its one canonical spelling. */
  function Decimal(field: string, name: string, limit: nat): (r: Option<nat>)
    ensures r.Some? ==> r.value < limit
  {
    if !HasPrefix(field, name) then None
    else
      var v := field[|name|..];
      match ParseUint(v, limit)
      case None => None
      case Some(n) => if FormatUint(n) == v then Some(n) else None
  }

  /** A number is read from exactly one field: its name and its canonical decimal. */
  lemma DecimalIff(field: string, name: string, limit: nat, n: nat)
    ensures Decimal(field, name, limit) == Some(n) <==> n < limit && field == name + FormatUint(n)
  {
    if n < limit && field == name + FormatUint(n) {
      assert field[|name|..] == FormatUint(n) && field[..|name|] == name;
      ValueOfFormat(n);
    }
    if Decimal(field, name, limit) == Some(n) {
      assert field == field[..|name|] + field[|name|..];
    }
  }

  // ----- letters --------------------------------------------------------------------------------

  const LOWER_CASE := "abcdefghijklmnopqrstuvwxyz"
  const UPPER_CASE := "ABCDEFGHIJKLMNOPQRSTUVWXYZ"

  lemma LetterAt(i: nat)
    requires i < 26
    ensures LOWER_CASE[i] == ('a' as int + i) as char && UPPER_CASE[i] == ('A' as int + i) as char
  {
  }

  lemma LowerIff(c: char)
    ensures 'a' <= c <= 'z' <==> c in LOWER_CASE
  {
    if 'a' <= c <= 'z' {
      LetterAt(c as int - 'a' as int);
    }
    if c in LOWER_CASE {
      var i :| 0 <= i < 26 && LOWER_CASE[i] == c;
      LetterAt(i);
    }
  }

  lemma UpperIff(c: char)
    ensures 'A' <= c <= 'Z' <==> c in UPPER_CASE
  {
    if 'A' <= c <= 'Z' {
      LetterAt(c as int - 'A' as int);
    }
    if c in UPPER_CASE {
      var i :| 0 <= i < 26 && UPPER_CASE[i] == c;
      LetterAt(i);
    }
  }

  // ----- hexadecimal ----------------------------------------------------------------------------

  function HexDigit(d: nat): char
    requires d < 16
  {
    if d < 10 then Digit(d) else (d - 10 + 'a' as int) as char
  }

  function Hex(bytes: seq<byte>): (s: string)
    ensures |s| == 2 * |bytes|
  {
    if bytes == [] then ""
    else [HexDigit(bytes[0] as nat / 16), HexDigit(bytes[0] as nat % 16)] + Hex(bytes[1..])
  }

  lemma {:induction false} HexInjective(a: seq<byte>, b: seq<byte>)
    requires Hex(a) == Hex(b)
    ensures a == b
  {
    assert |a| == |b|;
    if a != [] {
      var s := Hex(a);
      assert s[0] == HexDigit(a[0] as nat / 16) && s[0] == HexDigit(b[0] as nat / 16);
      assert s[1] == HexDigit(a[0] as nat % 16) && s[1] == HexDigit(b[0] as nat % 16);
      assert a[0] == b[0];
      assert s[2..] == Hex(a[1..]) && s[2..] == Hex(b[1..]);
      HexInjective(a[1..], b[1..]);
      assert a == [a[0]] + a[1..] && b == [b[0]] + b[1..];
    }
  }
}
