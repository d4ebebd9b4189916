/** Identity codes of identitycode/identitycode.go: the many spellings of a person's or an
organisation's code, the one that is stored, and the one that is shown. A string is a sequence of
Unicode characters. */
module IdentityCode {
  import opened Wrappers
  import Text

  datatype Refusal = Empty | CountryRequired | CountryInvalid | UnknownSemantics | Ambiguous | Malformed

  /** The identity types of clauses 5.1.3 and 5.1.4 of ETSI EN 319 412-1 V1.7.1 that are recognised. */
  const RECOGNISED: set<string> := {"PNO", "NTR", "PAS", "IDC", "TIN"}

  const PERSONAL_NUMBER := "PNO"

  datatype Code = Code(semantics: string, country: string, identifier: string) {
    function ToString(): string {
      semantics + country + "-" + identifier
    }
  }

  // ----- characters -----------------------------------------------------------------------------

  predicate IsUpper(c: char) { 'A' <= c <= 'Z' }

  predicate IsLower(c: char) { 'a' <= c <= 'z' }

  predicate IsLetter(c: char) { IsUpper(c) || IsLower(c) }

  predicate IsDigit(c: char) { '0' <= c <= '9' }

  function Upper(c: char): char {
    if IsLower(c) then (c as int - 'a' as int + 'A' as int) as char else c
  }

  predicate IsSpace(c: char) {
    || '\t' <= c <= '\r' || c == ' ' || c == '\U{85}' || c == '\U{A0}' || c == '\U{1680}'
    || '\U{2000}' <= c <= '\U{200A}' || c == '\U{2028}' || c == '\U{2029}' || c == '\U{202F}'
    || c == '\U{205F}' || c == '\U{3000}'
  }

  predicate IsSeparator(c: char) {
    IsSpace(c) || c == '-' || c == '.' || c == '/'
  }

  /** Every space of Unicode, and the other separators. */
  const SPACES := "\t\n\U{0B}\U{0C}\r \U{85}\U{A0}\U{1680}" +
    "\U{2000}\U{2001}\U{2002}\U{2003}\U{2004}\U{2005}\U{2006}\U{2007}\U{2008}\U{2009}\U{200A}" +
    "\U{2028}\U{2029}\U{202F}\U{205F}\U{3000}"
  const MARKS := "-./"

  lemma SpaceIff(c: char)
    ensures IsSpace(c) <==> c in SPACES
  {
    assert SPACES[0] == '\t' && SPACES[1] == '\n' && SPACES[4] == '\r' && SPACES[5] == ' ';
    assert SPACES[6] == '\U{85}' && SPACES[7] == '\U{A0}' && SPACES[8] == '\U{1680}';
    assert '\U{2000}' <= c <= '\U{200A}' ==> SPACES[9 + c as int - 0x2000] == c;
    assert '\t' <= c <= '\r' ==> SPACES[c as int - 9] == c;
    assert SPACES[20] == '\U{2028}' && SPACES[21] == '\U{2029}' && SPACES[22] == '\U{202F}';
    assert SPACES[23] == '\U{205F}' && SPACES[24] == '\U{3000}';
  }

  /** The classes of characters, written out. */
  lemma CharactersAre(c: char)
    ensures IsUpper(c) <==> c in Text.UPPER_CASE
    ensures IsLower(c) <==> c in Text.LOWER_CASE
    ensures IsDigit(c) <==> c in Text.DIGITS
    ensures IsSeparator(c) <==> c in SPACES || c in MARKS
  {
    Text.UpperIff(c);
    Text.LowerIff(c);
    Text.DigitIff(c);
    SpaceIff(c);
  }

  /** The i-th small letter becomes the i-th capital, and every other character stays. */
  lemma UpperIs(c: char)
    ensures forall i :: 0 <= i < 26 ==> Upper(Text.LOWER_CASE[i]) == Text.UPPER_CASE[i]
    ensures c !in Text.LOWER_CASE ==> Upper(c) == c
  {
    Text.LowerIff(c);
    forall i: nat | i < 26 ensures Upper(Text.LOWER_CASE[i]) == Text.UPPER_CASE[i] {
      Text.LetterAt(i);
    }
  }

  predicate Letters(s: string) {
    forall i :: 0 <= i < |s| ==> IsLetter(s[i])
  }

  predicate Uppers(s: string) {
    forall i :: 0 <= i < |s| ==> IsUpper(s[i])
  }

  predicate Digits(s: string) {
    forall i :: 0 <= i < |s| ==> IsDigit(s[i])
  }

  /** What a stored identifier is written in. */
  predicate Plain(s: string) {
    forall i :: 0 <= i < |s| ==> IsUpper(s[i]) || IsDigit(s[i])
  }

  /** What an identifier may be written in before it is reduced. */
  predicate Clean(s: string) {
    forall i :: 0 <= i < |s| ==> IsSeparator(s[i]) || IsLetter(s[i]) || IsDigit(s[i])
  }

  function TrimLeft(s: string): (r: string)
    ensures |r| <= |s|
  {
    if s != "" && IsSpace(s[0]) then TrimLeft(s[1..]) else s
  }

  function TrimRight(s: string): (r: string)
    ensures r <= s
  {
    if s != "" && IsSpace(s[|s| - 1]) then TrimRight(s[..|s| - 1]) else s
  }

  function TrimSpace(s: string): (r: string)
    ensures |r| <= |s|
  {
    TrimRight(TrimLeft(s))
  }

  function AsciiUpper(s: string): (r: string)
    ensures |r| == |s| && forall i :: 0 <= i < |s| ==> r[i] == Upper(s[i])
  {
    if s == "" then "" else [Upper(s[0])] + AsciiUpper(s[1..])
  }

  /** Separators gone, letters upper-cased, everything else as it is. */
  function Reduced(s: string): string {
    if s == "" then ""
    else if IsSeparator(s[0]) then Reduced(s[1..])
    else [Upper(s[0])] + Reduced(s[1..])
  }

  // ----- shapes ---------------------------------------------------------------------------------

  /** Two letters, a slash, two letters, a slash, and a rest on one line. */
  predicate CrossBorder(v: string) {
    |v| >= 7 && Letters(v[..2]) && v[2] == '/' && Letters(v[3..5]) && v[5] == '/' && '\n' !in v[6..]
  }

  /** Three letters of type, two of country, a hyphen, and a rest on one line. */
  predicate Prefixed(v: string) {
    |v| >= 6 && Letters(v[..5]) && v[5] == '-' && '\n' !in v[6..]
  }

  predicate LocalPrefixed(v: string) {
    |v| >= 6 && Letters(v[..2]) && v[2] == ':' && Letters(v[3..5]) && v[5] == '-'
  }

  predicate StoredForm(s: string) {
    |s| >= 7 && Uppers(s[..5]) && s[5] == '-' && Plain(s[6..])
  }

  predicate BeginsLikeAPrefix(id: string) {
    |id| >= 5 && Letters(id[..5])
  }

  // ----- the operations -------------------------------------------------------------------------

  function ParseOf(s: string): Result<Code, Refusal> {
    if !StoredForm(s) then Err(Malformed)
    else if s[..3] !in RECOGNISED then Err(UnknownSemantics)
    else Ok(Code(s[..3], s[3..5], s[6..]))
  }

  function IdentifierOf(part: string): Result<string, Refusal> {
    if !Clean(part) || Reduced(part) == "" then Err(Malformed) else Ok(Reduced(part))
  }

  function CountryOf(hint: string): Result<string, Refusal> {
    var h := TrimSpace(hint);
    if h == "" then Err(CountryRequired)
    else if |h| != 2 || !Letters(h) then Err(CountryInvalid)
    else Ok(AsciiUpper(h))
  }

  datatype Unwrapped = Unwrapped(country: string, value: string)

  /** Strips one country pair at a time; the value shortens by six characters or more each time. */
  function Unwrap(country: string, v: string): Unwrapped
    decreases |v|
  {
    if CrossBorder(v) then Unwrap(v[..2], TrimSpace(v[6..])) else Unwrapped(country, v)
  }

  /** The code of a value that carries its own prefix. */
  function FromPrefixed(v: string): Result<string, Refusal>
    requires Prefixed(v)
  {
    var semantics := AsciiUpper(v[..3]);
    if semantics !in RECOGNISED then Err(UnknownSemantics)
    else match IdentifierOf(v[6..])
      case Err(e) => Err(e)
      case Ok(id) => Ok(semantics + AsciiUpper(v[3..5]) + "-" + id)
  }

  /** The code of a value without one, under the country known for it. */
  function FromBare(country: string, v: string): Result<string, Refusal> {
    match CountryOf(country)
    case Err(e) => Err(e)
    case Ok(cc) =>
      match IdentifierOf(v)
      case Err(e) => Err(e)
      case Ok(id) => if BeginsLikeAPrefix(id) then Err(Ambiguous) else Ok(PERSONAL_NUMBER + cc + "-" + id)
  }

  function CanonicalOf(raw: string, country: string): Result<string, Refusal> {
    if TrimSpace(raw) == "" then Err(Empty)
    else
      var u := Unwrap(country, TrimSpace(raw));
      if Prefixed(u.value) then FromPrefixed(u.value)
      else if LocalPrefixed(u.value) then Err(UnknownSemantics)
      else FromBare(u.country, u.value)
  }

  function KeyOf(stored: string): string {
    var v := TrimSpace(stored);
    if ParseOf(v).Ok? then ParseOf(v).value.ToString()
    else if CanonicalOf(v, "").Ok? then CanonicalOf(v, "").value
    else Reduced(v)
  }

  function LatvianSplit(id: string): Option<string> {
    if |id| != 11 || !Digits(id) then None else Some(id[..6] + "-" + id[6..])
  }

  function DisplayOf(stored: string): string {
    match ParseOf(TrimSpace(stored))
    case Err(_) => stored
    case Ok(c) =>
      if c.semantics == PERSONAL_NUMBER && c.country == "LV" && LatvianSplit(c.identifier).Some?
      then LatvianSplit(c.identifier).value
      else c.ToString()
  }

  // ----- the loops ------------------------------------------------------------------------------

  method ToUpper(s: string) returns (r: string)
    ensures r == AsciiUpper(s)
  {
    r := s;
    for i := 0 to |s|
      invariant |r| == |s|
      invariant forall j :: 0 <= j < i ==> r[j] == Upper(s[j])
      invariant forall j :: i <= j < |s| ==> r[j] == s[j]
    {
      if IsLower(s[i]) {
        r := r[i := Upper(s[i])];
      }
    }
  }

  method Identifier(part: string) returns (r: Result<string, Refusal>)
    ensures r == IdentifierOf(part)
  {
    var b := "";
    for i := 0 to |part|
      invariant Clean(part[..i]) && b == Reduced(part[..i])
    {
      var c := part[i];
      ReducedAppend(part[..i], [c]);
      assert part[..i + 1] == part[..i] + [c];
      if IsSeparator(c) {
      } else if IsDigit(c) || IsUpper(c) {
        b := b + [c];
      } else if IsLower(c) {
        b := b + [Upper(c)];
      } else {
        assert !Clean(part);
        return Err(Malformed);
      }
    }
    assert part[..|part|] == part;
    if b == "" {
      return Err(Malformed);
    }
    return Ok(b);
  }

  method Canonical(raw: string, country: string) returns (r: Result<string, Refusal>)
    ensures r == CanonicalOf(raw, country)
  {
    var cc, v := country, TrimSpace(raw);
    if v == "" {
      return Err(Empty);
    }
    while CrossBorder(v)
      invariant Unwrap(cc, v) == Unwrap(country, TrimSpace(raw))
      decreases |v|
    {
      cc, v := v[..2], TrimSpace(v[6..]);
    }
    if Prefixed(v) {
      var semantics := ToUpper(v[..3]);
      if semantics !in RECOGNISED {
        return Err(UnknownSemantics);
      }
      var id := Identifier(v[6..]);
      if id.Err? {
        return Err(id.error);
      }
      var upper := ToUpper(v[3..5]);
      return Ok(semantics + upper + "-" + id.value);
    }
    if LocalPrefixed(v) {
      return Err(UnknownSemantics);
    }
    var known := CountryOf(cc);
    if known.Err? {
      return Err(known.error);
    }
    var id := Identifier(v);
    if id.Err? {
      return Err(id.error);
    }
    if BeginsLikeAPrefix(id.value) {
      return Err(Ambiguous);
    }
    return Ok(PERSONAL_NUMBER + known.value + "-" + id.value);
  }

  method Key(stored: string) returns (r: string)
    ensures r == KeyOf(stored)
  {
    var v := TrimSpace(stored);
    var c := ParseOf(v);
    if c.Ok? {
      return c.value.ToString();
    }
    var s := Canonical(v, "");
    if s.Ok? {
      return s.value;
    }
    r := "";
    for i := 0 to |v|
      invariant r == Reduced(v[..i])
    {
      ReducedAppend(v[..i], [v[i]]);
      assert v[..i + 1] == v[..i] + [v[i]];
      if IsSeparator(v[i]) {
      } else if IsLower(v[i]) {
        r := r + [Upper(v[i])];
      } else {
        r := r + [v[i]];
      }
    }
    assert v[..|v|] == v;
  }

  // ----- trimming and reducing ------------------------------------------------------------------

  /** A value with no space at either end. */
  ghost predicate Tight(s: string) {
    s != "" && !IsSpace(s[0]) && !IsSpace(s[|s| - 1])
  }

  lemma {:induction false} TrimLeftEnds(s: string)
    ensures TrimLeft(s) != "" ==> !IsSpace(TrimLeft(s)[0])
    ensures s != "" && !IsSpace(s[|s| - 1]) ==> TrimLeft(s) != "" && TrimLeft(s)[|TrimLeft(s)| - 1] == s[|s| - 1]
  {
    if s != "" && IsSpace(s[0]) {
      TrimLeftEnds(s[1..]);
    }
  }

  lemma {:induction false} TrimRightEnds(s: string)
    ensures TrimRight(s) != "" ==> !IsSpace(TrimRight(s)[|TrimRight(s)| - 1]) && TrimRight(s)[0] == s[0]
  {
    if s != "" && IsSpace(s[|s| - 1]) {
      TrimRightEnds(s[..|s| - 1]);
    }
  }

  lemma TrimIsTight(s: string)
    ensures TrimSpace(s) == "" || Tight(TrimSpace(s))
    ensures TrimSpace(TrimSpace(s)) == TrimSpace(s)
  {
    TrimLeftEnds(s);
    TrimRightEnds(TrimLeft(s));
  }

  lemma TightStays(s: string)
    requires Tight(s)
    ensures TrimSpace(s) == s
  {
  }

  lemma {:induction false} ReducedAppend(a: string, b: string)
    ensures Reduced(a + b) == Reduced(a) + Reduced(b)
  {
    if a == "" {
      assert a + b == b;
    } else {
      var s := a + b;
      ReducedAppend(a[1..], b);
      assert s[0] == a[0] && s[1..] == a[1..] + b;
      if !IsSeparator(a[0]) {
        assert Reduced(s) == [Upper(a[0])] + (Reduced(a[1..]) + Reduced(b));
      }
    }
  }

  lemma {:induction false} ReducedPlain(s: string)
    requires Plain(s)
    ensures Reduced(s) == s
  {
    if s != "" {
      ReducedPlain(s[1..]);
    }
  }

  lemma {:induction false} ReducedOfClean(s: string)
    requires Clean(s)
    ensures Plain(Reduced(s))
  {
    if s != "" {
      ReducedOfClean(s[1..]);
    }
  }

  lemma {:induction false} ReducedHasNoSeparator(s: string)
    ensures forall i :: 0 <= i < |Reduced(s)| ==> !IsSeparator(Reduced(s)[i]) && !IsLower(Reduced(s)[i])
  {
    if s != "" {
      ReducedHasNoSeparator(s[1..]);
    }
  }

  lemma {:induction false} ReducedStays(s: string)
    requires forall i :: 0 <= i < |s| ==> !IsSeparator(s[i]) && !IsLower(s[i])
    ensures Reduced(s) == s
  {
    if s != "" {
      ReducedStays(s[1..]);
    }
  }

  // ----- parsing --------------------------------------------------------------------------------

  ghost predicate Proper(c: Code) {
    && c.semantics in RECOGNISED && Uppers(c.semantics) && |c.semantics| == 3
    && |c.country| == 2 && Uppers(c.country)
    && c.identifier != "" && Plain(c.identifier)
  }

  /** Parsing and printing are mutual inverses: a string parses to a code if and only if the code is
  proper and prints as the string. */
  lemma ParseIff(s: string, c: Code)
    ensures ParseOf(s) == Ok(c) <==> Proper(c) && s == c.ToString()
  {
    if Proper(c) && s == c.ToString() {
      assert s[..3] == c.semantics && s[3..5] == c.country && s[6..] == c.identifier;
      assert forall i :: 0 <= i < 5 ==> IsUpper(s[..5][i]) by {
        forall i | 0 <= i < 5 ensures IsUpper(s[..5][i]) {
          if i < 3 { assert s[i] == c.semantics[i]; } else { assert s[i] == c.country[i - 3]; }
        }
      }
    }
    if ParseOf(s) == Ok(c) {
      assert s == s[..3] + s[3..5] + "-" + s[6..];
      assert forall i :: 0 <= i < 3 ==> c.semantics[i] == s[..5][i];
      assert forall i :: 0 <= i < 2 ==> c.country[i] == s[..5][i + 3];
    }
  }

  lemma StoredIsTight(s: string)
    requires StoredForm(s)
    ensures Tight(s) && !CrossBorder(s) && Prefixed(s)
  {
    assert s[0] == s[..5][0] && s[2] == s[..5][2];
    assert s[|s| - 1] == s[6..][|s| - 7];
  }

  lemma UpperStays(s: string)
    requires Uppers(s)
    ensures AsciiUpper(s) == s
  {
  }

  lemma StoredRereads(s: string)
    requires StoredForm(s) && Prefixed(s) && s[..3] in RECOGNISED
    ensures FromPrefixed(s) == Ok(s)
  {
    assert forall i :: 0 <= i < 3 ==> s[..3][i] == s[..5][i];
    assert forall i :: 0 <= i < 2 ==> s[3..5][i] == s[..5][i + 3];
    UpperStays(s[..3]);
    UpperStays(s[3..5]);
    ReducedPlain(s[6..]);
    assert s == s[..3] + s[3..5] + "-" + s[6..];
  }

  /** Canonicalising a stored code returns it unchanged, under any hint. */
  lemma StoredIsCanonical(s: string, hint: string)
    requires ParseOf(s).Ok?
    ensures CanonicalOf(s, hint) == Ok(s)
  {
    StoredIsTight(s);
    TightStays(s);
    StoredRereads(s);
  }

  lemma UpperLetters(s: string)
    requires Letters(s)
    ensures Uppers(AsciiUpper(s))
  {
  }

  lemma PrefixedParses(v: string)
    requires Prefixed(v) && FromPrefixed(v).Ok?
    ensures ParseOf(FromPrefixed(v).value).Ok?
  {
    assert forall i :: 0 <= i < 3 ==> v[..3][i] == v[..5][i];
    assert forall i :: 0 <= i < 2 ==> v[3..5][i] == v[..5][i + 3];
    UpperLetters(v[..3]);
    UpperLetters(v[3..5]);
    ReducedOfClean(v[6..]);
    var c := Code(AsciiUpper(v[..3]), AsciiUpper(v[3..5]), Reduced(v[6..]));
    ParseIff(c.ToString(), c);
  }

  lemma BareParses(country: string, v: string)
    requires FromBare(country, v).Ok?
    ensures ParseOf(FromBare(country, v).value).Ok?
  {
    UpperLetters(TrimSpace(country));
    ReducedOfClean(v);
    var c := Code(PERSONAL_NUMBER, AsciiUpper(TrimSpace(country)), Reduced(v));
    ParseIff(c.ToString(), c);
  }

  /** Every result satisfies Parse, and canonicalising it again, under any hint, returns it. */
  lemma {:induction false} CanonicalIsStored(raw: string, country: string, hint: string)
    requires CanonicalOf(raw, country).Ok?
    ensures ParseOf(CanonicalOf(raw, country).value).Ok?
    ensures CanonicalOf(CanonicalOf(raw, country).value, hint) == CanonicalOf(raw, country)
  {
    var u := Unwrap(country, TrimSpace(raw));
    if Prefixed(u.value) {
      PrefixedParses(u.value);
    } else {
      BareParses(u.country, u.value);
    }
    StoredIsCanonical(CanonicalOf(raw, country).value, hint);
  }

  /** The stored form, written out: one of the five types, a country of two capitals, a hyphen, and
  capitals and digits. */
  lemma StoredCodeIff(s: string, c: Code)
    ensures ParseOf(s) == Ok(c) <==>
      && s == c.semantics + c.country + "-" + c.identifier
      && c.semantics in {"PNO", "NTR", "PAS", "IDC", "TIN"}
      && |c.country| == 2 && (forall i :: 0 <= i < 2 ==> c.country[i] in Text.UPPER_CASE)
      && c.identifier != ""
      && forall i :: 0 <= i < |c.identifier| ==> c.identifier[i] in Text.UPPER_CASE || c.identifier[i] in Text.DIGITS
  {
    ParseIff(s, c);
    forall x: char ensures IsUpper(x) <==> x in Text.UPPER_CASE
      ensures IsDigit(x) <==> x in Text.DIGITS
    {
      CharactersAre(x);
    }
  }

  /** Why a value is refused. Trimmed and out of its pairs, a value that names a type is refused for an
  unknown type or else for an identifier that is empty or holds another character; one with a local
  type is refused for it; a bare one for its missing or malformed country, for its identifier, or
  because what is left of it begins like a type and a country. Anything else is stored. */
  lemma RefusalsAre(raw: string, hint: string)
    requires !CrossBorder(TrimSpace(raw))
    ensures var v, h, r := TrimSpace(raw), TrimSpace(hint), CanonicalOf(raw, hint);
      if v == "" then r == Err(Empty)
      else if |v| >= 6 && Letters(v[..5]) && v[5] == '-' && '\n' !in v[6..] then
        if AsciiUpper(v[..3]) !in {"PNO", "NTR", "PAS", "IDC", "TIN"} then r == Err(UnknownSemantics)
        else if Clean(v[6..]) && Reduced(v[6..]) != ""
        then r == Ok(AsciiUpper(v[..3]) + AsciiUpper(v[3..5]) + "-" + Reduced(v[6..]))
        else r == Err(Malformed)
      else if |v| >= 6 && Letters(v[..2]) && v[2] == ':' && Letters(v[3..5]) && v[5] == '-' then
        r == Err(UnknownSemantics)
      else if h == "" then r == Err(CountryRequired)
      else if |h| != 2 || !Letters(h) then r == Err(CountryInvalid)
      else if !Clean(v) || Reduced(v) == "" then r == Err(Malformed)
      else if |Reduced(v)| >= 5 && Letters(Reduced(v)[..5]) then r == Err(Ambiguous)
      else r == Ok("PNO" + AsciiUpper(h) + "-" + Reduced(v))
  {
  }

  // ----- display --------------------------------------------------------------------------------

  /** The stored code is a Latvian personal number of eleven digits. */
  ghost predicate Splits(s: string) {
    ParseOf(s).Ok? && ParseOf(s).value.semantics == PERSONAL_NUMBER && ParseOf(s).value.country == "LV"
    && LatvianSplit(ParseOf(s).value.identifier).Some?
  }

  lemma DisplayMeans(s: string)
    requires ParseOf(s).Ok?
    ensures Splits(s) ==>
      var id := ParseOf(s).value.identifier;
      DisplayOf(s) == id[..6] + "-" + id[6..] && IsDigit(DisplayOf(s)[0]) && s == "PNOLV-" + id
    ensures !Splits(s) ==> DisplayOf(s) == s && IsUpper(DisplayOf(s)[0])
  {
    StoredIsTight(s);
    TightStays(s);
    ParseIff(s, ParseOf(s).value);
    assert s[0] == s[..5][0];
  }

  /** A Latvian personal number of eleven digits, written out. */
  ghost predicate Latvian(v: string) {
    |v| == 17 && v[..6] == "PNOLV-" && forall i :: 6 <= i < 17 ==> v[i] in Text.DIGITS
  }

  lemma {:induction false} SplitsIff(v: string)
    ensures Splits(v) <==> Latvian(v)
    ensures Splits(v) ==>
      ParseOf(v).value.identifier[..6] == v[6..12] && ParseOf(v).value.identifier[6..] == v[12..]
  {
    forall x: char ensures IsDigit(x) <==> x in Text.DIGITS {
      CharactersAre(x);
    }
    if Latvian(v) {
      LatvianParses(v);
    }
    if Splits(v) {
      ParseIff(v, ParseOf(v).value);
      assert v == "PNO" + "LV" + "-" + v[6..] && "PNO" + "LV" + "-" == "PNOLV-";
      assert forall i :: 6 <= i < 17 ==> v[i] == v[6..][i - 6];
    }
  }

  /** What is shown: a Latvian personal number of eleven digits as six and five with a hyphen between,
  every other stored code as it is, and anything else unchanged. */
  lemma {:induction false} DisplayShows(s: string)
    ensures var v := TrimSpace(s);
      if |v| == 17 && v[..6] == "PNOLV-" && (forall i :: 6 <= i < 17 ==> v[i] in Text.DIGITS)
      then DisplayOf(s) == v[6..12] + "-" + v[12..]
      else DisplayOf(s) == if ParseOf(v).Ok? then v else s
  {
    var v := TrimSpace(s);
    SplitsIff(v);
    if ParseOf(v).Ok? {
      ParseIff(v, ParseOf(v).value);
    }
  }

  lemma LatvianParses(v: string)
    requires |v| == 17 && v[..6] == "PNOLV-" && Digits(v[6..])
    ensures ParseOf(v) == Ok(Code("PNO", "LV", v[6..]))
    ensures v[6..][..6] == v[6..12] && v[6..][6..] == v[12..]
  {
    assert v == v[..6] + v[6..] && "PNOLV-" == "PNO" + "LV" + "-";
    ParseIff(v, Code("PNO", "LV", v[6..]));
  }

  /** Distinct stored codes are shown differently. */
  lemma DisplayIsInjective(s: string, t: string)
    requires ParseOf(s).Ok? && ParseOf(t).Ok? && DisplayOf(s) == DisplayOf(t)
    ensures s == t
  {
    DisplayMeans(s);
    DisplayMeans(t);
    if Splits(s) && Splits(t) {
      var a, b := ParseOf(s).value.identifier, ParseOf(t).value.identifier;
      assert a[..6] == DisplayOf(s)[..6] && a[6..] == DisplayOf(s)[7..];
      assert b[..6] == DisplayOf(t)[..6] && b[6..] == DisplayOf(t)[7..];
      assert a == a[..6] + a[6..] && b == b[..6] + b[6..];
    }
  }

  /** What a person is shown, typed back in under the code's own country, reaches the same code. */
  lemma DisplayIsRetypable(s: string)
    requires ParseOf(s).Ok?
    ensures CanonicalOf(DisplayOf(s), ParseOf(s).value.country) == Ok(s)
  {
    DisplayMeans(s);
    if Splits(s) {
      SplitRetypes(ParseOf(s).value.identifier);
    } else {
      StoredIsCanonical(s, ParseOf(s).value.country);
    }
  }

  lemma BareIsStored(v: string, country: string)
    requires Tight(v) && !NamesCountry(v) && !LocalPrefixed(v) && Clean(v)
      && Reduced(v) != "" && !BeginsLikeAPrefix(Reduced(v))
    requires |country| == 2 && Uppers(country)
    ensures CanonicalOf(v, country) == Ok(PERSONAL_NUMBER + country + "-" + Reduced(v))
  {
    TightStays(v);
    TightStays(country);
    UpperStays(country);
  }

  lemma HyphenReduces()
    ensures Reduced("-") == ""
  {
    assert "-"[1..] == "";
  }

  lemma SplitReduces(id: string)
    requires |id| == 11 && Digits(id)
    ensures Reduced(id[..6] + "-" + id[6..]) == id
  {
    var a, b := id[..6], id[6..];
    ReducedAppend(a + "-", b);
    ReducedAppend(a, "-");
    ReducedPlain(a);
    ReducedPlain(b);
    HyphenReduces();
    assert id == a + b;
  }

  lemma SplitRetypes(id: string)
    requires |id| == 11 && Digits(id)
    ensures CanonicalOf(id[..6] + "-" + id[6..], "LV") == Ok("PNOLV-" + id)
  {
    var v := id[..6] + "-" + id[6..];
    SplitReduces(id);
    assert v[0] == id[0] && v[|v| - 1] == id[10];
    assert v[..2][0] == id[0] && v[..5][0] == id[0] && id[..5][0] == id[0];
    BareIsStored(v, "LV");
    assert PERSONAL_NUMBER + "LV" + "-" == "PNOLV-";
  }

  // ----- keys -----------------------------------------------------------------------------------

  lemma TrimmedFirst(x: string, hint: string)
    ensures CanonicalOf(TrimSpace(x), hint) == CanonicalOf(x, hint)
  {
    TrimIsTight(x);
  }

  /** The key of a value is its canonical form whenever it has one without a hint; otherwise it holds
  no separator, so it equals no stored code. */
  lemma KeyMeans(x: string)
    ensures CanonicalOf(x, "").Ok? ==> KeyOf(x) == CanonicalOf(x, "").value
    ensures CanonicalOf(x, "").Err? ==> KeyOf(x) == Reduced(TrimSpace(x)) && '-' !in KeyOf(x) && ParseOf(KeyOf(x)).Err?
  {
    var v := TrimSpace(x);
    TrimmedFirst(x, "");
    ReducedHasNoSeparator(v);
    if ParseOf(v).Ok? {
      StoredIsCanonical(v, "");
      ParseIff(v, ParseOf(v).value);
    } else {
      NoSeparatorIsTight(Reduced(v));
    }
  }

  lemma BareHasNoCountry(s: string)
    requires s == "" || (Tight(s) && '/' !in s && '-' !in s)
    ensures CanonicalOf(s, "").Err?
  {
    if s != "" {
      TightStays(s);
      assert |s| > 5 ==> s[5] != '/' && s[5] != '-';
    }
  }

  /** The key is a stable form of comparison. */
  lemma KeyIsStable(x: string)
    ensures KeyOf(KeyOf(x)) == KeyOf(x)
  {
    var k := KeyOf(x);
    KeyMeans(x);
    KeyMeans(k);
    if CanonicalOf(x, "").Ok? {
      CanonicalIsStored(x, "", "");
    } else {
      ReducedHasNoSeparator(TrimSpace(x));
      NoSeparatorIsTight(k);
      BareHasNoCountry(k);
      ReducedStays(k);
    }
  }

  lemma NoSeparatorIsTight(s: string)
    requires forall i :: 0 <= i < |s| ==> !IsSeparator(s[i])
    ensures s == "" || (Tight(s) && '/' !in s && '-' !in s)
    ensures TrimSpace(s) == s
  {
  }

  lemma {:induction false} TrimLeftReduces(s: string)
    ensures Reduced(TrimLeft(s)) == Reduced(s)
  {
    if s != "" && IsSpace(s[0]) {
      TrimLeftReduces(s[1..]);
    }
  }

  /** Which unrecognised values the key tells apart: two of them have one key if and only if they differ
  in nothing but separators and the case of ASCII letters. */
  lemma {:induction false} KeysMergeIff(x: string, y: string)
    requires CanonicalOf(x, "").Err? && CanonicalOf(y, "").Err?
    ensures KeyOf(x) == KeyOf(y) <==> Reduced(x) == Reduced(y)
  {
    KeyMeans(x);
    KeyMeans(y);
    TrimLeftReduces(x);
    TrimRightKeeps(TrimLeft(x));
    TrimLeftReduces(y);
    TrimRightKeeps(TrimLeft(y));
  }

  /** Two different values that no country can be read from, and one key. */
  lemma {:induction false} KeysMergeExample(x: string, y: string)
    requires x == "1-2" && y == "12"
    ensures CanonicalOf(x, "").Err? && CanonicalOf(y, "").Err? && KeyOf(x) == KeyOf(y)
  {
    TightStays(x);
    TightStays(y);
    ReducedAppend("1", "-2");
    ReducedPlain("1");
    ReducedPlain("2");
    ReducedPlain(y);
    assert x == "1" + "-2" && "-2"[1..] == "2";
    KeysMergeIff(x, y);
  }

  // ----- the country is never guessed -----------------------------------------------------------

  /** The value names its own country, in the shapes the canonicaliser recognises. */
  predicate NamesCountry(v: string) {
    CrossBorder(v) || Prefixed(v)
  }

  /** A hint counts only for a value that names no country of its own; such a value is refused without
  one, and stored under exactly the hint with one. */
  lemma CountryIsNeverGuessed(raw: string, hint: string, other: string)
    ensures NamesCountry(TrimSpace(raw)) ==> CanonicalOf(raw, hint) == CanonicalOf(raw, other)
    ensures !NamesCountry(TrimSpace(raw)) ==> CanonicalOf(raw, "").Err?
    ensures !NamesCountry(TrimSpace(raw)) && CanonicalOf(raw, hint).Ok? ==>
      CountryOf(hint).Ok?
      && CanonicalOf(raw, hint).value == PERSONAL_NUMBER + CountryOf(hint).value + "-" + Reduced(TrimSpace(raw))
  {
    if !NamesCountry(TrimSpace(raw)) {
      assert CountryOf("") == Err(CountryRequired);
    }
  }

  // ----- one spelling per identity --------------------------------------------------------------

  /** The country of the code, the country that asked, and the spaces left after the pair. */
  datatype Pair = Pair(code: string, asker: string, gap: string) {
    predicate Valid() {
      |code| == 2 && Letters(code) && |asker| == 2 && Letters(asker) && Spaces(gap)
    }
  }

  ghost predicate Pairs(pairs: seq<Pair>) {
    forall i :: 0 <= i < |pairs| ==> pairs[i].Valid()
  }

  /** A value wrapped in country pairs, the first one outermost. */
  function Wrap(pairs: seq<Pair>, v: string): string {
    if pairs == [] then v
    else pairs[0].code + "/" + pairs[0].asker + "/" + (pairs[0].gap + Wrap(pairs[1..], v))
  }

  predicate Spaces(s: string) {
    forall i :: 0 <= i < |s| ==> IsSpace(s[i])
  }

  lemma {:induction false} WrapNonempty(pairs: seq<Pair>, v: string)
    requires v != ""
    ensures Wrap(pairs, v) != ""
  {
  }

  /** The outermost pair stands in the first six characters, and no line feed does. */
  lemma WrapShape(pairs: seq<Pair>, v: string)
    requires Pairs(pairs) && pairs != [] && v != ""
    ensures var w := Wrap(pairs, v);
      && |w| >= 7 && w[..2] == pairs[0].code && w[2] == '/' && w[3..5] == pairs[0].asker && w[5] == '/'
      && w[6..] == pairs[0].gap + Wrap(pairs[1..], v)
      && ('\n' in w <==> '\n' in w[6..])
  {
    WrapNonempty(pairs[1..], v);
    var w, p := Wrap(pairs, v), pairs[0].code + "/" + pairs[0].asker + "/";
    assert w == p + (pairs[0].gap + Wrap(pairs[1..], v)) && |p| == 6;
    assert '\n' !in p by {
      forall i | 0 <= i < 6 ensures p[i] != '\n' {
        if i < 2 { assert p[i] == pairs[0].code[i]; }
        else if 3 <= i < 5 { assert p[i] == pairs[0].asker[i - 3]; }
      }
    }
  }

  lemma {:induction false} WrapTight(pairs: seq<Pair>, v: string)
    requires Pairs(pairs) && Tight(v)
    ensures Tight(Wrap(pairs, v))
  {
    if pairs != [] {
      WrapTight(pairs[1..], v);
      WrapShape(pairs, v);
      var w, rest := Wrap(pairs, v), Wrap(pairs[1..], v);
      assert w[|w| - 1] == w[6..][|w| - 7] && w[|w| - 1] == rest[|rest| - 1];
      assert w[0] == w[..2][0];
    }
  }

  /** Unwrapping finds the value again, under the innermost country, if all is on one line. */
  lemma {:induction false} UnwrapWrap(pairs: seq<Pair>, country: string, v: string)
    requires Pairs(pairs) && Tight(v) && '\n' !in Wrap(pairs, v) && !CrossBorder(v)
    ensures Unwrap(country, Wrap(pairs, v)) == Unwrapped(if pairs == [] then country else pairs[|pairs| - 1].code, v)
  {
    if pairs != [] {
      WrapShape(pairs, v);
      WrapTight(pairs[1..], v);
      TrimLeftSpaces(pairs[0].gap, Wrap(pairs[1..], v));
      UnwrapWrap(pairs[1..], pairs[0].code, v);
    }
  }

  /** A character as it is stored, or the small letter typed for a capital. */
  ghost predicate Types(typed: char, stored: char) {
    typed == stored || exists i :: 0 <= i < 26 && typed == Text.LOWER_CASE[i] && stored == Text.UPPER_CASE[i]
  }

  /** The identifier typed in any case, with spaces, hyphens, dots and slashes anywhere. */
  ghost predicate TypesIdentifier(body: string, id: string) {
    if body == "" then id == ""
    else if body[0] in SPACES || body[0] in MARKS then TypesIdentifier(body[1..], id)
    else id != "" && Types(body[0], id[0]) && TypesIdentifier(body[1..], id[1..])
  }

  /** A spelling of a code: its prefix in any case, then its identifier in any case and with any
  separators, anywhere. */
  ghost predicate Spells(c: Code, prefix: string, body: string) {
    var stored := c.semantics + c.country;
    && |prefix| == |stored| && (forall i :: 0 <= i < |prefix| ==> Types(prefix[i], stored[i]))
    && TypesIdentifier(body, c.identifier)
  }

  lemma TypesIff(typed: char, stored: char)
    requires IsUpper(stored) || IsDigit(stored)
    ensures Types(typed, stored) <==> Upper(typed) == stored
    ensures Types(typed, stored) ==> IsLetter(typed) || IsDigit(typed)
  {
    UpperIs(typed);
    CharactersAre(typed);
    if Types(typed, stored) && typed != stored {
      var i :| 0 <= i < 26 && typed == Text.LOWER_CASE[i] && stored == Text.UPPER_CASE[i];
      Text.LetterAt(i);
    }
    if Upper(typed) == stored && IsLower(typed) {
      Text.LetterAt(typed as int - 'a' as int);
    }
  }

  /** One character of the relation above, in the canonicaliser's terms. */
  lemma {:induction false} TypesOne(body: string, id: string)
    requires Plain(id) && body != ""
    ensures TypesIdentifier(body, id) <==>
      if IsSeparator(body[0]) then TypesIdentifier(body[1..], id)
      else id != "" && Upper(body[0]) == id[0] && TypesIdentifier(body[1..], id[1..])
    ensures TypesIdentifier(body, id) ==> IsSeparator(body[0]) || IsLetter(body[0]) || IsDigit(body[0])
  {
    CharactersAre(body[0]);
    if id != "" {
      TypesIff(body[0], id[0]);
    }
  }

  lemma CleanOne(body: string)
    requires body != ""
    ensures Clean(body) <==> (IsSeparator(body[0]) || IsLetter(body[0]) || IsDigit(body[0])) && Clean(body[1..])
  {
    assert body == [body[0]] + body[1..];
  }

  lemma {:induction false} TypesIdentifierIff(body: string, id: string)
    requires Plain(id)
    ensures TypesIdentifier(body, id) <==> Clean(body) && Reduced(body) == id
  {
    if body != "" {
      TypesOne(body, id);
      CleanOne(body);
      if IsSeparator(body[0]) {
        TypesIdentifierIff(body[1..], id);
      } else if id != "" {
        TypesIdentifierIff(body[1..], id[1..]);
        PlainUpper(body, id);
      }
    }
  }

  lemma PlainUpper(body: string, id: string)
    requires Plain(id) && id != "" && body != "" && !IsSeparator(body[0])
    ensures Reduced(body) == id <==> Upper(body[0]) == id[0] && Reduced(body[1..]) == id[1..]
    ensures Upper(body[0]) == id[0] ==> IsLetter(body[0]) || IsDigit(body[0])
  {
    assert id == [id[0]] + id[1..];
  }

  /** What the canonicaliser makes of a spelling. */
  ghost predicate Reads(c: Code, prefix: string, body: string) {
    && |prefix| == 5 && Letters(prefix) && AsciiUpper(prefix) == c.semantics + c.country
    && Clean(body) && Reduced(body) == c.identifier
  }

  lemma {:induction false} SpellsIff(c: Code, prefix: string, body: string)
    requires Proper(c)
    ensures Spells(c, prefix, body) <==> Reads(c, prefix, body)
  {
    TypesIdentifierIff(body, c.identifier);
    var stored := c.semantics + c.country;
    assert Uppers(stored);
    if |prefix| == 5 {
      forall i | 0 <= i < 5
        ensures Types(prefix[i], stored[i]) <==> IsLetter(prefix[i]) && AsciiUpper(prefix)[i] == stored[i]
      {
        TypesIff(prefix[i], stored[i]);
      }
      if forall i :: 0 <= i < 5 ==> Types(prefix[i], stored[i]) {
        assert AsciiUpper(prefix) == stored;
      }
    }
  }

  lemma SpeltCanonical(c: Code, prefix: string, body: string)
    requires Proper(c) && Reads(c, prefix, body) && '\n' !in body
    ensures Prefixed(prefix + "-" + body) && FromPrefixed(prefix + "-" + body) == Ok(c.ToString())
  {
    var v := prefix + "-" + body;
    assert v[..5] == prefix && v[6..] == body;
    assert AsciiUpper(v[..3]) == c.semantics by {
      assert forall i :: 0 <= i < 3 ==> AsciiUpper(v[..3])[i] == AsciiUpper(prefix)[i];
    }
    assert AsciiUpper(v[3..5]) == c.country by {
      assert forall i :: 0 <= i < 2 ==> AsciiUpper(v[3..5])[i] == AsciiUpper(prefix)[i + 3];
    }
  }

  lemma {:induction false} TrimRightKeeps(body: string)
    ensures Reduced(TrimRight(body)) == Reduced(body)
    ensures Clean(body) ==> Clean(TrimRight(body))
  {
    if body != "" && IsSpace(body[|body| - 1]) {
      var n := |body| - 1;
      TrimRightKeeps(body[..n]);
      ReducedAppend(body[..n], [body[n]]);
      assert body == body[..n] + [body[n]];
      assert Reduced([body[n]]) == "" by { assert [body[n]][1..] == ""; }
    }
  }

  lemma {:induction false} TrimLeftSpaces(lead: string, s: string)
    requires Spaces(lead) && s != "" && !IsSpace(s[0])
    ensures TrimLeft(lead + s) == s
  {
    if lead == "" {
      assert lead + s == s;
    } else {
      TrimLeftSpaces(lead[1..], s);
      assert (lead + s)[1..] == lead[1..] + s;
    }
  }

  lemma {:induction false} TrimRightSpaces(s: string, trail: string)
    requires Spaces(trail)
    ensures TrimRight(s + trail) == TrimRight(s)
  {
    if trail == "" {
      assert s + trail == s;
    } else {
      var n := |trail| - 1;
      TrimRightSpaces(s, trail[..n]);
      assert (s + trail)[..|s + trail| - 1] == s + trail[..n];
    }
  }

  lemma {:induction false} TrimRightInside(a: string, body: string)
    requires TrimRight(body) != ""
    ensures TrimRight(a + body) == a + TrimRight(body)
  {
    if IsSpace(body[|body| - 1]) {
      var n := |body| - 1;
      TrimRightInside(a, body[..n]);
      assert (a + body)[..|a + body| - 1] == a + body[..n];
    }
  }

  lemma {:induction false} WrapIsPrefix(pairs: seq<Pair>, a: string, b: string)
    ensures Wrap(pairs, a + b) == Wrap(pairs, a) + b
  {
    if pairs != [] {
      WrapIsPrefix(pairs[1..], a, b);
    }
  }

  /** Spaces around a wrapped spelling, and at the end of its identifier, are trimmed away. */
  lemma {:induction false} TrimmedSpelling(pairs: seq<Pair>, prefix: string, body: string, lead: string, trail: string)
    requires Pairs(pairs) && |prefix| == 5 && Letters(prefix) && Reduced(body) != "" && Spaces(lead) && Spaces(trail)
    ensures TrimRight(body) != "" && Tight(prefix + "-" + TrimRight(body))
    ensures TrimSpace(lead + Wrap(pairs, prefix + "-" + body) + trail) == Wrap(pairs, prefix + "-" + TrimRight(body))
  {
    TrimRightKeeps(body);
    TrimRightEnds(body);
    var short := prefix + "-" + TrimRight(body);
    assert short[0] == prefix[0] && short[|short| - 1] == TrimRight(body)[|TrimRight(body)| - 1];
    var a := Wrap(pairs, prefix + "-");
    WrapIsPrefix(pairs, prefix + "-", body);
    WrapIsPrefix(pairs, prefix + "-", TrimRight(body));
    WrapTight(pairs, short);
    WrapNonempty(pairs, prefix + "-");
    assert (a + TrimRight(body))[0] == a[0];
    TrimAround(lead, a, body, trail);
  }

  lemma TrimAround(lead: string, a: string, body: string, trail: string)
    requires Spaces(lead) && Spaces(trail) && a != "" && !IsSpace(a[0]) && TrimRight(body) != ""
    ensures TrimSpace(lead + (a + body) + trail) == a + TrimRight(body)
  {
    var inner := a + body + trail;
    assert lead + (a + body) + trail == lead + inner;
    TrimLeftSpaces(lead, inner);
    TrimRightSpaces(a + body, trail);
    TrimRightInside(a, body);
  }

  /** What is left of a prefixed value the canonicaliser could not read on one line still begins like
  an identity type, and is refused. */
  lemma {:induction false} WrappedBeginsLikeAPrefix(pairs: seq<Pair>, prefix: string, body: string)
    requires Pairs(pairs) && |prefix| == 5 && Letters(prefix)
    ensures BeginsLikeAPrefix(Reduced(Wrap(pairs, prefix + "-" + body)))
  {
    if pairs == [] {
      PrefixBegins(prefix, body);
    } else {
      WrappedBeginsLikeAPrefix(pairs[1..], prefix, body);
      WrapReduces(pairs, prefix + "-" + body);
      PairBegins(AsciiUpper(pairs[0].code) + AsciiUpper(pairs[0].asker),
        Reduced(Wrap(pairs[1..], prefix + "-" + body)));
    }
  }

  lemma PrefixBegins(prefix: string, body: string)
    requires |prefix| == 5 && Letters(prefix)
    ensures BeginsLikeAPrefix(Reduced(prefix + "-" + body))
  {
    assert prefix + "-" + body == prefix + ("-" + body);
    ReducedAppend(prefix, "-" + body);
    ReducedLetters(prefix);
    assert Reduced(prefix + "-" + body)[..5] == AsciiUpper(prefix);
  }

  lemma PairBegins(four: string, inner: string)
    requires |four| == 4 && Letters(four) && BeginsLikeAPrefix(inner)
    ensures BeginsLikeAPrefix(four + inner)
  {
    assert inner[..5][0] == inner[0];
    assert forall i :: 0 <= i < 5 ==> (four + inner)[..5][i] == if i < 4 then four[i] else inner[0];
  }

  lemma {:induction false} ReducedLetters(s: string)
    requires Letters(s)
    ensures Reduced(s) == AsciiUpper(s)
  {
    if s != "" {
      ReducedLetters(s[1..]);
    }
  }

  lemma {:induction false} SpacesReduce(s: string)
    requires Spaces(s)
    ensures Reduced(s) == ""
  {
    if s != "" {
      SpacesReduce(s[1..]);
    }
  }

  lemma WrapReduces(pairs: seq<Pair>, v: string)
    requires Pairs(pairs) && pairs != []
    ensures Reduced(Wrap(pairs, v))
      == AsciiUpper(pairs[0].code) + AsciiUpper(pairs[0].asker) + Reduced(Wrap(pairs[1..], v))
  {
    var a, b, gap, rest := pairs[0].code, pairs[0].asker, pairs[0].gap, Wrap(pairs[1..], v);
    ReducedAppend(a + "/" + b + "/", gap + rest);
    ReducedAppend(a + "/" + b, "/");
    ReducedAppend(a + "/", b);
    ReducedAppend(a, "/");
    ReducedAppend(gap, rest);
    SpacesReduce(gap);
    ReducedLetters(a);
    ReducedLetters(b);
    assert Reduced("/") == "" by { assert "/"[1..] == ""; }
  }

  /** One spelling per identity: whatever the case of its letters, the separators in its identifier,
  the spaces around it, the country pairs wrapped about it, the spaces after each pair and the hint
  given with it, a code that names its type is stored as the one canonical string if and only if it
  is on one line once trimmed. Across a line feed it is always refused. */
  lemma {:induction false} OneSpelling(c: Code, pairs: seq<Pair>, prefix: string, body: string,
                                       lead: string, trail: string, hint: string)
    requires Proper(c) && Pairs(pairs) && Spells(c, prefix, body) && Spaces(lead) && Spaces(trail)
    ensures var raw := lead + Wrap(pairs, prefix + "-" + body) + trail;
      if '\n' !in TrimSpace(raw) then CanonicalOf(raw, hint) == Ok(c.ToString()) else CanonicalOf(raw, hint).Err?
  {
    SpellsIff(c, prefix, body);
    TrimmedSpelling(pairs, prefix, body, lead, trail);
    TrimRightKeeps(body);
    var raw, short := lead + Wrap(pairs, prefix + "-" + body) + trail, TrimRight(body);
    TrimmedFirst(raw, hint);
    if '\n' !in TrimSpace(raw) {
      OneLineStored(c, pairs, prefix, short, hint);
    } else {
      LineFeedRefused(pairs, prefix, short, hint);
    }
  }

  lemma {:induction false} OneLineStored(c: Code, pairs: seq<Pair>, prefix: string, short: string, hint: string)
    requires Proper(c) && Pairs(pairs) && Reads(c, prefix, short) && Tight(prefix + "-" + short)
    requires '\n' !in Wrap(pairs, prefix + "-" + short)
    ensures CanonicalOf(Wrap(pairs, prefix + "-" + short), hint) == Ok(c.ToString())
  {
    var v := prefix + "-" + short;
    WrapTight(pairs, v);
    TightStays(Wrap(pairs, v));
    InnerLine(pairs, v);
    assert v[6..] == short;
    SpeltCanonical(c, prefix, short);
    OneLine(prefix, short);
    UnwrapWrap(pairs, hint, v);
  }

  /** What is wrapped is on one line if the whole is. */
  lemma {:induction false} InnerLine(pairs: seq<Pair>, v: string)
    requires Pairs(pairs) && v != "" && '\n' !in Wrap(pairs, v)
    ensures '\n' !in v
  {
    if pairs != [] {
      WrapShape(pairs, v);
      InnerLine(pairs[1..], v);
    }
  }

  lemma OneLine(prefix: string, short: string)
    requires |prefix| == 5 && Letters(prefix) && '\n' !in short
    ensures var v := prefix + "-" + short; '\n' !in v && !CrossBorder(v)
  {
    var v := prefix + "-" + short;
    assert v[2] == prefix[2];
    assert forall i :: 0 <= i < 5 ==> v[i] == prefix[i];
  }

  lemma {:induction false} LineFeedRefused(pairs: seq<Pair>, prefix: string, short: string, hint: string)
    requires Pairs(pairs) && |prefix| == 5 && Letters(prefix) && Tight(prefix + "-" + short)
    requires '\n' in Wrap(pairs, prefix + "-" + short)
    ensures CanonicalOf(Wrap(pairs, prefix + "-" + short), hint).Err?
  {
    var w := Wrap(pairs, prefix + "-" + short);
    WrapTight(pairs, prefix + "-" + short);
    TightStays(w);
    LineFeedHidesShape(pairs, prefix, short);
    WrappedBeginsLikeAPrefix(pairs, prefix, short);
  }

  lemma {:induction false} LineFeedHidesShape(pairs: seq<Pair>, prefix: string, short: string)
    requires Pairs(pairs) && |prefix| == 5 && Letters(prefix) && Tight(prefix + "-" + short)
    requires '\n' in Wrap(pairs, prefix + "-" + short)
    ensures var w := Wrap(pairs, prefix + "-" + short); !CrossBorder(w) && !Prefixed(w) && !LocalPrefixed(w)
  {
    var v := prefix + "-" + short;
    if pairs == [] {
      assert v[6..] == short && v[2] == prefix[2];
      assert '\n' in short by {
        if '\n' !in short {
          OneLine(prefix, short);
        }
      }
    } else {
      PairsUnread(pairs, v);
    }
  }

  lemma {:induction false} TrimmedWrap(pairs: seq<Pair>, v: string, lead: string, trail: string)
    requires Pairs(pairs) && Tight(v) && Spaces(lead) && Spaces(trail)
    ensures TrimSpace(lead + Wrap(pairs, v) + trail) == Wrap(pairs, v)
  {
    var w := Wrap(pairs, v);
    WrapTight(pairs, v);
    assert lead + w + trail == lead + (w + trail);
    TrimLeftSpaces(lead, w + trail);
    TrimRightSpaces(w, trail);
  }

  /** A bare code wrapped in country pairs, with any spaces around it and after each pair, is stored
  under the innermost country, whatever the hint, if it is on one line once trimmed. Across a line
  feed the pairs are read as part of a bare code, and the country stored is the hint's. */
  lemma {:induction false} WrappedBareCode(pairs: seq<Pair>, v: string, lead: string, trail: string, hint: string)
    requires Pairs(pairs) && pairs != [] && Tight(v) && Clean(v) && Reduced(v) != "" && Spaces(lead) && Spaces(trail)
    requires !NamesCountry(v) && !BeginsLikeAPrefix(Reduced(v))
    ensures var raw := lead + Wrap(pairs, v) + trail;
      if '\n' !in TrimSpace(raw)
      then CanonicalOf(raw, hint) == Ok(PERSONAL_NUMBER + AsciiUpper(pairs[|pairs| - 1].code) + "-" + Reduced(v))
      else CanonicalOf(raw, hint) == FromBare(hint, TrimSpace(raw))
  {
    var raw := lead + Wrap(pairs, v) + trail;
    TrimmedWrap(pairs, v, lead, trail);
    WrapTight(pairs, v);
    if '\n' !in Wrap(pairs, v) {
      UnwrapWrap(pairs, hint, v);
      UnwrappedBare(pairs[|pairs| - 1].code, v);
    } else {
      PairsUnread(pairs, v);
    }
  }

  lemma UnwrappedBare(country: string, v: string)
    requires |country| == 2 && Letters(country) && Clean(v) && Reduced(v) != "" && !BeginsLikeAPrefix(Reduced(v))
    ensures !LocalPrefixed(v) && FromBare(country, v) == Ok(PERSONAL_NUMBER + AsciiUpper(country) + "-" + Reduced(v))
  {
    assert |v| > 2 ==> v[2] != ':';
    TightStays(country);
  }

  lemma PairsUnread(pairs: seq<Pair>, v: string)
    requires Pairs(pairs) && pairs != [] && Tight(v) && '\n' in Wrap(pairs, v)
    ensures var w := Wrap(pairs, v); !CrossBorder(w) && !Prefixed(w) && !LocalPrefixed(w)
  {
    WrapShape(pairs, v);
    assert Wrap(pairs, v)[..5][2] == '/';
  }

  lemma ExampleIsBare(pairs: seq<Pair>, v: string)
    requires pairs == [Pair("LV", "LV", "")] && v == "1\n2"
    ensures Clean(Wrap(pairs, v)) && '\n' in Wrap(pairs, v)
    ensures Reduced(Wrap(pairs, v)) != "" && !BeginsLikeAPrefix(Reduced(Wrap(pairs, v)))
  {
    WrapReduces(pairs, v);
    assert pairs[1..] == [] && Wrap([], v) == v;
    assert Wrap(pairs, v)[7] == v[1];
    assert Reduced(v)[0] == '1';
    var r := Reduced(Wrap(pairs, v));
    assert r[4] == '1' && (|r| >= 5 ==> r[..5][4] == r[4]);
  }

  /** Latvia's pair about the value, Estonia's hint: the code is stored under Estonia. */
  lemma LineFeedHidesCountry(pairs: seq<Pair>, v: string)
    requires pairs == [Pair("LV", "LV", "")] && v == "1\n2"
    ensures CanonicalOf(Wrap(pairs, v), "EE").Ok?
    ensures CanonicalOf(Wrap(pairs, v), "EE").value[..6] == "PNOEE-"
  {
    ExampleIsBare(pairs, v);
    PairsUnread(pairs, v);
    WrapTight(pairs, v);
    BareIsStored(Wrap(pairs, v), "EE");
  }
}
