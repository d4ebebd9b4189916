/** Key families, their keys and their stored strings, from apikeys/apikeys.go. A key reads
<scheme>_<lookup>_<secret>; a stored string is the PHC string of an argon2id hash of the secret. */
module ApiKeys {
  import opened Wrappers
  import opened Text
  import opened Base64

  const SEPARATOR := '_'
  const LOOKUP_BYTES := 5
  const LOOKUP_LEN := 8
  const SECRET_BYTES := 24
  const SECRET_LEN := 32
  const SALT_LEN := 16
  const MAX_SALT_LEN := 64
  const TAG_LEN := 32
  const MIN_SCHEME_LEN := 2
  const MAX_SCHEME_LEN := 8
  const MAX_STORED_LEN := 256

  // ----- parameters -----------------------------------------------------------------------------

  type uint32 = x: int | 0 <= x < 0x1_0000_0000
  type uint8 = x: int | 0 <= x < 0x100

  /** Argon2id's cost: memory in KiB, passes, lanes (section 3.1 of RFC 9106). */
  datatype Params = Params(memory: uint32, iterations: uint32, parallelism: uint8) {
    predicate AtLeast(q: Params) {
      memory >= q.memory && iterations >= q.iterations && parallelism >= q.parallelism
    }

    predicate NonZero() {
      memory > 0 && iterations > 0 && parallelism > 0
    }
  }

  const NO_PARAMS := Params(0, 0, 0)
  const DEFAULT_PARAMS := Params(19456, 2, 1)
  const DEFAULT_CEILING := Params(65536, 3, 4)

  function Max(x: int, y: int): int {
    if x < y then y else x
  }

  function Higher(p: Params, q: Params): Params {
    Params(Max(p.memory, q.memory), Max(p.iterations, q.iterations), Max(p.parallelism, q.parallelism))
  }

  // ----- schemes --------------------------------------------------------------------------------

  /** The key derivation: secret, salt, parameters and output length to a tag. */
  type Derive = (string, seq<byte>, Params, nat) -> seq<byte>

  /** A derivation returns exactly as many bytes as it is asked for. */
  ghost predicate ExactLength(derive: Derive) {
    forall secret, salt, p, n :: |derive(secret, salt, p, n)| == n
  }

  datatype StoredHash = StoredHash(params: Params, salt: seq<byte>, tag: seq<byte>)

  datatype Config = Config(scheme: string, params: Params, floor: Params, ceiling: Params)

  datatype Scheme = Scheme(name: string, mint: Params, floor: Params, ceiling: Params,
                           derive: Derive, dummy: StoredHash)

  predicate NameChar(c: char) {
    'a' <= c <= 'z' || IsDigit(c)
  }

  predicate ValidName(name: string) {
    && MIN_SCHEME_LEN <= |name| <= MAX_SCHEME_LEN
    && 'a' <= name[0] <= 'z'
    && forall i :: 0 <= i < |name| ==> NameChar(name[i])
  }

  /** A name is two to eight small letters and digits, the first a letter. */
  lemma NameIff(name: string)
    ensures ValidName(name) <==>
      && 2 <= |name| <= 8 && name[0] in LOWER_CASE
      && forall i :: 0 <= i < |name| ==> name[i] in LOWER_CASE || name[i] in DIGITS
  {
    forall c: char ensures NameChar(c) <==> c in LOWER_CASE || c in DIGITS {
      LowerIff(c);
      DigitIff(c);
    }
    if |name| > 0 {
      LowerIff(name[0]);
    }
  }

  /** What every accepted scheme satisfies: never weaker than the defaults, and its floor, minted
  parameters and ceiling in order. */
  ghost predicate Sound(s: Scheme) {
    && ValidName(s.name)
    && s.floor.memory >= DEFAULT_PARAMS.memory && s.floor.iterations >= DEFAULT_PARAMS.iterations
    && s.floor.NonZero()
    && s.mint.AtLeast(s.floor) && s.ceiling.AtLeast(s.mint)
    && s.dummy.params == s.mint && |s.dummy.salt| == SALT_LEN && |s.dummy.tag| == TAG_LEN
    && ExactLength(s.derive)
  }

  function OrDefault(p: Params, default: Params): Params {
    if p == NO_PARAMS then default else p
  }

  datatype SchemeError = BadName | ZeroParameters | BelowDefaults | MintBelowFloor | CeilingBelowMint | NoRandomness

  method IsValidScheme(name: string) returns (ok: bool)
    ensures ok == ValidName(name)
  {
    if |name| < MIN_SCHEME_LEN || |name| > MAX_SCHEME_LEN || name[0] < 'a' || name[0] > 'z' {
      return false;
    }
    for i := 0 to |name|
      invariant forall j :: 0 <= j < i ==> NameChar(name[j])
    {
      var c := name[i];
      if (c < 'a' || c > 'z') && (c < '0' || c > '9') {
        return false;
      }
    }
    return true;
  }

  /** Checks a configuration and fills in its defaults. The dummy hash's salt and tag come from the
  system's randomness, which may fail. */
  method NewScheme(c: Config, derive: Derive, salt: Option<seq<byte>>, tag: Option<seq<byte>>)
    returns (r: Result<Scheme, SchemeError>)
    requires ExactLength(derive)
    requires salt.Some? ==> |salt.value| == SALT_LEN
    requires tag.Some? ==> |tag.value| == TAG_LEN
    ensures r.Ok? ==>
      && Sound(r.value) && r.value.name == c.scheme && r.value.derive == derive
      && r.value.mint == (if c.params == Params(0, 0, 0) then Params(19456, 2, 1) else c.params)
      && r.value.floor == (if c.floor == Params(0, 0, 0) then Params(19456, 2, 1) else c.floor)
      && (c.ceiling != Params(0, 0, 0) ==> r.value.ceiling == c.ceiling)
      && (c.ceiling == Params(0, 0, 0) ==> IsJoin(Params(65536, 3, 4), r.value.mint, r.value.ceiling))
    ensures r.Ok? <==>
      var mint, floor := OrDefault(c.params, DEFAULT_PARAMS), OrDefault(c.floor, DEFAULT_PARAMS);
      && ValidName(c.scheme) && salt.Some? && tag.Some?
      && floor.memory >= 19456 && floor.iterations >= 2 && floor.parallelism >= 1
      && mint.memory >= floor.memory && mint.iterations >= floor.iterations && mint.parallelism >= floor.parallelism
      && (c.ceiling == Params(0, 0, 0) ||
          (&& c.ceiling.memory >= mint.memory && c.ceiling.iterations >= mint.iterations
           && c.ceiling.parallelism >= mint.parallelism))
  {
    var valid := IsValidScheme(c.scheme);
    if !valid {
      return Err(BadName);
    }
    var mint, floor, ceiling := c.params, c.floor, c.ceiling;
    if mint == NO_PARAMS {
      mint := DEFAULT_PARAMS;
    }
    if floor == NO_PARAMS {
      floor := DEFAULT_PARAMS;
    }
    if ceiling == NO_PARAMS {
      ceiling := Higher(DEFAULT_CEILING, mint);
    }
    var d := DEFAULT_PARAMS;
    if !mint.NonZero() || !floor.NonZero() {
      return Err(ZeroParameters);
    } else if floor.memory < d.memory || floor.iterations < d.iterations {
      return Err(BelowDefaults);
    } else if !mint.AtLeast(floor) {
      return Err(MintBelowFloor);
    } else if !ceiling.AtLeast(mint) {
      return Err(CeilingBelowMint);
    } else if salt.None? || tag.None? {
      return Err(NoRandomness);
    }
    r := Ok(Scheme(c.scheme, mint, floor, ceiling, derive, StoredHash(mint, salt.value, tag.value)));
  }

  // ----- stored strings -------------------------------------------------------------------------

  function ParamText(p: Params): string {
    "m=" + FormatUint(p.memory) + ",t=" + FormatUint(p.iterations) + ",p=" + FormatUint(p.parallelism)
  }

  /** A stored string, of argon2id at version 19. */
  function EncodeStored(p: Params, salt: seq<byte>, tag: seq<byte>): string {
    "$argon2id$v=19" + "$" + ParamText(p) + "$" + Encode(salt, Standard) + "$" + Encode(tag, Standard)
  }

  datatype StoredError = TooLong | NotArgon2id | NotThreeParameters | NotDecimal | BadSaltOrTag | OutsideBounds

  predicate InBounds(s: Scheme, p: Params) {
    p.AtLeast(s.floor) && s.ceiling.AtLeast(p)
  }

  function DecodeStored(s: Scheme, h: string): Result<StoredHash, StoredError> {
    if |h| > MAX_STORED_LEN then Err(TooLong)
    else
      var f := Split(h, '$');
      if |f| != 6 || f[0] != "" || f[1] != "argon2id" || f[2] != "v=19" then Err(NotArgon2id)
      else
        var ps := Split(f[3], ',');
        if |ps| != 3 then Err(NotThreeParameters)
        else
          var m, t := Decimal(ps[0], "m=", 0x1_0000_0000), Decimal(ps[1], "t=", 0x1_0000_0000);
          var p := Decimal(ps[2], "p=", 0x100);
          var salt, tag := StrictBase64(f[4]), StrictBase64(f[5]);
          if m.None? || t.None? || p.None? then Err(NotDecimal)
          else if salt.None? || tag.None? || |salt.value| < SALT_LEN ||
                  |salt.value| > MAX_SALT_LEN || |tag.value| != TAG_LEN then Err(BadSaltOrTag)
          else
            var params := Params(m.value, t.value, p.value);
            if InBounds(s, params) then Ok(StoredHash(params, salt.value, tag.value)) else Err(OutsideBounds)
  }

  /** The hashes a scheme accepts from its store. */
  predicate Acceptable(s: Scheme, st: StoredHash) {
    SALT_LEN <= |st.salt| <= MAX_SALT_LEN && |st.tag| == TAG_LEN && InBounds(s, st.params)
  }

  function ParamFields(p: Params): seq<string> {
    ["m=" + FormatUint(p.memory), "t=" + FormatUint(p.iterations), "p=" + FormatUint(p.parallelism)]
  }

  function StoredFields(st: StoredHash): seq<string> {
    ["", "argon2id", "v=19", ParamText(st.params),
     Encode(st.salt, Standard), Encode(st.tag, Standard)]
  }

  lemma ParamsJoined(p: Params)
    ensures Join(ParamFields(p), ',') == ParamText(p)
  {
    var f := ParamFields(p);
    JoinThree(f[0], f[1], f[2], ',');
    assert f == [f[0], f[1], f[2]];
    assert ",t=" == [','] + "t=" && ",p=" == [','] + "p=";
  }

  /** The printer writes exactly the six fields the parser splits at. */
  lemma StoredJoined(st: StoredHash)
    ensures Join(StoredFields(st), '$') == EncodeStored(st.params, st.salt, st.tag)
  {
    JoinSix("", "argon2id", "v=19", ParamText(st.params), Encode(st.salt, Standard), Encode(st.tag, Standard), '$');
    assert "$argon2id$v=19" == "" + ['$'] + "argon2id" + ['$'] + "v=19";
  }

  lemma ParamsFree(p: Params)
    ensures Free(ParamFields(p), ',') && '$' !in ParamText(p)
  {
    var m, t, l := FormatUint(p.memory), FormatUint(p.iterations), FormatUint(p.parallelism);
    assert '$' !in m && '$' !in t && '$' !in l;
    assert ',' !in m && ',' !in t && ',' !in l;
  }

  lemma SymbolsFree(b: seq<byte>)
    ensures '$' !in Encode(b, Standard)
  {
  }

  lemma FieldsFree(st: StoredHash)
    ensures Free(StoredFields(st), '$')
  {
    ParamsFree(st.params);
    SymbolsFree(st.salt);
    SymbolsFree(st.tag);
  }

  lemma StoredFits(st: StoredHash)
    requires |st.salt| <= MAX_SALT_LEN && |st.tag| == TAG_LEN
    ensures |EncodeStored(st.params, st.salt, st.tag)| <= MAX_STORED_LEN
  {
    FormatLength(st.params.memory, 10, PowerOfTen(10));
    FormatLength(st.params.iterations, 10, PowerOfTen(10));
    FormatLength(st.params.parallelism, 3, 1000);
  }

  /** Printing an acceptable hash makes a string that fits and reads back as that hash. */
  lemma DecodeOfEncode(s: Scheme, st: StoredHash)
    requires Acceptable(s, st)
    ensures DecodeStored(s, EncodeStored(st.params, st.salt, st.tag)) == Ok(st)
  {
    StoredFits(st);
    StoredJoined(st);
    FieldsFree(st);
    ParamsFree(st.params);
    SplitJoin(StoredFields(st), '$');
    ParamsJoined(st.params);
    SplitJoin(ParamFields(st.params), ',');
    DecimalIff(ParamFields(st.params)[0], "m=", 0x1_0000_0000, st.params.memory);
    DecimalIff(ParamFields(st.params)[1], "t=", 0x1_0000_0000, st.params.iterations);
    DecimalIff(ParamFields(st.params)[2], "p=", 0x100, st.params.parallelism);
    StrictBase64Iff(StoredFields(st)[4], st.salt);
    StrictBase64Iff(StoredFields(st)[5], st.tag);
  }

  /** Whatever the parser accepts is acceptable and is exactly what the printer writes for it. */
  lemma EncodeOfDecode(s: Scheme, h: string)
    ensures DecodeStored(s, h).Ok? ==>
      var st := DecodeStored(s, h).value;
      Acceptable(s, st) && h == EncodeStored(st.params, st.salt, st.tag)
  {
    if DecodeStored(s, h).Ok? {
      JoinSplit(h, '$');
      AcceptedFields(s, h);
      StoredJoined(DecodeStored(s, h).value);
    }
  }

  lemma AcceptedFields(s: Scheme, h: string)
    requires DecodeStored(s, h).Ok?
    ensures Split(h, '$') == StoredFields(DecodeStored(s, h).value)
  {
    var st := DecodeStored(s, h).value;
    var f := Split(h, '$');
    AcceptedParams(f[3], st.params);
    StrictBase64Iff(f[4], st.salt);
    StrictBase64Iff(f[5], st.tag);
  }

  lemma AcceptedParams(field: string, p: Params)
    requires |Split(field, ',')| == 3
    requires Decimal(Split(field, ',')[0], "m=", 0x1_0000_0000) == Some(p.memory)
    requires Decimal(Split(field, ',')[1], "t=", 0x1_0000_0000) == Some(p.iterations)
    requires Decimal(Split(field, ',')[2], "p=", 0x100) == Some(p.parallelism)
    ensures field == ParamText(p)
  {
    var ps := Split(field, ',');
    JoinSplit(field, ',');
    DecimalIff(ps[0], "m=", 0x1_0000_0000, p.memory);
    DecimalIff(ps[1], "t=", 0x1_0000_0000, p.iterations);
    DecimalIff(ps[2], "p=", 0x100, p.parallelism);
    assert ps == ParamFields(p);
    ParamsJoined(p);
  }

  /** Parser and printer are mutual inverses on the acceptable hashes: one spelling each. */
  lemma StoredIff(s: Scheme, h: string, st: StoredHash)
    ensures DecodeStored(s, h) == Ok(st) <==> Acceptable(s, st) && h == EncodeStored(st.params, st.salt, st.tag)
  {
    if DecodeStored(s, h) == Ok(st) {
      EncodeOfDecode(s, h);
    }
    if Acceptable(s, st) && h == EncodeStored(st.params, st.salt, st.tag) {
      DecodeOfEncode(s, st);
    }
  }

  /** A stored string written out: the PHC string of argon2id at version 19, its numbers in decimal, its
  salt and its tag in unpadded base64. */
  lemma EncodeSpelt(p: Params, salt: seq<byte>, tag: seq<byte>)
    ensures EncodeStored(p, salt, tag) ==
      "$argon2id$v=19$m=" + FormatUint(p.memory) + ",t=" + FormatUint(p.iterations) + ",p="
      + FormatUint(p.parallelism) + "$" + Encode(salt, Standard) + "$" + Encode(tag, Standard)
  {
    var m, t, l := FormatUint(p.memory), FormatUint(p.iterations), FormatUint(p.parallelism);
    Regrouped("$argon2id$v=19", "$", "m=", m, ",t=", t, ",p=", l, Encode(salt, Standard), Encode(tag, Standard));
    assert "$argon2id$v=19" + "$" + "m=" == "$argon2id$v=19$m=";
  }

  lemma Regrouped(a: string, d: string, m: string, memory: string, t: string, iterations: string,
    p: string, parallelism: string, salt: string, tag: string)
    ensures a + d + (m + memory + t + iterations + p + parallelism) + d + salt + d + tag
            == a + d + m + memory + t + iterations + p + parallelism + d + salt + d + tag
  {
    assert a + d + (m + memory + t + iterations + p + parallelism)
           == a + d + m + memory + t + iterations + p + parallelism;
  }

  /** The one spelling of an acceptable hash: a salt of 16 to 64 bytes, a tag of 32, and parameters
  within the scheme's bounds in every field. */
  lemma StoredSpelling(s: Scheme, h: string, st: StoredHash)
    ensures DecodeStored(s, h) == Ok(st) <==>
      && 16 <= |st.salt| <= 64 && |st.tag| == 32
      && s.floor.memory <= st.params.memory <= s.ceiling.memory
      && s.floor.iterations <= st.params.iterations <= s.ceiling.iterations
      && s.floor.parallelism <= st.params.parallelism <= s.ceiling.parallelism
      && h == EncodeStored(st.params, st.salt, st.tag)
  {
    StoredIff(s, h, st);
  }

  // ----- keys -----------------------------------------------------------------------------------

  datatype ParsedKey = ParsedKey(lookup: string, secret: string)

  function KeyOf(name: string, k: ParsedKey): string {
    name + [SEPARATOR] + k.lookup + [SEPARATOR] + k.secret
  }

  predicate LookupChars(s: string) {
    forall i :: 0 <= i < |s| ==> IsLookupSymbol(s[i])
  }

  predicate SecretChars(s: string) {
    forall i :: 0 <= i < |s| ==> IsSymbol(s[i], Url)
  }

  ghost predicate WellShaped(k: ParsedKey) {
    && |k.lookup| == LOOKUP_LEN && |k.secret| == SECRET_LEN
    && LookupChars(k.lookup) && SecretChars(k.secret)
  }

  /** What a key reads as: the only shape whose parts rebuild it, if there is one. */
  function ParseKey(name: string, key: string): Option<ParsedKey> {
    var n := |name|;
    if |key| != n + 1 + LOOKUP_LEN + 1 + SECRET_LEN || key[..n] != name ||
       key[n] != SEPARATOR || key[n + 1 + LOOKUP_LEN] != SEPARATOR then None
    else
      var lookup, secret := key[n + 1..n + 1 + LOOKUP_LEN], key[n + 2 + LOOKUP_LEN..];
      if LookupChars(lookup) && SecretChars(secret) then Some(ParsedKey(lookup, secret)) else None
  }

  method Parse(name: string, key: string) returns (r: Option<ParsedKey>)
    ensures r == ParseKey(name, key)
  {
    var n := |name|;
    if |key| != n + 1 + LOOKUP_LEN + 1 + SECRET_LEN || key[..n] != name ||
       key[n] != SEPARATOR || key[n + 1 + LOOKUP_LEN] != SEPARATOR {
      return None;
    }
    var lookup, secret := key[n + 1..n + 1 + LOOKUP_LEN], key[n + 2 + LOOKUP_LEN..];
    for i := 0 to |lookup|
      invariant forall j :: 0 <= j < i ==> IsLookupSymbol(lookup[j])
    {
      if !IsLookupSymbol(lookup[i]) {
        return None;
      }
    }
    for i := 0 to |secret|
      invariant forall j :: 0 <= j < i ==> IsSymbol(secret[j], Url)
    {
      if !IsSymbol(secret[i], Url) {
        return None;
      }
    }
    return Some(ParsedKey(lookup, secret));
  }

  lemma RebuiltParses(name: string, k: ParsedKey)
    requires WellShaped(k)
    ensures ParseKey(name, KeyOf(name, k)) == Some(k)
  {
    var n, key := |name|, KeyOf(name, k);
    assert key[..n] == name && key[n] == SEPARATOR && key[n + 1 + LOOKUP_LEN] == SEPARATOR;
    assert key[n + 1..n + 1 + LOOKUP_LEN] == k.lookup;
    assert key[n + 2 + LOOKUP_LEN..] == k.secret;
  }

  lemma ParsedRebuilds(name: string, key: string)
    requires ParseKey(name, key).Some?
    ensures WellShaped(ParseKey(name, key).value) && key == KeyOf(name, ParseKey(name, key).value)
  {
    InFiveParts(key, |name|, |name| + 1 + LOOKUP_LEN);
  }

  lemma InFiveParts(s: string, i: nat, j: nat)
    requires i < j < |s|
    ensures s == s[..i] + [s[i]] + s[i + 1..j] + [s[j]] + s[j + 1..]
  {
  }

  /** A key is accepted if and only if it is rebuilt exactly from well-shaped parts; the secret may
  hold the separator. */
  lemma ParseIff(name: string, key: string, k: ParsedKey)
    ensures ParseKey(name, key) == Some(k) <==> WellShaped(k) && key == KeyOf(name, k)
  {
    if WellShaped(k) {
      RebuiltParses(name, k);
    }
    if ParseKey(name, key).Some? {
      ParsedRebuilds(name, key);
    }
  }

  /** The shape of a key, written out: the scheme, eight of Crockford's symbols and 32 of URL base64,
  with an underscore between. */
  lemma KeyIff(name: string, key: string, k: ParsedKey)
    ensures ParseKey(name, key) == Some(k) <==>
      && key == name + "_" + k.lookup + "_" + k.secret && |k.lookup| == 8 && |k.secret| == 32
      && (forall i :: 0 <= i < 8 ==> k.lookup[i] in LOOKUP_ALPHABET)
      && (forall i :: 0 <= i < 32 ==> k.secret[i] in URL_ALPHABET)
  {
    ParseIff(name, key, k);
    forall i | 0 <= i < |k.secret| ensures IsSymbol(k.secret[i], Url) <==> k.secret[i] in URL_ALPHABET {
      IsSymbolIff(k.secret[i], Url);
    }
  }

  // ----- minting --------------------------------------------------------------------------------

  datatype Minted = Minted(key: string, lookup: string, hash: string)

  const MINT_BYTES := LOOKUP_BYTES + SECRET_BYTES + SALT_LEN

  function HashWith(s: Scheme, k: ParsedKey, salt: seq<byte>, p: Params): string {
    EncodeStored(p, salt, s.derive(k.secret, salt, p, TAG_LEN))
  }

  /** The parts of the key made from the bytes a mint draws. */
  function Drawn(buf: seq<byte>): ParsedKey
    requires |buf| == MINT_BYTES
  {
    ParsedKey(EncodeLookup(buf[..LOOKUP_BYTES]), Encode(buf[LOOKUP_BYTES..LOOKUP_BYTES + SECRET_BYTES], Url))
  }

  function Mint(s: Scheme, buf: seq<byte>): Minted
    requires |buf| == MINT_BYTES
  {
    var k := Drawn(buf);
    Minted(KeyOf(s.name, k), k.lookup, HashWith(s, k, buf[LOOKUP_BYTES + SECRET_BYTES..], s.mint))
  }

  /** For every randomness, a minted key parses to its own parts, and its stored string decodes to the
  minted parameters, its salt and the derivation of its secret. */
  lemma MintedReads(s: Scheme, buf: seq<byte>)
    requires Sound(s) && |buf| == MINT_BYTES
    ensures var m, k, salt := Mint(s, buf), Drawn(buf), buf[LOOKUP_BYTES + SECRET_BYTES..];
      && ParseKey(s.name, m.key) == Some(k) && m.lookup == k.lookup
      && DecodeStored(s, m.hash) == Ok(StoredHash(s.mint, salt, s.derive(k.secret, salt, s.mint, TAG_LEN)))
  {
    var k, salt := Drawn(buf), buf[LOOKUP_BYTES + SECRET_BYTES..];
    LookupSymbols(buf[..LOOKUP_BYTES]);
    ParseIff(s.name, KeyOf(s.name, k), k);
    DecodeOfEncode(s, StoredHash(s.mint, salt, s.derive(k.secret, salt, s.mint, TAG_LEN)));
  }

  /** Two mints that draw different key bytes never make the same key. */
  lemma MintInjective(s: Scheme, buf: seq<byte>, buf': seq<byte>)
    requires |buf| == MINT_BYTES && |buf'| == MINT_BYTES
    requires Mint(s, buf).key == Mint(s, buf').key
    ensures buf[..LOOKUP_BYTES + SECRET_BYTES] == buf'[..LOOKUP_BYTES + SECRET_BYTES]
  {
    var k, k' := Drawn(buf), Drawn(buf');
    LookupSymbols(buf[..LOOKUP_BYTES]);
    LookupSymbols(buf'[..LOOKUP_BYTES]);
    ParseIff(s.name, KeyOf(s.name, k), k);
    ParseIff(s.name, KeyOf(s.name, k'), k');
    EncodeLookupInjective(buf[..LOOKUP_BYTES], buf'[..LOOKUP_BYTES]);
    EncodeInjective(buf[LOOKUP_BYTES..LOOKUP_BYTES + SECRET_BYTES],
      buf'[LOOKUP_BYTES..LOOKUP_BYTES + SECRET_BYTES], Url);
    assert buf[..LOOKUP_BYTES + SECRET_BYTES] == buf[..LOOKUP_BYTES] + buf[LOOKUP_BYTES..LOOKUP_BYTES + SECRET_BYTES];
    assert buf'[..LOOKUP_BYTES + SECRET_BYTES] == buf'[..LOOKUP_BYTES] +
      buf'[LOOKUP_BYTES..LOOKUP_BYTES + SECRET_BYTES];
  }

  // ----- rehashing ------------------------------------------------------------------------------

  /** The parameters a stored string at p should be rehashed to, if it should be at all. */
  function RehashTo(s: Scheme, p: Params): Option<Params> {
    var to := Higher(p, s.mint);
    if to != p then Some(to) else None
  }

  ghost predicate IsJoin(p: Params, q: Params, j: Params) {
    && j.AtLeast(p) && j.AtLeast(q)
    && forall r: Params :: r.AtLeast(p) && r.AtLeast(q) ==> r.AtLeast(j)
  }

  /** For any parameters within the bounds, a rehash is asked for exactly when some field is below the
  minted one; it decodes at the join of both, lowers no field, holds the derivation of the same
  secret there, and asks for no further rehash. */
  lemma RehashConverges(s: Scheme, was: Params, k: ParsedKey, salt: seq<byte>)
    requires Sound(s) && InBounds(s, was) && |salt| == SALT_LEN
    ensures RehashTo(s, was).Some? <==> !was.AtLeast(s.mint)
    ensures RehashTo(s, was).Some? ==>
      var to := RehashTo(s, was).value;
      && IsJoin(was, s.mint, to) && to != was
      && DecodeStored(s, HashWith(s, k, salt, to)) == Ok(StoredHash(to, salt, s.derive(k.secret, salt, to, TAG_LEN)))
      && RehashTo(s, to).None?
  {
    var to := Higher(was, s.mint);
    DecodeOfEncode(s, StoredHash(to, salt, s.derive(k.secret, salt, to, TAG_LEN)));
  }
}
