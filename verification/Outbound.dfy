/** The outbound token cache of authclient/outbound.go: which token is handed out for which request,
and until when (a delegated one by the exchange of section 2.1 of RFC 8693). */
module Outbound {
  import opened Wrappers
  import opened GoTime
  import opened Text

  // ----- requests and their keys ----------------------------------------------------------------

  datatype Request =
    | Service(audience: string, scope: string, tenant: string)  // an empty tenant names none
    | Delegated(audience: string, scope: string, subject: string)

  /** The digest a subject token is fingerprinted with. */
  type Fingerprint = string -> seq<byte>

  ghost predicate Injective(f: Fingerprint) {
    forall a, b :: f(a) == f(b) ==> a == b
  }

  function KeyOf(f: Fingerprint, r: Request): string {
    match r
    case Service(audience, scope, tenant) =>
      var key := audience + "|" + scope;
      if tenant != "" then key + "|tenant=" + tenant else key
    case Delegated(audience, scope, subject) =>
      "obo|" + audience + "|" + scope + "|" + Hex(f(subject))
  }

  /** What the key's construction relies on: its marker occurs in no audience and no scope. */
  ghost predicate Unmarked(r: Request) {
    '|' !in r.audience && '|' !in r.scope
  }

  const TENANT_MARK := "tenant="

  /** A service request and a delegated one that name the same key in spite of that: the service is
  "obo" itself, and its tenant spells the rest of the delegated key. */
  ghost predicate Confused(f: Fingerprint, s: Request, d: Request) {
    && s.Service? && d.Delegated? && s.audience == "obo" && s.scope == d.audience
    && HasPrefix(d.scope, TENANT_MARK) && s.tenant == d.scope[|TENANT_MARK|..] + "|" + Hex(f(d.subject))
  }

  /** What stands before the first marker, and what stands after it, is settled by the whole. */
  lemma {:induction false} CutAtFirstMarker(a: string, x: string, b: string, y: string)
    requires '|' !in a && '|' !in b && a + "|" + x == b + "|" + y
    ensures a == b && x == y
  {
    var w := a + "|" + x;
    assert w[|a|] == '|' && w[|b|] == '|';
    assert forall i :: 0 <= i < |a| ==> w[i] == a[i] && w[i] != '|';
    assert forall i :: 0 <= i < |b| ==> w[i] == b[i] && w[i] != '|';
    assert |a| == |b|;
    assert w[..|a|] == a && w[..|b|] == b && w[|a| + 1..] == x && w[|b| + 1..] == y;
  }

  /** What follows the audience in a service key. */
  function ServiceRest(r: Request): string
    requires r.Service?
  {
    if r.tenant != "" then r.scope + "|" + (TENANT_MARK + r.tenant) else r.scope
  }

  function DelegatedRest(f: Fingerprint, r: Request): string
    requires r.Delegated?
  {
    r.audience + "|" + (r.scope + "|" + Hex(f(r.subject)))
  }

  lemma KeyParts(f: Fingerprint, r: Request)
    ensures r.Service? ==> KeyOf(f, r) == r.audience + "|" + ServiceRest(r)
    ensures r.Delegated? ==> KeyOf(f, r) == "obo" + "|" + DelegatedRest(f, r)
  {
    if r.Delegated? {
      assert "obo|" == "obo" + "|";
    } else if r.tenant != "" {
      assert "|tenant=" == "|" + TENANT_MARK;
    }
  }

  /** A tenant shows as a second marker, and every delegated key has one. */
  lemma RestMarked(f: Fingerprint, r: Request)
    requires Unmarked(r)
    ensures r.Service? ==> ('|' in ServiceRest(r) <==> r.tenant != "")
    ensures r.Delegated? ==> '|' in DelegatedRest(f, r)
  {
    if r.Delegated? {
      assert DelegatedRest(f, r)[|r.audience|] == '|';
    } else if r.tenant != "" {
      assert ServiceRest(r)[|r.scope|] == '|';
    }
  }

  lemma ServicesSeparate(f: Fingerprint, r: Request, q: Request)
    requires r.Service? && q.Service? && Unmarked(r) && Unmarked(q) && KeyOf(f, r) == KeyOf(f, q)
    ensures r == q
  {
    KeyParts(f, r);
    KeyParts(f, q);
    CutAtFirstMarker(r.audience, ServiceRest(r), q.audience, ServiceRest(q));
    RestMarked(f, r);
    RestMarked(f, q);
    if r.tenant != "" {
      CutAtFirstMarker(r.scope, TENANT_MARK + r.tenant, q.scope, TENANT_MARK + q.tenant);
      assert (TENANT_MARK + r.tenant)[|TENANT_MARK|..] == r.tenant;
      assert (TENANT_MARK + q.tenant)[|TENANT_MARK|..] == q.tenant;
    }
  }

  lemma DelegatedSeparate(f: Fingerprint, r: Request, q: Request)
    requires Injective(f) && r.Delegated? && q.Delegated? && Unmarked(r) && Unmarked(q) && KeyOf(f, r) == KeyOf(f, q)
    ensures r == q
  {
    KeyParts(f, r);
    KeyParts(f, q);
    CutAtFirstMarker("obo", DelegatedRest(f, r), "obo", DelegatedRest(f, q));
    CutAtFirstMarker(r.audience, r.scope + "|" + Hex(f(r.subject)), q.audience, q.scope + "|" + Hex(f(q.subject)));
    CutAtFirstMarker(r.scope, Hex(f(r.subject)), q.scope, Hex(f(q.subject)));
    HexInjective(f(r.subject), f(q.subject));
  }

  lemma TenantSpellsRest(tenant: string, scope: string, hex: string)
    requires '|' !in scope && TENANT_MARK + tenant == scope + "|" + hex
    ensures HasPrefix(scope, TENANT_MARK) && tenant == scope[|TENANT_MARK|..] + "|" + hex
  {
    var w := TENANT_MARK + tenant;
    assert w[|scope|] == '|';
    assert forall i :: 0 <= i < |TENANT_MARK| ==> w[i] == TENANT_MARK[i] && w[i] != '|';
    assert |scope| >= |TENANT_MARK|;
    assert scope[..|TENANT_MARK|] == w[..|TENANT_MARK|];
    assert tenant == w[|TENANT_MARK|..];
  }

  lemma RestSpellsTenant(tenant: string, scope: string, hex: string)
    requires HasPrefix(scope, TENANT_MARK) && tenant == scope[|TENANT_MARK|..] + "|" + hex
    ensures TENANT_MARK + tenant == scope + "|" + hex && '|' in tenant
  {
    assert tenant[|scope| - |TENANT_MARK|] == '|';
    assert scope == TENANT_MARK + scope[|TENANT_MARK|..];
  }

  lemma ConfusedMeet(f: Fingerprint, s: Request, d: Request)
    requires Confused(f, s, d)
    ensures KeyOf(f, s) == KeyOf(f, d) && '|' in s.tenant
  {
    var hex := Hex(f(d.subject));
    KeyParts(f, s);
    KeyParts(f, d);
    RestSpellsTenant(s.tenant, d.scope, hex);
  }

  lemma MeetingIsConfused(f: Fingerprint, s: Request, d: Request)
    requires s.Service? && d.Delegated? && Unmarked(s) && Unmarked(d) && KeyOf(f, s) == KeyOf(f, d)
    ensures Confused(f, s, d)
  {
    var hex := Hex(f(d.subject));
    KeyParts(f, s);
    KeyParts(f, d);
    CutAtFirstMarker(s.audience, ServiceRest(s), "obo", DelegatedRest(f, d));
    RestMarked(f, s);
    RestMarked(f, d);
    CutAtFirstMarker(s.scope, TENANT_MARK + s.tenant, d.audience, d.scope + "|" + hex);
    TenantSpellsRest(s.tenant, d.scope, hex);
  }

  /** Across the lanes, exactly the confused requests meet. */
  lemma LanesMeetIff(f: Fingerprint, s: Request, d: Request)
    requires s.Service? && d.Delegated? && Unmarked(s) && Unmarked(d)
    ensures KeyOf(f, s) == KeyOf(f, d) <==> Confused(f, s, d)
  {
    if Confused(f, s, d) {
      ConfusedMeet(f, s, d);
    } else if KeyOf(f, s) == KeyOf(f, d) {
      MeetingIsConfused(f, s, d);
    }
  }

  /** The exact separation of cache keys: among requests without the marker in an audience or a scope,
  two share a key if and only if they are the same request (lane, audience, scope, and tenant or
  subject token) or confused ones of the two lanes. */
  lemma KeysSeparate(f: Fingerprint, r: Request, q: Request)
    requires Injective(f) && Unmarked(r) && Unmarked(q)
    ensures KeyOf(f, r) == KeyOf(f, q) <==> r == q || Confused(f, r, q) || Confused(f, q, r)
  {
    if r.Service? && q.Delegated? {
      LanesMeetIff(f, r, q);
    } else if r.Delegated? && q.Service? {
      LanesMeetIff(f, q, r);
    } else if KeyOf(f, r) == KeyOf(f, q) {
      if r.Service? {
        ServicesSeparate(f, r, q);
      } else {
        DelegatedSeparate(f, r, q);
      }
    }
  }

  /** For every scope, tenant and subject token there are a service and a delegated request that hold no
  marker in audience or scope and share one key. */
  lemma LanesCollide(f: Fingerprint, scope: string, tenant: string, subject: string)
    requires '|' !in scope && '|' !in tenant
    ensures var s, d := Service("obo", scope, tenant + "|" + Hex(f(subject))),
      Delegated(scope, TENANT_MARK + tenant, subject);
      Unmarked(s) && Unmarked(d) && KeyOf(f, s) == KeyOf(f, d)
  {
    var s, d := Service("obo", scope, tenant + "|" + Hex(f(subject))), Delegated(scope, TENANT_MARK + tenant, subject);
    assert d.scope[|TENANT_MARK|..] == tenant && d.scope[..|TENANT_MARK|] == TENANT_MARK;
    LanesMeetIff(f, s, d);
  }

  /** What a caller can check of its own request to be confused with none: a service other than "obo",
  or no marker in its tenant; a delegated scope that does not begin like a tenant. */
  predicate Lone(r: Request) {
    match r
    case Service(audience, _, tenant) => audience != "obo" || '|' !in tenant
    case Delegated(_, scope, _) => !HasPrefix(scope, TENANT_MARK)
  }

  lemma LoneIsNotConfused(f: Fingerprint, r: Request, q: Request)
    requires Lone(r)
    ensures !Confused(f, r, q) && !Confused(f, q, r)
  {
    if Confused(f, r, q) {
      ConfusedMeet(f, r, q);
    }
  }

  /** The same request with its audience and scope divided elsewhere. */
  function Redivided(r: Request, audience: string, scope: string): Request {
    match r
    case Service(_, _, tenant) => Service(audience, scope, tenant)
    case Delegated(_, _, subject) => Delegated(audience, scope, subject)
  }

  lemma DivisionIsLost(f: Fingerprint, r: Request, audience: string, scope: string)
    requires audience + "|" + scope == r.audience + "|" + r.scope
    ensures KeyOf(f, Redivided(r, audience, scope)) == KeyOf(f, r)
  {
    if r.Delegated? {
      var hex := Hex(f(r.subject));
      assert "obo|" + audience + "|" + scope + "|" + hex == "obo|" + (audience + "|" + scope) + "|" + hex;
      assert "obo|" + r.audience + "|" + r.scope + "|" + hex == "obo|" + (r.audience + "|" + r.scope) + "|" + hex;
    }
  }

  /** The marker must occur in no audience or scope: every request that has it there shares its key
  with a different request. */
  lemma MarkerCollides(f: Fingerprint, r: Request) returns (q: Request)
    requires '|' in r.audience || '|' in r.scope
    ensures q != r && KeyOf(f, q) == KeyOf(f, r)
  {
    var audience, scope;
    if '|' in r.audience {
      var i :| 0 <= i < |r.audience| && r.audience[i] == '|';
      audience, scope := r.audience[..i], r.audience[i + 1..] + "|" + r.scope;
      assert r.audience == r.audience[..i] + "|" + r.audience[i + 1..];
    } else {
      var i :| 0 <= i < |r.scope| && r.scope[i] == '|';
      audience, scope := r.audience + "|" + r.scope[..i], r.scope[i + 1..];
      assert r.scope == r.scope[..i] + "|" + r.scope[i + 1..];
    }
    assert audience + "|" + scope == r.audience + "|" + r.scope;
    DivisionIsLost(f, r, audience, scope);
    q := Redivided(r, audience, scope);
  }

  // ----- the cache ------------------------------------------------------------------------------

  /** A kept token; a notAfter at the zero time is none. */
  datatype Token = Token(token: string, exp: Time, notAfter: Time) {
    predicate Servable(now: Time, early: Duration) {
      if !(now + early < exp) then false else notAfter == ZERO || now < notAfter
    }
  }

  type Tokens = map<string, Token>

  function Serve(tokens: Tokens, key: string, now: Time, early: Duration): Option<string> {
    if key in tokens && tokens[key].Servable(now, early) then Some(tokens[key].token) else None
  }

  function Kept(tokens: Tokens, now: Time, early: Duration): Tokens {
    map k | k in tokens && tokens[k].Servable(now, early) :: tokens[k]
  }

  function Stored(tokens: Tokens, key: string, t: Token, now: Time, early: Duration): Tokens {
    var kept := Kept(tokens, now, early);
    if t.Servable(now, early) then kept[key := t] else kept
  }

  /** After a store, every remaining entry is servable, and what was servable under another key is
  still there. */
  lemma StoreSweeps(tokens: Tokens, key: string, t: Token, now: Time, early: Duration)
    ensures var left := Stored(tokens, key, t, now, early);
      && (forall k :: k in left ==> left[k].Servable(now, early))
      && (forall k :: k != key ==> Serve(left, k, now, early) == Serve(tokens, k, now, early))
      && (t.Servable(now, early) ==> Serve(left, key, now, early) == Some(t.token))
  {
  }

  /** The authority's answer to a token request, and the clock when the token was given its expiry and
  when it was kept. A subject token's own expiry may be unreadable. */
  datatype Grant = Refused | Granted(token: string, ttl: Duration, at: Time, storedAt: Time)

  class TokenCache {
    const early: Duration
    const fingerprint: Fingerprint
    var tokens: Tokens

    constructor (early: Duration, fingerprint: Fingerprint)
      ensures this.early == early && this.fingerprint == fingerprint && tokens == map[]
    {
      this.early, this.fingerprint, this.tokens := early, fingerprint, map[];
    }

    method Cached(key: string, now: Time) returns (r: Option<string>)
      ensures r == Serve(tokens, key, now, early)
    {
      if key in tokens {
        var t := tokens[key];
        if t.Servable(now, early) {
          return Some(t.token);
        }
      }
      return None;
    }

    method Store(key: string, t: Token, now: Time)
      modifies this
      ensures tokens == Stored(old(tokens), key, t, now, early)
    {
      var todo := tokens.Keys;
      while todo != {}
        invariant todo <= tokens.Keys <= old(tokens.Keys)
        invariant forall k :: k in tokens ==> tokens[k] == old(tokens)[k]
        invariant forall k :: k in old(tokens) && old(tokens)[k].Servable(now, early) ==> k in tokens
        invariant forall k :: k in tokens && k !in todo ==> tokens[k].Servable(now, early)
        decreases |todo|
      {
        var k :| k in todo;
        todo := todo - {k};
        if !tokens[k].Servable(now, early) {
          tokens := tokens - {k};
        }
      }
      assert tokens == Kept(old(tokens), now, early);
      if t.Servable(now, early) {
        tokens := tokens[key := t];
      }
    }

    /** A service token, for an organisation if one is named. */
    method AcquireService(audience: string, scope: string, tenant: string, now: Time, answer: Grant)
      returns (r: Option<string>)
      modifies this
      ensures (r, tokens)
        == Acquired(old(tokens), fingerprint, early, Service(audience, scope, tenant), now, answer, Some(ZERO))
    {
      var key := audience + "|" + scope;
      if tenant != "" {
        key := key + "|tenant=" + tenant;
      }
      r := Cached(key, now);
      if r.Some? {
        return;
      }
      if answer.Refused? {
        return None;
      }
      Store(key, Token(answer.token, answer.at + answer.ttl, ZERO), answer.storedAt);
      return Some(answer.token);
    }

    /** A token exchanged for the subject token, kept only if that token's expiry can be read. */
    method AcquireDelegated(audience: string, scope: string, subject: string, now: Time,
                            answer: Grant, expiry: Option<Time>)
      returns (r: Option<string>)
      modifies this
      ensures (r, tokens)
        == Acquired(old(tokens), fingerprint, early, Delegated(audience, scope, subject), now, answer, expiry)
    {
      var key := "obo|" + audience + "|" + scope + "|" + Hex(fingerprint(subject));
      r := Cached(key, now);
      if r.Some? {
        return;
      }
      if answer.Refused? {
        return None;
      }
      if expiry.Some? {
        Store(key, Token(answer.token, answer.at + answer.ttl, expiry.value), answer.storedAt);
      }
      return Some(answer.token);
    }
  }

  function Acquired(tokens: Tokens, f: Fingerprint, early: Duration, r: Request, now: Time,
    answer: Grant, notAfter: Option<Time>): (Option<string>, Tokens) {
    var key := KeyOf(f, r);
    var served := Serve(tokens, key, now, early);
    if served.Some? then (served, tokens)
    else match answer
      case Refused => (None, tokens)
      case Granted(token, ttl, at, storedAt) =>
        (Some(token), if notAfter.None? then tokens
                      else Stored(tokens, key, Token(token, at + ttl, notAfter.value), storedAt, early))
  }

  // ----- runs -----------------------------------------------------------------------------------

  /** What happens to the cache, in any interleaving of acquisitions: the authority grants a token for
  a request, some earlier grant is stored, or a request is served. The cache's lock makes each one
  step; between the steps of one acquisition any others may come. */
  datatype Event =
    | Grants(request: Request, token: string, exp: Time, notAfter: Time)
    | Stores(grant: nat, now: Time)
    | Serves(request: Request, now: Time)

  /** What a subject token states about its own expiry, if that can be read. */
  type Expiries = string -> Option<Time>

  /** A grant that may be kept: a delegated one only while its subject token's expiry is readable, and
  bounded by it; a service one bounded by none. */
  ghost predicate Keepable(expiryOf: Expiries, e: Event) {
    && e.Grants?
    && (if e.request.Delegated? then expiryOf(e.request.subject) == Some(e.notAfter) else e.notAfter == ZERO)
  }

  ghost predicate EventOk(expiryOf: Expiries, run: seq<Event>, i: nat)
    requires i < |run|
  {
    match run[i]
    case Grants(request, _, _, _) => Unmarked(request)
    case Stores(grant, now) => grant < i && Keepable(expiryOf, run[grant]) && now > ZERO
    case Serves(request, now) => Unmarked(request) && now > ZERO
  }

  ghost predicate WellFormed(expiryOf: Expiries, run: seq<Event>) {
    forall i :: 0 <= i < |run| ==> EventOk(expiryOf, run, i)
  }

  lemma WellFormedPrefix(expiryOf: Expiries, run: seq<Event>, n: nat)
    requires WellFormed(expiryOf, run) && n <= |run|
    ensures WellFormed(expiryOf, run[..n])
  {
    forall i | 0 <= i < n ensures EventOk(expiryOf, run[..n], i) {
      assert EventOk(expiryOf, run, i);
    }
  }

  function CacheAfter(f: Fingerprint, early: Duration, run: seq<Event>): Tokens {
    if run == [] then map[]
    else
      var n := |run| - 1;
      var tokens := CacheAfter(f, early, run[..n]);
      match run[n]
      case Stores(grant, now) =>
        if grant < n && run[grant].Grants? then
          var g := run[grant];
          Stored(tokens, KeyOf(f, g.request), Token(g.token, g.exp, g.notAfter), now, early)
        else tokens
      case Grants(_, _, _, _) => tokens
      case Serves(_, _) => tokens
  }

  /** Grant i of the run is what the entry t under this key was made of. */
  ghost predicate SourceOf(f: Fingerprint, expiryOf: Expiries, run: seq<Event>, i: int, key: string, t: Token) {
    && 0 <= i < |run| && Keepable(expiryOf, run[i]) && KeyOf(f, run[i].request) == key
    && Token(run[i].token, run[i].exp, run[i].notAfter) == t
  }

  ghost predicate Sourced(f: Fingerprint, expiryOf: Expiries, run: seq<Event>, key: string, t: Token) {
    exists i :: SourceOf(f, expiryOf, run, i, key, t)
  }

  lemma SourcedLater(f: Fingerprint, expiryOf: Expiries, run: seq<Event>, n: nat, key: string, t: Token)
    requires n <= |run| && Sourced(f, expiryOf, run[..n], key, t)
    ensures Sourced(f, expiryOf, run, key, t)
  {
    var i :| SourceOf(f, expiryOf, run[..n], i, key, t);
    assert SourceOf(f, expiryOf, run, i, key, t);
  }

  lemma {:induction false} EntriesAreSourced(f: Fingerprint, early: Duration, expiryOf: Expiries, run: seq<Event>)
    requires WellFormed(expiryOf, run)
    ensures forall k :: k in CacheAfter(f, early, run) ==> Sourced(f, expiryOf, run, k, CacheAfter(f, early, run)[k])
  {
    if run != [] {
      var n := |run| - 1;
      WellFormedPrefix(expiryOf, run, n);
      assert EventOk(expiryOf, run, n);
      EntriesAreSourced(f, early, expiryOf, run[..n]);
      var before, tokens := CacheAfter(f, early, run[..n]), CacheAfter(f, early, run);
      forall k | k in tokens ensures Sourced(f, expiryOf, run, k, tokens[k]) {
        if k in before && tokens[k] == before[k] {
          SourcedLater(f, expiryOf, run, n, k, tokens[k]);
        } else {
          assert SourceOf(f, expiryOf, run, run[n].grant, k, tokens[k]);
        }
      }
    }
  }

  /** The token was granted by event i for this request, and may be used at now. */
  ghost predicate Entitles(early: Duration, expiryOf: Expiries, run: seq<Event>, i: int,
    request: Request, token: string, now: Time) {
    && 0 <= i < |run| && run[i].Grants? && run[i].request == request && run[i].token == token
    && now + early < run[i].exp
    && (request.Delegated? ==>
        var expiry := expiryOf(request.subject); expiry.Some? && (expiry.value == ZERO || now < expiry.value))
  }

  /** In every run, a token served from the cache was granted earlier for the very request it is served
  to: the same lane, audience and scope, and the same tenant or subject token. It is not served
  within the early-refresh margin of its expiry, nor at or after the subject token's readable expiry,
  unless that expiry is the zero time. Only the request served must be a lone one; the others of the
  run may be any without the marker in audience or scope. */
  lemma ServedTokensAreOwn(f: Fingerprint, early: Duration, expiryOf: Expiries, run: seq<Event>, n: nat)
    requires Injective(f) && WellFormed(expiryOf, run) && n < |run| && run[n].Serves? && Lone(run[n].request)
    requires Serve(CacheAfter(f, early, run[..n]), KeyOf(f, run[n].request), run[n].now, early).Some?
    ensures var token := Serve(CacheAfter(f, early, run[..n]), KeyOf(f, run[n].request), run[n].now, early).value;
      exists i :: i < n && Entitles(early, expiryOf, run, i, run[n].request, token, run[n].now)
  {
    var tokens, key := CacheAfter(f, early, run[..n]), KeyOf(f, run[n].request);
    WellFormedPrefix(expiryOf, run, n);
    EntriesAreSourced(f, early, expiryOf, run[..n]);
    var i :| SourceOf(f, expiryOf, run[..n], i, key, tokens[key]);
    assert run[i] == run[..n][i];
    assert EventOk(expiryOf, run, i) && EventOk(expiryOf, run, n);
    KeysSeparate(f, run[i].request, run[n].request);
    LoneIsNotConfused(f, run[n].request, run[i].request);
    assert Entitles(early, expiryOf, run, i, run[n].request, tokens[key].token, run[n].now);
  }

  /** The condition is needed: of two confused requests, whichever is granted a token first, the other
  is served it. */
  lemma {:induction false} ConfusedIsServed(f: Fingerprint, expiryOf: Expiries, early: Duration,
    granted: Event, other: Request, now: Time)
    requires Keepable(expiryOf, granted) && now > ZERO && Unmarked(granted.request) && Unmarked(other)
    requires Confused(f, granted.request, other) || Confused(f, other, granted.request)
    requires Token(granted.token, granted.exp, granted.notAfter).Servable(now, early)
    ensures var run := [granted, Stores(0, now), Serves(other, now)];
      && WellFormed(expiryOf, run)
      && Serve(CacheAfter(f, early, run[..2]), KeyOf(f, other), now, early) == Some(granted.token)
  {
    var run := [granted, Stores(0, now), Serves(other, now)];
    CacheSkips(f, early, [], granted);
    CacheStores(f, early, [] + [granted], 0, now);
    assert run[..2] == [] + [granted] + [Stores(0, now)];
    if Confused(f, granted.request, other) {
      LanesMeetIff(f, granted.request, other);
    } else {
      LanesMeetIff(f, other, granted.request);
    }
  }

  /** Exactly when the subject token's expiry ends reuse: for every expiry but the zero time. At the
  zero time a kept token is served after it. */
  lemma ExpiryEndsReuse(t: Token, early: Duration)
    requires early >= 0
    ensures (forall now :: now > ZERO && t.Servable(now, early) ==> now < t.notAfter) <==>
            t.notAfter != ZERO || t.exp <= early + 1
  {
    if t.notAfter == ZERO && t.exp > early + 1 {
      assert t.Servable(1, early);
    }
  }

  // ----- the acquire methods as runs ------------------------------------------------------------

  /** A run and one acquisition after it, when nothing comes between the steps. */
  function Acquiring(f: Fingerprint, early: Duration, run: seq<Event>, r: Request, now: Time,
                     answer: Grant, notAfter: Option<Time>): seq<Event>
  {
    var asked := run + [Serves(r, now)];
    if Serve(CacheAfter(f, early, run), KeyOf(f, r), now, early).Some? || answer.Refused? then asked
    else
      var exp := answer.at + answer.ttl;
      if notAfter.None? then asked + [Grants(r, answer.token, exp, ZERO)]
      else asked + [Grants(r, answer.token, exp, notAfter.value)] + [Stores(|asked|, answer.storedAt)]
  }

  lemma {:induction false} CacheSkips(f: Fingerprint, early: Duration, run: seq<Event>, e: Event)
    requires !e.Stores?
    ensures CacheAfter(f, early, run + [e]) == CacheAfter(f, early, run)
  {
    assert (run + [e])[..|run|] == run;
  }

  lemma {:induction false} CacheStores(f: Fingerprint, early: Duration, run: seq<Event>, grant: nat, now: Time)
    requires grant < |run| && run[grant].Grants?
    ensures var g := run[grant];
      CacheAfter(f, early, run + [Stores(grant, now)]) ==
      Stored(CacheAfter(f, early, run), KeyOf(f, g.request), Token(g.token, g.exp, g.notAfter), now, early)
  {
    var all := run + [Stores(grant, now)];
    assert all[..|run|] == run && all[|run|] == Stores(grant, now) && all[grant] == run[grant];
  }

  lemma {:induction false} WellFormedAppend(expiryOf: Expiries, run: seq<Event>, e: Event)
    requires WellFormed(expiryOf, run) && EventOk(expiryOf, run + [e], |run|)
    ensures WellFormed(expiryOf, run + [e])
  {
    var all := run + [e];
    forall i | 0 <= i < |run| ensures EventOk(expiryOf, all, i) {
      assert EventOk(expiryOf, run, i) && all[i] == run[i];
      assert run[i].Stores? ==> all[run[i].grant] == run[run[i].grant];
    }
  }

  /** A grant and its store, one after the other. */
  lemma {:induction false} GrantThenStore(f: Fingerprint, early: Duration, run: seq<Event>, g: Event, now: Time)
    requires g.Grants?
    ensures CacheAfter(f, early, run + [g] + [Stores(|run|, now)]) ==
            Stored(CacheAfter(f, early, run), KeyOf(f, g.request), Token(g.token, g.exp, g.notAfter), now, early)
  {
    CacheSkips(f, early, run, g);
    CacheStores(f, early, run + [g], |run|, now);
  }

  /** The new events leave the cache alone, or store the token granted. */
  lemma {:induction false} AcquiringLeaves(f: Fingerprint, early: Duration, run: seq<Event>, r: Request, now: Time,
    answer: Grant, notAfter: Option<Time>)
    ensures var tokens, after := CacheAfter(f, early, run), Acquiring(f, early, run, r, now, answer, notAfter);
      CacheAfter(f, early, after) ==
      if Serve(tokens, KeyOf(f, r), now, early).Some? || answer.Refused? || notAfter.None? then tokens
      else
        var token := Token(answer.token, answer.at + answer.ttl, notAfter.value);
        Stored(tokens, KeyOf(f, r), token, answer.storedAt, early)
  {
    var asked, served := run + [Serves(r, now)], Serve(CacheAfter(f, early, run), KeyOf(f, r), now, early);
    CacheSkips(f, early, run, Serves(r, now));
    if served.None? && answer.Granted? {
      var grant := Grants(r, answer.token, answer.at + answer.ttl, if notAfter.None? then ZERO else notAfter.value);
      CacheSkips(f, early, asked, grant);
      GrantThenStore(f, early, asked, grant, answer.storedAt);
    }
  }

  lemma {:induction false} WellFormedStore(expiryOf: Expiries, run: seq<Event>, g: Event, now: Time)
    requires WellFormed(expiryOf, run + [g]) && Keepable(expiryOf, g) && now > ZERO
    ensures WellFormed(expiryOf, run + [g] + [Stores(|run|, now)])
  {
    assert (run + [g] + [Stores(|run|, now)])[|run|] == g;
    WellFormedAppend(expiryOf, run + [g], Stores(|run|, now));
  }

  lemma {:induction false} AcquiringIsWellFormed(f: Fingerprint, early: Duration, expiryOf: Expiries,
    run: seq<Event>, r: Request, now: Time, answer: Grant, notAfter: Option<Time>)
    requires WellFormed(expiryOf, run) && Unmarked(r) && now > ZERO && (answer.Granted? ==> answer.storedAt > ZERO)
    requires notAfter == if r.Delegated? then expiryOf(r.subject) else Some(ZERO)
    ensures WellFormed(expiryOf, Acquiring(f, early, run, r, now, answer, notAfter))
  {
    var asked := run + [Serves(r, now)];
    WellFormedAppend(expiryOf, run, Serves(r, now));
    if answer.Granted? {
      var grant := Grants(r, answer.token, answer.at + answer.ttl, if notAfter.None? then ZERO else notAfter.value);
      WellFormedAppend(expiryOf, asked, grant);
      if notAfter.Some? {
        WellFormedStore(expiryOf, asked, grant, answer.storedAt);
      }
    }
  }

  /** An acquisition left alone is those events: it leaves the cache they leave, and keeps the run one
  the theorem above speaks of. */
  lemma {:induction false} AcquiredIsRun(f: Fingerprint, early: Duration, expiryOf: Expiries,
    run: seq<Event>, r: Request, now: Time, answer: Grant, notAfter: Option<Time>)
    requires WellFormed(expiryOf, run) && Unmarked(r) && now > ZERO && (answer.Granted? ==> answer.storedAt > ZERO)
    requires notAfter == if r.Delegated? then expiryOf(r.subject) else Some(ZERO)
    ensures var all := Acquiring(f, early, run, r, now, answer, notAfter);
      && CacheAfter(f, early, all) == Acquired(CacheAfter(f, early, run), f, early, r, now, answer, notAfter).1
      && WellFormed(expiryOf, all) && run + [Serves(r, now)] <= all
  {
    AcquiringLeaves(f, early, run, r, now, answer, notAfter);
    AcquiringIsWellFormed(f, early, expiryOf, run, r, now, answer, notAfter);
  }

  /** Exactly when a token is reused: granted at a time for a lifetime, under a subject token's expiry, it
  is served to the same request at a later reading t, with nothing stored between, if and only if the
  expiry was readable, t and the early margin are before the end of the lifetime, and t is before the
  expiry unless that is the zero time. Whatever stood under the key before had run out. */
  lemma {:induction false} ReusedIff(tokens: Tokens, f: Fingerprint, early: Duration, r: Request, now: Time,
    token: string, ttl: Duration, at: Time, storedAt: Time, expiry: Option<Time>, t: Time)
    requires KeyOf(f, r) in tokens ==> tokens[KeyOf(f, r)].exp <= now + early
    requires now <= storedAt <= t
    ensures var first := Acquired(tokens, f, early, r, now, Granted(token, ttl, at, storedAt), expiry);
      && first.0 == Some(token)
      && Acquired(first.1, f, early, r, t, Refused, expiry).0 ==
         if expiry.Some? && t + early < at + ttl && (expiry.value == ZERO || t < expiry.value) then Some(token)
         else None
  {
  }

  /** At any clock reading, a token exchanged for a subject token whose expiry is the zero time is kept,
  and served from the cache for as long as the authority made it live, although the subject token
  expired before either reading. */
  lemma {:induction false} ZeroExpiryIsServed(f: Fingerprint, early: Duration, r: Request, token: string,
    ttl: Duration, now: Time, later: Time)
    requires r.Delegated? && ZERO < now <= later && later + early < now + ttl
    ensures var kept := Acquired(map[], f, early, r, now, Granted(token, ttl, now, now), Some(ZERO)).1;
      Acquired(kept, f, early, r, later, Refused, Some(ZERO)).0 == Some(token)
  {
    StoreSweeps(map[], KeyOf(f, r), Token(token, now + ttl, ZERO), now, early);
  }
}
