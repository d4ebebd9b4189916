/** The API-key verifier of apikeys/verify.go: its settings, the success cache, and one check from
end to end. */
module Verifier {
  import opened Wrappers
  import opened GoTime
  import opened Text
  import opened ApiKeys
  import Limiter

  // ----- settings -------------------------------------------------------------------------------

  /** Whether a lookup and a limiter of the caller's own are given, and the numbers. */
  datatype Config = Config(hasLookup: bool, hasLimiter: bool, maxDerives: int, busyRetryAfter: Duration,
                           cacheTtl: Duration, cacheSize: int)

  /** The cache is on when its lifetime is positive. Limits are those of the verifier's own limiter, made
  when the caller gave none. */
  datatype Settings = Settings(maxDerives: int, busyAfter: Duration, ttl: Duration, size: int,
                               limits: Option<Limiter.Limits>)
  {
    predicate Valid() {
      maxDerives >= 1 && busyAfter > 0 && ttl >= 0 && (ttl > 0 ==> size >= 1)
    }

    predicate Caching() { ttl > 0 }
  }

  function NewSettings(c: Config): (r: Option<Settings>)
    ensures r.None? <==>
      !c.hasLookup || c.maxDerives < 0 || c.busyRetryAfter < 0 || c.cacheTtl < 0 || c.cacheSize < 0
    ensures r.Some? ==> r.value.Valid()
    ensures r.Some? ==>
      && r.value.maxDerives == (if c.maxDerives == 0 then 4 else c.maxDerives)
      && r.value.busyAfter == (if c.busyRetryAfter == 0 then SECOND else c.busyRetryAfter)
      && r.value.ttl == c.cacheTtl
      && r.value.size == (if c.cacheTtl > 0 && c.cacheSize == 0 then 1024 else c.cacheSize)
    ensures r.Some? ==> (r.value.limits.Some? <==> !c.hasLimiter)
    ensures r.Some? && r.value.limits.Some? ==>
      && r.value.limits.value.Valid() && r.value.limits.value.max == 10_000
      && r.value.limits.value.interval == SECOND && r.value.limits.value.Window() == 60 * SECOND
  {
    if !c.hasLookup then None
    else if c.maxDerives < 0 || c.busyRetryAfter < 0 || c.cacheTtl < 0 || c.cacheSize < 0 then None
    else Some(Settings(
      if c.maxDerives == 0 then 4 else c.maxDerives,
      if c.busyRetryAfter == 0 then SECOND else c.busyRetryAfter,
      c.cacheTtl,
      if c.cacheTtl > 0 && c.cacheSize == 0 then 1024 else c.cacheSize,
      if c.hasLimiter then None else Limiter.NewLimits(DEFAULT_LIMIT)))
  }

  /** Sixty attempts a minute for each of ten thousand callers. */
  const DEFAULT_LIMIT := Limiter.Config(60, 60 * SECOND, 10_000)

  // ----- one check on its own -------------------------------------------------------------------

  /** A passed check; the rehash and the string it replaces are empty when there is none. */
  datatype Pass = Pass(lookup: string, rehash: string, replaced: string)

  datatype Outcome =
    | NoCaller
    | Limited(after: Duration)
    | Unavailable
    | Busy(retry: Duration)
    | Cancelled
    | StoredRefused(reason: StoredError)
    | Invalid
    | Passed(pass: Pass)

  /** What a check derives: against which hash, with which secret, and whether it can pass at all. */
  datatype Case = Case(known: bool, st: StoredHash, refused: Option<StoredError>, secret: string)

  const BLANK_SECRET := "\0\0\0\0\0\0\0\0\0\0\0\0\0\0\0\0\0\0\0\0\0\0\0\0\0\0\0\0\0\0\0\0"

  function CaseOf(s: Scheme, key: string, found: Option<string>): Case {
    match ParseKey(s.name, key)
    case None => Case(false, s.dummy, None, BLANK_SECRET)
    case Some(k) =>
      match found
      case None => Case(false, s.dummy, None, k.secret)
      case Some(stored) =>
        match DecodeStored(s, stored)
        case Ok(st) => Case(true, st, None, k.secret)
        case Err(e) => Case(false, s.dummy, Some(e), k.secret)
  }

  predicate Matches(s: Scheme, c: Case) {
    s.derive(c.secret, c.st.salt, c.st.params, |c.st.tag|) == c.st.tag
  }

  /** What one derive decides. The salt is the rehash's randomness, absent when it could not be read. */
  function Decide(s: Scheme, key: string, found: Option<string>, salt: Option<seq<byte>>): Outcome {
    var c := CaseOf(s, key, found);
    if c.refused.Some? then StoredRefused(c.refused.value)
    else if !c.known || !Matches(s, c) then Invalid
    else
      var k := ParseKey(s.name, key).value;
      var to := RehashTo(s, c.st.params);
      if to.Some? && salt.Some? then Passed(Pass(k.lookup, HashWith(s, k, salt.value, to.value), found.value))
      else Passed(Pass(k.lookup, "", ""))
  }

  // ----- the success cache ----------------------------------------------------------------------

  type Digest = string

  datatype Entry = Entry(stored: string, digest: Digest, expires: Time)

  predicate Answers(e: Entry, stored: string, digest: Digest, now: Time) {
    now < e.expires && e.stored == stored && e.digest == digest
  }

  predicate HitOn(entries: map<string, Entry>, lookup: string, stored: string, digest: Digest, now: Time) {
    lookup in entries && Answers(entries[lookup], stored, digest, now)
  }

  function Live(entries: map<string, Entry>, now: Time): map<string, Entry> {
    map k | k in entries && now < entries[k].expires :: entries[k]
  }

  ghost predicate PartOf(kept: map<string, Entry>, entries: map<string, Entry>) {
    forall k :: k in kept ==> k in entries && kept[k] == entries[k]
  }

  /** What making room for lookup may leave. A full cache drops what has expired and then, in no
  particular order, only as many others as make room for one. */
  ghost predicate RoomFor(entries: map<string, Entry>, lookup: string, now: Time, size: int, left: map<string, Entry>) {
    if lookup in entries || |entries| < size then left == entries
    else
      var live := Live(entries, now);
      PartOf(left, live) && (if |live| < size then left == live else |left| == size - 1)
  }

  ghost predicate PutLeaves(entries: map<string, Entry>, lookup: string, e: Entry, now: Time,
    size: int, left: map<string, Entry>) {
    exists room :: RoomFor(entries, lookup, now, size, room) && left == room[lookup := e]
  }

  class SuccessCache {
    const ttl: Duration
    const size: int
    const digest: string -> Digest
    var entries: map<string, Entry>

    constructor (ttl: Duration, size: int, digest: string -> Digest)
      requires size >= 1
      ensures this.ttl == ttl && this.size == size && this.digest == digest && entries == map[]
    {
      this.ttl, this.size, this.digest, this.entries := ttl, size, digest, map[];
    }

    method Hit(lookup: string, stored: string, secret: string, now: Time) returns (hit: bool)
      ensures hit == HitOn(entries, lookup, stored, digest(secret), now)
      ensures hit <==> lookup in entries && now < entries[lookup].expires
                       && entries[lookup].stored == stored && entries[lookup].digest == digest(secret)
    {
      var d := digest(secret);
      if lookup !in entries {
        return false;
      }
      var e := entries[lookup];
      return now < e.expires && e.stored == stored && e.digest == d;
    }

    method Put(lookup: string, stored: string, secret: string, now: Time)
      requires size >= 1
      modifies this
      ensures PutLeaves(old(entries), lookup, Entry(stored, digest(secret), now + ttl), now, size, entries)
      ensures |old(entries)| <= size ==>
        NewOrOld(old(entries), lookup, Entry(stored, digest(secret), now + ttl), entries) && |entries| <= size
      ensures lookup in entries && entries[lookup] == Entry(stored, digest(secret), now + ttl)
    {
      MakeRoom(lookup, now);
      entries := entries[lookup := Entry(stored, digest(secret), now + ttl)];
      if |old(entries)| <= size {
        PutIsNewOrOld(old(entries), lookup, Entry(stored, digest(secret), now + ttl), now, size, entries);
      }
    }

    method MakeRoom(lookup: string, now: Time)
      requires size >= 1
      modifies this
      ensures RoomFor(old(entries), lookup, now, size, entries)
    {
      if lookup !in entries && |entries| >= size {
        DropExpired(now);
        ghost var live := entries;
        var todo := entries.Keys;
        while todo != {}
          invariant todo <= entries.Keys && PartOf(entries, live)
          invariant |live| < size ==> entries == live
          invariant |live| >= size ==> |entries| >= size - 1
          invariant |entries| >= size ==> entries.Keys == todo
          decreases |todo|
        {
          var k :| k in todo;
          if |entries| < size {
            break;
          }
          todo := todo - {k};
          entries := entries - {k};
        }
      }
    }

    method DropExpired(now: Time)
      modifies this
      ensures entries == Live(old(entries), now)
    {
      var todo := entries.Keys;
      while todo != {}
        invariant todo <= entries.Keys && PartOf(entries, old(entries))
        invariant forall k :: k in old(entries) && now < old(entries)[k].expires ==> k in entries
        invariant forall k :: k in entries && k !in todo ==> now < entries[k].expires
        decreases |todo|
      {
        var k :| k in todo;
        todo := todo - {k};
        if !(now < entries[k].expires) {
          entries := entries - {k};
        }
      }
    }
  }

  // ----- why a cached answer is the derived one -------------------------------------------------

  ghost predicate Injective(digest: string -> Digest) {
    forall a, b :: digest(a) == digest(b) ==> a == b
  }

  /** The stored string passes with this secret, and asks for no rehash. */
  ghost predicate PassesPlainly(s: Scheme, stored: string, secret: string) {
    match DecodeStored(s, stored)
    case Err(_) => false
    case Ok(st) => s.derive(secret, st.salt, st.params, |st.tag|) == st.tag && RehashTo(s, st.params).None?
  }

  /** An entry stands for a check that was derived and passed. */
  ghost predicate Earned(s: Scheme, digest: string -> Digest, e: Entry) {
    exists secret :: digest(secret) == e.digest && PassesPlainly(s, e.stored, secret)
  }

  ghost predicate AllEarned(s: Scheme, digest: string -> Digest, entries: map<string, Entry>) {
    forall k :: k in entries ==> Earned(s, digest, entries[k])
  }

  /** The cache refines the derive: an answer from an earned entry is the answer one derive would
  give on the same lookup, with no rehash, whatever randomness that derive had. */
  lemma HitAgrees(s: Scheme, digest: string -> Digest, e: Entry, key: string, stored: string, now: Time,
    salt: Option<seq<byte>>)
    requires Injective(digest) && ParseKey(s.name, key).Some?
    ensures Earned(s, digest, e) && Answers(e, stored, digest(ParseKey(s.name, key).value.secret), now) ==>
      && Decide(s, key, Some(stored), salt) == Passed(Pass(ParseKey(s.name, key).value.lookup, "", ""))
      && RehashTo(s, CaseOf(s, key, Some(stored)).st.params).None?
  {
    if Earned(s, digest, e) && Answers(e, stored, digest(ParseKey(s.name, key).value.secret), now) {
      var secret :| digest(secret) == e.digest && PassesPlainly(s, e.stored, secret);
      assert secret == ParseKey(s.name, key).value.secret;
    }
  }

  lemma PlainPass(s: Scheme, key: string, stored: string, salt: Option<seq<byte>>)
    requires CaseOf(s, key, Some(stored)).known && Matches(s, CaseOf(s, key, Some(stored)))
    requires RehashTo(s, CaseOf(s, key, Some(stored)).st.params).None?
    ensures PassesPlainly(s, stored, ParseKey(s.name, key).value.secret)
    ensures Decide(s, key, Some(stored), salt) == Passed(Pass(ParseKey(s.name, key).value.lookup, "", ""))
  {
  }

  /** What every run keeps of the cache: each entry earned, and never more than its size. */
  ghost predicate CacheOk(s: Scheme, settings: Settings, digest: string -> Digest, entries: map<string, Entry>) {
    AllEarned(s, digest, entries) && (settings.Caching() ==> |entries| <= settings.size)
  }

  /** Every entry left is the new one or one that was there. */
  ghost predicate NewOrOld(entries: map<string, Entry>, lookup: string, e: Entry, left: map<string, Entry>) {
    forall k :: k in left ==> if k == lookup then left[k] == e else k in entries && left[k] == entries[k]
  }

  lemma PutIsNewOrOld(entries: map<string, Entry>, lookup: string, e: Entry, now: Time, size: int,
    left: map<string, Entry>)
    requires |entries| <= size && size >= 1
    ensures PutLeaves(entries, lookup, e, now, size, left) ==> NewOrOld(entries, lookup, e, left) && |left| <= size
  {
    if PutLeaves(entries, lookup, e, now, size, left) {
      var room :| RoomFor(entries, lookup, now, size, room) && left == room[lookup := e];
      assert left.Keys == room.Keys + {lookup};
      if lookup in entries {
        assert left.Keys == entries.Keys;
      }
    }
  }

  /** Room for one more leaves all that fits: everything when the lookup was there or there was room, and
  otherwise only live entries, as many as there are or as many as there is room for. */
  lemma RoomIsExact(entries: map<string, Entry>, lookup: string, now: Time, size: int, room: map<string, Entry>,
    live: set<string>)
    requires 1 <= size && |entries| <= size && RoomFor(entries, lookup, now, size, room)
    requires forall k :: k in live <==> k in entries && now < entries[k].expires
    ensures PartOf(room, entries)
    ensures lookup in entries || |entries| < size ==> room == entries
    ensures lookup !in entries && |entries| == size ==>
      room.Keys <= live && |room| == if |live| < size then |live| else size - 1
  {
    assert Live(entries, now).Keys == live;
  }

  /** A put leaves the entry put, and of the others exactly as many as fit, live ones when it was full. */
  lemma {:induction false} PutIsExact(entries: map<string, Entry>, lookup: string, e: Entry, now: Time, size: int,
    left: map<string, Entry>, live: set<string>)
    requires 1 <= size && |entries| <= size && PutLeaves(entries, lookup, e, now, size, left)
    requires forall k :: k in live <==> k in entries && now < entries[k].expires
    ensures lookup in left && left[lookup] == e
    ensures forall k :: k in left && k != lookup ==> k in entries && left[k] == entries[k]
    ensures lookup in entries || |entries| < size ==> left.Keys == entries.Keys + {lookup}
    ensures lookup !in entries && |entries| == size ==>
      left.Keys <= live + {lookup} && |left| == if |live| < size then |live| + 1 else size
  {
    var room :| RoomFor(entries, lookup, now, size, room) && left == room[lookup := e];
    RoomIsExact(entries, lookup, now, size, room, live);
    InsertedSize(room, lookup, e);
  }

  lemma InsertedSize(room: map<string, Entry>, lookup: string, e: Entry)
    ensures room[lookup := e].Keys == room.Keys + {lookup}
    ensures lookup !in room ==> |room[lookup := e]| == |room| + 1
  {
    assert room[lookup := e].Keys == room.Keys + {lookup};
  }

  /** An entry put at u answers its own stored string and secret exactly until u + ttl. */
  lemma {:induction false} PutAnswersUntil(entries: map<string, Entry>, lookup: string, stored: string, d: Digest,
    u: Time, ttl: Duration, size: int, left: map<string, Entry>, t: Time)
    requires PutLeaves(entries, lookup, Entry(stored, d, u + ttl), u, size, left)
    ensures HitOn(left, lookup, stored, d, t) <==> t < u + ttl
  {
  }

  /** Filling the cache with a check that passed plainly keeps it. */
  lemma FillingKeeps(s: Scheme, settings: Settings, digest: string -> Digest,
    entries: map<string, Entry>, lookup: string, stored: string, secret: string, expires: Time,
    left: map<string, Entry>)
    requires CacheOk(s, settings, digest, entries) && PassesPlainly(s, stored, secret)
    requires NewOrOld(entries, lookup, Entry(stored, digest(secret), expires), left) && |left| <= settings.size
    ensures CacheOk(s, settings, digest, left)
  {
    assert Earned(s, digest, Entry(stored, digest(secret), expires));
  }

  // ----- one check from end to end --------------------------------------------------------------

  datatype LookupAnswer = LookupFailed | Answered(found: Option<string>)

  /** Everything outside a check that it meets on its way. */
  datatype World = World(
    allowed: bool, retryAfter: Duration,  // the limiter's answer
    lookup: LookupAnswer,                 // the store's answer, asked only for a key that parses
    hitAt: Time, putAt: Time,             // the cache's clock when it is probed and when it is filled
    cancelled: bool,                      // whether the caller gave up before the derive
    salt: Option<seq<byte>>)              // the randomness of a rehash
  {
    function Found(): Option<string> {
      if lookup.Answered? then lookup.found else None
    }
  }

  /** The check is answered by the cache: caching is on, the stored string decodes, and a live entry for
  the lookup holds that string and the secret's digest. */
  ghost predicate Cached(s: Scheme, settings: Settings, digest: string -> Digest, entries: map<string, Entry>,
    key: string, w: World) {
    && settings.ttl > 0 && ParseKey(s.name, key).Some? && w.Found().Some? && DecodeStored(s, w.Found().value).Ok?
    && var k := ParseKey(s.name, key).value;
       && k.lookup in entries && w.hitAt < entries[k.lookup].expires
       && entries[k.lookup].stored == w.Found().value && entries[k.lookup].digest == digest(k.secret)
  }

  /** The stored string decodes and is at the minted parameters or above in every field. */
  ghost predicate AtMint(s: Scheme, found: Option<string>) {
    && found.Some? && DecodeStored(s, found.value).Ok?
    && DecodeStored(s, found.value).value.params.AtLeast(s.mint)
  }

  /** What a check leaves in the cache: itself, remembered for the lifetime, or nothing new. */
  ghost predicate Leaves(s: Scheme, settings: Settings, digest: string -> Digest, entries: map<string, Entry>,
    key: string, w: World, fills: bool, left: map<string, Entry>) {
    if fills && ParseKey(s.name, key).Some? && w.Found().Some? then
      var k := ParseKey(s.name, key).value;
      Remembers(settings, entries, k.lookup, Entry(w.Found().value, digest(k.secret), w.putAt + settings.ttl), left)
    else left == entries
  }

  /** The entry is in the cache, beside nothing but what was there, within the size. */
  ghost predicate Remembers(settings: Settings, entries: map<string, Entry>, lookup: string, e: Entry,
    left: map<string, Entry>) {
    lookup in left && NewOrOld(entries, lookup, e, left) && |left| <= settings.size
  }

  /** A check that filled the cache at u answers the same key and stored string from it exactly until
  u + ttl, and no other stored string. */
  lemma {:induction false} FilledIsCached(s: Scheme, settings: Settings, digest: string -> Digest,
    entries: map<string, Entry>, key: string, w: World, left: map<string, Entry>, again: World)
    requires settings.ttl > 0 && ParseKey(s.name, key).Some? && AtMint(s, w.Found())
    requires Leaves(s, settings, digest, entries, key, w, true, left)
    requires again.Found().Some? && DecodeStored(s, again.Found().value).Ok?
    ensures Cached(s, settings, digest, left, key, again) <==>
      again.hitAt < w.putAt + settings.ttl && again.Found() == w.Found()
  {
  }

  class KeyVerifier {
    const scheme: Scheme
    const settings: Settings
    const digest: string -> Digest
    const cache: SuccessCache
    var slots: nat

    ghost predicate Valid()
      reads this, cache
    {
      && Sound(scheme) && Injective(digest) && settings.Valid() && slots <= settings.maxDerives
      && cache.digest == digest && cache.ttl == settings.ttl
      && (settings.Caching() ==> cache.size == settings.size)
      && CacheOk(scheme, settings, digest, cache.entries)
    }

    constructor (scheme: Scheme, settings: Settings, digest: string -> Digest)
      requires Sound(scheme) && Injective(digest) && settings.Valid()
      ensures Valid() && fresh(cache) && slots == 0 && cache.entries == map[]
      ensures this.scheme == scheme && this.settings == settings && this.digest == digest
    {
      this.scheme, this.settings, this.digest, this.slots := scheme, settings, digest, 0;
      this.cache := new SuccessCache(settings.ttl, if settings.size < 1 then 1 else settings.size, digest);
    }

    /** The answer is the refusals for load in their order, and past them what one derive decides,
    whether the check derived or found its answer in the cache. The slot taken is given back. */
    method Verify(caller: string, key: string, w: World) returns (r: Outcome)
      requires Valid()
      modifies this, cache
      ensures Valid() && slots == old(slots)
      ensures r == if caller == "" then NoCaller
                   else if !w.allowed then Limited(w.retryAfter)
                   else if ParseKey(scheme.name, key).Some? && w.lookup.LookupFailed? then Unavailable
                   else if Cached(scheme, settings, digest, old(cache.entries), key, w)
                   then Decide(scheme, key, w.Found(), w.salt)
                   else if old(slots) >= settings.maxDerives then Busy(settings.busyAfter)
                   else if w.cancelled then Cancelled
                   else Decide(scheme, key, w.Found(), w.salt)
      ensures var fills := && settings.ttl > 0 && r.Passed? && AtMint(scheme, w.Found())
                           && !Cached(scheme, settings, digest, old(cache.entries), key, w);
        Leaves(scheme, settings, digest, old(cache.entries), key, w, fills, cache.entries)
    {
      if caller == "" {
        return NoCaller;
      }
      if !w.allowed {
        return Limited(w.retryAfter);
      }
      var k := Parse(scheme.name, key);
      var st, known, refused, stored := scheme.dummy, false, None, "";
      if k.Some? {
        if w.lookup.LookupFailed? {
          return Unavailable;
        }
        if w.lookup.found.Some? {
          stored := w.lookup.found.value;
          match DecodeStored(scheme, stored) {
            case Ok(decoded) => st, known := decoded, true;
            case Err(e) => refused := Some(e);
          }
        }
      }
      var secret := if k.Some? then k.value.secret else BLANK_SECRET;
      assert CaseOf(scheme, key, w.Found()) == Case(known, st, refused, secret);
      if known && settings.Caching() {
        var hit := cache.Hit(k.value.lookup, stored, k.value.secret, w.hitAt);
        if hit {
          HitAgrees(scheme, digest, cache.entries[k.value.lookup], key, stored, w.hitAt, w.salt);
          return Passed(Pass(k.value.lookup, "", ""));
        }
      }
      if slots >= settings.maxDerives {
        return Busy(settings.busyAfter);
      }
      slots := slots + 1;
      if w.cancelled {
        r := Cancelled;
      } else {
        r := Settle(key, k, stored, Case(known, st, refused, secret), w);
      }
      slots := slots - 1;
    }

    /** The part of a check that runs in its slot: one derive, the comparison, the rehash or the
    cache. */
    method Settle(key: string, k: Option<ParsedKey>, stored: string, c: Case, w: World) returns (r: Outcome)
      requires Valid() && k == ParseKey(scheme.name, key) && c == CaseOf(scheme, key, w.Found())
      requires c.known ==> w.Found() == Some(stored)
      modifies cache
      ensures Valid() && r == Decide(scheme, key, w.Found(), w.salt)
      ensures r.Passed? ==> k.Some? && c.known
      ensures if settings.ttl > 0 && r.Passed? && c.st.params.AtLeast(scheme.mint)
        then Remembers(settings, old(cache.entries), k.value.lookup,
                       Entry(stored, digest(k.value.secret), w.putAt + settings.ttl), cache.entries)
        else cache.entries == old(cache.entries)
    {
      var plain: bool;
      r, plain := Compare(key, k, stored, c, w);
      if plain && settings.Caching() {
        Remember(k.value, stored, w.putAt);
      }
    }

    /** The derive and what it decides; a plain pass needs no rehash. */
    method Compare(key: string, k: Option<ParsedKey>, stored: string, c: Case, w: World)
      returns (r: Outcome, plain: bool)
      requires k == ParseKey(scheme.name, key) && c == CaseOf(scheme, key, w.Found())
      requires c.known ==> w.Found() == Some(stored)
      ensures r == Decide(scheme, key, w.Found(), w.salt)
      ensures r.Passed? ==> k.Some? && c.known
      ensures plain <==> r.Passed? && c.st.params.AtLeast(scheme.mint)
      ensures plain ==> PassesPlainly(scheme, stored, k.value.secret)
    {
      var matched := scheme.derive(c.secret, c.st.salt, c.st.params, |c.st.tag|) == c.st.tag;
      if c.refused.Some? {
        return StoredRefused(c.refused.value), false;
      }
      if !c.known || !matched {
        return Invalid, false;
      }
      r, plain := Passed(Pass(k.value.lookup, "", "")), false;
      var to := RehashTo(scheme, c.st.params);
      if to.Some? {
        if w.salt.Some? {
          r := Passed(Pass(k.value.lookup, HashWith(scheme, k.value, w.salt.value, to.value), stored));
        }
      } else {
        plain := true;
      }
    }

    method Remember(k: ParsedKey, stored: string, now: Time)
      requires settings.Valid() && settings.Caching()
      requires cache.digest == digest && cache.ttl == settings.ttl && cache.size == settings.size
      requires CacheOk(scheme, settings, digest, cache.entries) && PassesPlainly(scheme, stored, k.secret)
      modifies cache
      ensures CacheOk(scheme, settings, digest, cache.entries)
      ensures Remembers(settings, old(cache.entries), k.lookup, Entry(stored, digest(k.secret), now + settings.ttl),
                        cache.entries)
    {
      ghost var before := cache.entries;
      cache.Put(k.lookup, stored, k.secret, now);
      FillingKeeps(scheme, settings, digest, before, k.lookup, stored, k.secret, now + cache.ttl, cache.entries);
    }
  }

  // ----- what a decision is ---------------------------------------------------------------------

  /** Exactly when a check is refused for its stored string, and exactly when for its key. */
  lemma RefusedIff(s: Scheme, key: string, found: Option<string>, salt: Option<seq<byte>>, reason: StoredError)
    ensures Decide(s, key, found, salt) == StoredRefused(reason) <==>
      ParseKey(s.name, key).Some? && found.Some? && DecodeStored(s, found.value) == Err(reason)
    ensures Decide(s, key, found, salt) == Invalid <==>
      || ParseKey(s.name, key).None? || found.None?
      || (DecodeStored(s, found.value).Ok? &&
          var k, st := ParseKey(s.name, key).value, DecodeStored(s, found.value).value;
          s.derive(k.secret, st.salt, st.params, |st.tag|) != st.tag)
  {
  }

  /** A pass names its key's lookup, and hands back a rehash if and only if the stored string is below
  the minted parameters in some field and a salt was read. The rehash decodes to the least parameters
  that are at least both, the salt and the same secret's derivation there, and names the string it
  replaces. */
  lemma {:induction false} RehashIff(s: Scheme, key: string, stored: string, salt: Option<seq<byte>>)
    requires Sound(s) && ParseKey(s.name, key).Some? && DecodeStored(s, stored).Ok?
    requires salt.Some? ==> |salt.value| == SALT_LEN
    requires var k, st := ParseKey(s.name, key).value, DecodeStored(s, stored).value;
      s.derive(k.secret, st.salt, st.params, |st.tag|) == st.tag
    ensures var k, st := ParseKey(s.name, key).value, DecodeStored(s, stored).value;
      var r := Decide(s, key, Some(stored), salt);
      && r.Passed? && r.pass.lookup == k.lookup
      && (r.pass.rehash != "" <==> salt.Some? && (|| st.params.memory < s.mint.memory
                                                  || st.params.iterations < s.mint.iterations
                                                  || st.params.parallelism < s.mint.parallelism))
      && (r.pass.rehash == "" ==> r.pass.replaced == "")
      && (r.pass.rehash != "" ==>
          && r.pass.replaced == stored && DecodeStored(s, r.pass.rehash).Ok?
          && var next := DecodeStored(s, r.pass.rehash).value;
             && IsJoin(st.params, s.mint, next.params) && next.salt == salt.value
             && next.tag == s.derive(k.secret, salt.value, next.params, TAG_LEN))
  {
    var k, st := ParseKey(s.name, key).value, DecodeStored(s, stored).value;
    EncodeOfDecode(s, stored);
    if salt.Some? {
      RehashConverges(s, st.params, k, salt.value);
    }
  }

  /** A minted key passes wherever its stored string is found, and asks for no rehash. */
  lemma MintedKeyPasses(s: Scheme, buf: seq<byte>, salt: Option<seq<byte>>)
    requires Sound(s) && |buf| == MINT_BYTES
    ensures var m := Mint(s, buf);
      Decide(s, m.key, Some(m.hash), salt) == Passed(Pass(m.lookup, "", ""))
  {
    MintedReads(s, buf);
  }

  /** A rehash handed back for a key passes for that same key, and asks for no further one. */
  lemma RehashedKeyPasses(s: Scheme, key: string, stored: string, salt: seq<byte>, later: Option<seq<byte>>)
    requires Sound(s) && |salt| == SALT_LEN
    ensures var r := Decide(s, key, Some(stored), Some(salt));
      r.Passed? && r.pass.rehash != "" ==>
        r.pass.replaced == stored && Decide(s, key, Some(r.pass.rehash), later) == Passed(Pass(r.pass.lookup, "", ""))
  {
    var r := Decide(s, key, Some(stored), Some(salt));
    if r.Passed? && r.pass.rehash != "" {
      EncodeOfDecode(s, stored);
      RehashConverges(s, DecodeStored(s, stored).value.params, ParseKey(s.name, key).value, salt);
    }
  }

  /** A check passes if and only if the key parses, its stored string decodes, and the secret derives
  to the stored tag: an unknown, revoked or malformed key never passes, whatever the dummy holds. */
  lemma PassesIff(s: Scheme, key: string, found: Option<string>, salt: Option<seq<byte>>)
    ensures Decide(s, key, found, salt).Passed? <==>
      && ParseKey(s.name, key).Some? && found.Some? && DecodeStored(s, found.value).Ok?
      && var k, st := ParseKey(s.name, key).value, DecodeStored(s, found.value).value;
         s.derive(k.secret, st.salt, st.params, |st.tag|) == st.tag
  {
  }
}
