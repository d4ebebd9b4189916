/** The JWKS cache of jwks/jwks.go: keys refreshed on a lifetime or an unknown kid, de-duplicated by
the cache's stamp and limited in attempts, under any interleaving of calls. */
module Jwks {
  import opened Wrappers
  import opened GoTime

  type PublicKey = string

  type Keys = map<string, PublicKey>

  datatype Jwk = Jwk(kid: string, key: PublicKey)

  datatype Config = Config(ttl: Duration, minInterval: Duration) {
    predicate Valid() {
      MIN_DURATION < ttl <= MAX_DURATION && MIN_DURATION < minInterval <= MAX_DURATION
    }
  }

  datatype Cache = Cache(keys: Keys, fetchedAt: Time, lastAttempt: Time)

  const EMPTY := Cache(map[], ZERO, ZERO)

  /** What asking the issuer comes to; a refused or unreadable answer is a failure. */
  datatype Fetch = Failed | Fetched(doc: seq<Jwk>)

  // ----- one client -----------------------------------------------------------------------------

  function KeysOf(doc: seq<Jwk>): Keys {
    if doc == [] then map[] else KeysOf(doc[..|doc| - 1])[doc[|doc| - 1].kid := doc[|doc| - 1].key]
  }

  /** A kid means its last entry in the document, and only kids of the document mean anything. */
  lemma {:induction false} LastEntryWins(doc: seq<Jwk>, kid: string)
    ensures kid in KeysOf(doc) <==> exists i :: 0 <= i < |doc| && doc[i].kid == kid
    ensures forall i :: 0 <= i < |doc| && doc[i].kid == kid && (forall j :: i < j < |doc| ==> doc[j].kid != kid) ==>
            kid in KeysOf(doc) && KeysOf(doc)[kid] == doc[i].key
  {
    if doc != [] {
      var n := |doc| - 1;
      LastEntryWins(doc[..n], kid);
      assert forall i :: 0 <= i < n ==> doc[..n][i] == doc[i];
      if doc[n].kid == kid {
        assert kid in KeysOf(doc);
      } else if kid in KeysOf(doc) {
        var i :| 0 <= i < n && doc[..n][i].kid == kid;
        assert doc[i].kid == kid;
      }
    }
  }

  function CachedAt(c: Config, s: Cache, kid: string, now: Time): Option<PublicKey> {
    if Sub(now, s.fetchedAt) > c.ttl then None
    else if kid in s.keys then Some(s.keys[kid])
    else None
  }

  predicate Deduplicated(s: Cache, seenAt: Time) {
    s.fetchedAt != seenAt
  }

  predicate Limited(c: Config, s: Cache, now: Time) {
    s.lastAttempt != ZERO && Sub(now, s.lastAttempt) < c.minInterval
  }

  predicate Attempts(c: Config, s: Cache, seenAt: Time, now: Time) {
    !Deduplicated(s, seenAt) && !Limited(c, s, now)
  }

  function RefreshedAt(c: Config, s: Cache, seenAt: Time, now: Time, fetch: Fetch, done: Time): Cache {
    if !Attempts(c, s, seenAt, now) then s
    else match fetch
      case Failed => s.(lastAttempt := now)
      case Fetched(doc) => Cache(KeysOf(doc), done, now)
  }

  datatype Answer = Found(key: PublicKey) | UnknownKey | FetchFailed

  class Client {
    const config: Config
    var keys: Keys
    var fetchedAt: Time
    var lastAttempt: Time

    constructor (config: Config)
      ensures this.config == config && Contents() == EMPTY
    {
      this.config := config;
      keys, fetchedAt, lastAttempt := map[], ZERO, ZERO;
    }

    ghost function Contents(): Cache
      reads this
    {
      Cache(keys, fetchedAt, lastAttempt)
    }

    method Cached(kid: string, now: Time) returns (r: Option<PublicKey>)
      ensures r == CachedAt(config, Contents(), kid, now)
    {
      if Sub(now, fetchedAt) > config.ttl {
        return None;
      }
      return if kid in keys then Some(keys[kid]) else None;
    }

    method Refresh(seenAt: Time, now: Time, fetch: Fetch, done: Time) returns (ok: bool)
      modifies this
      ensures Contents() == RefreshedAt(config, old(Contents()), seenAt, now, fetch, done)
      ensures !ok <==> Attempts(config, old(Contents()), seenAt, now) && fetch.Failed?
    {
      if fetchedAt != seenAt {
        return true;
      }
      if lastAttempt != ZERO && Sub(now, lastAttempt) < config.minInterval {
        return true;
      }
      lastAttempt := now;
      if fetch.Failed? {
        return false;
      }
      var doc := fetch.doc;
      var index: Keys := map[];
      for i := 0 to |doc|
        invariant index == KeysOf(doc[..i])
      {
        assert doc[..i + 1][..i] == doc[..i];
        index := index[doc[i].kid := doc[i].key];
      }
      assert doc[..|doc|] == doc;
      keys, fetchedAt := index, done;
      return true;
    }

    /** One call with the client to itself: an unknown or expired kid costs one refresh. */
    method Key(kid: string, first: Time, now: Time, fetch: Fetch, done: Time, second: Time) returns (r: Answer)
      modifies this
      ensures var before := old(Contents());
        var after := RefreshedAt(config, before, before.fetchedAt, now, fetch, done);
        if CachedAt(config, before, kid, first).Some? then
          r == Found(CachedAt(config, before, kid, first).value) && Contents() == before
        else
          && Contents() == after
          && r == if Attempts(config, before, before.fetchedAt, now) && fetch.Failed? then FetchFailed
                  else if CachedAt(config, after, kid, second).Some?
                       then Found(CachedAt(config, after, kid, second).value)
                  else UnknownKey
    {
      var k := Cached(kid, first);
      if k.Some? {
        return Found(k.value);
      }
      var seenAt := fetchedAt;
      var ok := Refresh(seenAt, now, fetch, done);
      if !ok {
        return FetchFailed;
      }
      k := Cached(kid, second);
      if k.Some? {
        return Found(k.value);
      }
      return UnknownKey;
    }
  }

  // ----- interleaved calls ----------------------------------------------------------------------

  /** Each phase ends in one critical section of the client's lock. */
  datatype Phase =
    | Started
    | Missed
    | Seen(stamp: Time)
    | Reread                               // refresh returned; the second read is next
    | Answered(answer: Answer, at: Time, attempts: nat)  // read at a time, after so many attempts

  datatype Call = Call(kid: string, began: Time, phase: Phase)

  datatype Attempt = Attempt(stamp: Time, fetch: Fetch, done: Time)

  /** The cache, every fetch attempt so far, the calls, and the latest clock reading. */
  datatype State = State(cache: Cache, attempts: seq<Attempt>, calls: map<nat, Call>, clock: Time)

  const START := State(EMPTY, [], map[], ZERO)

  datatype Step =
    | Begin(kid: string, now: Time)
    | FirstRead(now: Time)
    | SeeStamp
    | Refresh(now: Time, fetch: Fetch, done: Time)
    | SecondRead(now: Time)

  function Reading(c: Config, s: State, k: Call, now: Time, otherwise: Phase): Phase {
    match CachedAt(c, s.cache, k.kid, now)
    case Some(key) => Answered(Found(key), now, |s.attempts|)
    case None => otherwise
  }

  ghost predicate Next(c: Config, s: State, id: nat, a: Step, s': State) {
    match a
    case Begin(kid, now) =>
      && id !in s.calls && ZERO < now && s.clock <= now
      && s' == s.(calls := s.calls[id := Call(kid, now, Started)], clock := now)
    case FirstRead(now) =>
      && id in s.calls && s.calls[id].phase.Started? && ZERO < now && s.clock <= now
      && s' == s.(calls := s.calls[id := s.calls[id].(phase := Reading(c, s, s.calls[id], now, Missed))], clock := now)
    case SeeStamp =>
      && id in s.calls && s.calls[id].phase.Missed?
      && s' == s.(calls := s.calls[id := s.calls[id].(phase := Seen(s.cache.fetchedAt))])
    case Refresh(now, fetch, done) =>
      && id in s.calls && s.calls[id].phase.Seen? && ZERO < now && s.clock <= now <= done
      && s' == RefreshStep(c, s, id, now, fetch, done)
    case SecondRead(now) =>
      && id in s.calls && s.calls[id].phase.Reread? && ZERO < now && s.clock <= now
      && var miss := Answered(UnknownKey, now, |s.attempts|);
         s' == s.(calls := s.calls[id := s.calls[id].(phase := Reading(c, s, s.calls[id], now, miss))], clock := now)
  }

  function RefreshStep(c: Config, s: State, id: nat, now: Time, fetch: Fetch, done: Time): State
    requires id in s.calls && s.calls[id].phase.Seen?
  {
    var k := s.calls[id];
    var attempts := Attempts(c, s.cache, k.phase.stamp, now);
    State(RefreshedAt(c, s.cache, k.phase.stamp, now, fetch, done),
          if attempts then s.attempts + [Attempt(now, fetch, done)] else s.attempts,
          s.calls[id := k.(phase := if attempts && fetch.Failed? then Answered(FetchFailed, done, |s.attempts| + 1)
                                    else Reread)],
          done)
  }

  ghost predicate Run(c: Config, states: seq<State>) {
    && |states| >= 1 && states[0] == START
    && forall i :: 0 < i < |states| ==> Stepped(c, states, i)
  }

  ghost predicate Stepped(c: Config, states: seq<State>, i: nat)
    requires 0 < i < |states|
  {
    Follows(c, states[i - 1], states[i])
  }

  ghost predicate Follows(c: Config, s: State, s': State) {
    exists id, a :: Next(c, s, id, a, s')
  }

  /** The step that led to a state of the run. */
  lemma StepTo(c: Config, states: seq<State>, n: nat) returns (id: nat, a: Step)
    requires Run(c, states) && 0 < n < |states|
    ensures Next(c, states[n - 1], id, a, states[n])
  {
    assert Stepped(c, states, n);
    id, a :| Next(c, states[n - 1], id, a, states[n]);
  }

  // ----- what every interleaving keeps ----------------------------------------------------------

  /** The cache is what the latest successful attempt fetched, stamped when it was done. */
  function Latest(attempts: seq<Attempt>): Cache {
    if attempts == [] then EMPTY
    else
      var last, before := attempts[|attempts| - 1], Latest(attempts[..|attempts| - 1]);
      match last.fetch
      case Failed => before.(lastAttempt := last.stamp)
      case Fetched(doc) => Cache(KeysOf(doc), last.done, last.stamp)
  }

  ghost predicate Spaced(c: Config, attempts: seq<Attempt>) {
    forall i :: 0 <= i < |attempts| - 1 ==> attempts[i + 1].stamp - attempts[i].stamp >= c.minInterval
  }

  /** A key was handed out from the latest document at the time, no older than the lifetime. */
  ghost predicate FromLatest(c: Config, s: State, k: Call) {
    k.phase.Answered? ==>
      && k.phase.attempts <= |s.attempts|
      && (k.phase.answer.Found? ==>
          var latest := Latest(s.attempts[..k.phase.attempts]);
          && k.kid in latest.keys && latest.keys[k.kid] == k.phase.answer.key
          && Sub(k.phase.at, latest.fetchedAt) <= c.ttl)
  }

  ghost predicate Inv(c: Config, s: State) {
    && s.cache == Latest(s.attempts)
    && Spaced(c, s.attempts)
    && (forall i :: 0 <= i < |s.attempts| ==> ZERO < s.attempts[i].stamp <= s.clock)
    && (forall id :: id in s.calls ==> s.calls[id].began <= s.clock && FromLatest(c, s, s.calls[id]))
  }

  lemma StampIsLast(attempts: seq<Attempt>)
    ensures Latest(attempts).lastAttempt == if attempts == [] then ZERO else attempts[|attempts| - 1].stamp
  {
  }

  lemma RefreshKeeps(c: Config, s: State, id: nat, now: Time, fetch: Fetch, done: Time)
    requires c.Valid() && Inv(c, s) && id in s.calls && s.calls[id].phase.Seen? && ZERO < now && s.clock <= now <= done
    ensures Inv(c, RefreshStep(c, s, id, now, fetch, done))
  {
    var s' := RefreshStep(c, s, id, now, fetch, done);
    StampIsLast(s.attempts);
    SubCompares(now, s.cache.lastAttempt, c.minInterval);
    if Attempts(c, s.cache, s.calls[id].phase.stamp, now) {
      assert s'.attempts[..|s.attempts|] == s.attempts;
    }
    forall x | x in s'.calls ensures s'.calls[x].began <= s'.clock && FromLatest(c, s', s'.calls[x]) {
      if x != id && s.calls[x].phase.Answered? {
        assert FromLatest(c, s, s.calls[x]);
        assert s'.attempts[..s.calls[x].phase.attempts] == s.attempts[..s.calls[x].phase.attempts];
      }
    }
  }

  lemma ReadKeeps(c: Config, s: State, id: nat, k: Call, now: Time, otherwise: Phase)
    requires Inv(c, s) && s.clock <= now && k.began <= now
    requires otherwise.Answered? ==> otherwise.attempts <= |s.attempts| && !otherwise.answer.Found?
    ensures Inv(c, s.(calls := s.calls[id := k.(phase := Reading(c, s, k, now, otherwise))], clock := now))
  {
    assert s.attempts[..|s.attempts|] == s.attempts;
  }

  lemma NextKeeps(c: Config, s: State, id: nat, a: Step, s': State)
    requires c.Valid() && Inv(c, s) && Next(c, s, id, a, s')
    ensures Inv(c, s') && s.attempts <= s'.attempts && s.clock <= s'.clock
  {
    match a
    case FirstRead(now) => ReadKeeps(c, s, id, s.calls[id], now, Missed);
    case Refresh(now, fetch, done) => RefreshKeeps(c, s, id, now, fetch, done);
    case SecondRead(now) => ReadKeeps(c, s, id, s.calls[id], now, Answered(UnknownKey, now, |s.attempts|));
    case _ =>
  }

  lemma {:induction false} RunKeeps(c: Config, states: seq<State>, n: nat)
    requires c.Valid() && Run(c, states) && n < |states|
    ensures Inv(c, states[n])
  {
    if n > 0 {
      RunKeeps(c, states, n - 1);
      var id, a := StepTo(c, states, n);
      NextKeeps(c, states[n - 1], id, a, states[n]);
    }
  }

  lemma {:induction false} SpacedApart(c: Config, attempts: seq<Attempt>, i: nat, j: nat)
    requires Spaced(c, attempts) && i <= j < |attempts|
    ensures attempts[j].stamp - attempts[i].stamp >= (j - i) * c.minInterval
  {
    if i < j {
      SpacedApart(c, attempts, i, j - 1);
      assert attempts[j - 1 + 1].stamp - attempts[j - 1].stamp >= c.minInterval;
      assert (j - i) * c.minInterval == (j - 1 - i) * c.minInterval + c.minInterval;
    }
  }

  /** In every interleaving, failed fetches included, the i-th and the j-th attempt are stamped at
  least j - i intervals apart. */
  lemma AttemptsAreSpaced(c: Config, states: seq<State>, n: nat, i: nat, j: nat)
    requires c.Valid() && Run(c, states) && n < |states| && i <= j < |states[n].attempts|
    ensures states[n].attempts[j].stamp - states[n].attempts[i].stamp >= (j - i) * c.minInterval
  {
    RunKeeps(c, states, n);
    SpacedApart(c, states[n].attempts, i, j);
  }

  ghost predicate Maps(doc: seq<Jwk>, kid: string, key: PublicKey) {
    kid in KeysOf(doc) && KeysOf(doc)[kid] == key
  }

  /** The latest successful attempt, if there is a key at all. */
  lemma {:induction false} LatestIs(attempts: seq<Attempt>) returns (i: nat)
    requires Latest(attempts).keys != map[]
    ensures i < |attempts| && attempts[i].fetch.Fetched? && forall j :: i < j < |attempts| ==> attempts[j].fetch.Failed?
    ensures Latest(attempts).keys == KeysOf(attempts[i].fetch.doc) && Latest(attempts).fetchedAt == attempts[i].done
  {
    var n := |attempts| - 1;
    if attempts[n].fetch.Fetched? {
      i := n;
    } else {
      i := LatestIs(attempts[..n]);
    }
  }

  /** In every interleaving, a key handed out was mapped to its kid by the document of a successful
  attempt, every attempt between it and the answer failed, and the document was fetched no more than
  the lifetime before it was read. */
  lemma {:induction false} KeysAreFresh(c: Config, states: seq<State>, n: nat, id: nat) returns (i: nat)
    requires c.Valid() && Run(c, states) && n < |states| && id in states[n].calls
    requires states[n].calls[id].phase.Answered? && states[n].calls[id].phase.answer.Found?
    ensures var k, attempts := states[n].calls[id], states[n].attempts;
      && i < k.phase.attempts <= |attempts| && attempts[i].fetch.Fetched?
      && Maps(attempts[i].fetch.doc, k.kid, k.phase.answer.key)
      && (forall j :: i < j < k.phase.attempts ==> attempts[j].fetch.Failed?)
      && Sub(k.phase.at, attempts[i].done) <= c.ttl
  {
    RunKeeps(c, states, n);
    var k, attempts := states[n].calls[id], states[n].attempts;
    assert FromLatest(c, states[n], k);
    i := LatestIs(attempts[..k.phase.attempts]);
    assert forall j :: 0 <= j < k.phase.attempts ==> attempts[..k.phase.attempts][j] == attempts[j];
  }

  /** A failed attempt changes no read of the cache, at any time. */
  lemma FailureKeepsKeys(c: Config, s: Cache, seenAt: Time, now: Time, done: Time, kid: string, t: Time)
    ensures CachedAt(c, RefreshedAt(c, s, seenAt, now, Failed, done), kid, t) == CachedAt(c, s, kid, t)
  {
  }

  /** Exactly when a refresh makes an attempt: the document is still the one its call missed on, and no
  attempt was stamped within the interval. */
  lemma AttemptIff(c: Config, s: State, id: nat, now: Time, fetch: Fetch, done: Time)
    requires c.Valid() && Inv(c, s) && id in s.calls && s.calls[id].phase.Seen?
    ensures RefreshStep(c, s, id, now, fetch, done).attempts ==
      if s.calls[id].phase.stamp == s.cache.fetchedAt
         && (s.attempts == [] || now - s.attempts[|s.attempts| - 1].stamp >= c.minInterval)
      then s.attempts + [Attempt(now, fetch, done)] else s.attempts
  {
    StampIsLast(s.attempts);
    SubCompares(now, s.cache.lastAttempt, c.minInterval);
  }

  // ----- a rotation is picked up ----------------------------------------------------------------

  /** Every attempt from the first-th on succeeded with a document that maps the kid to the key, and
  the document is still within its lifetime at the clock. */
  ghost predicate Publishes(c: Config, s: State, first: nat, kid: string, key: PublicKey) {
    forall i :: first <= i < |s.attempts| ==>
      && s.attempts[i].fetch.Fetched? && Maps(s.attempts[i].fetch.doc, kid, key)
      && s.clock - s.attempts[i].done <= c.ttl
  }

  ghost predicate Quiet(c: Config, s: State, began: Time) {
    s.attempts == [] || began - s.attempts[|s.attempts| - 1].stamp >= c.minInterval
  }

  /** Where the call is, once it has begun in the quiet state s0. */
  ghost predicate OnTheWay(c: Config, s0: State, s: State, k: Call, key: PublicKey) {
    && s0.attempts <= s.attempts && k.began <= s.clock
    && match k.phase
       case Started => true
       case Missed => true
       case Seen(stamp) => s.attempts == s0.attempts ==> stamp == s0.cache.fetchedAt
       case Reread => |s.attempts| > |s0.attempts|
       case Answered(answer, _, attempts) =>
         || answer == Found(key)
         || (attempts == |s0.attempts| && k.kid in s0.cache.keys && answer == Found(s0.cache.keys[k.kid]))
  }

  /** A read finds the key once a document that has it is the latest. */
  lemma ReadFinds(c: Config, s: State, k: Call, first: nat, key: PublicKey, now: Time, otherwise: Phase)
    requires c.Valid() && Inv(c, s) && |s.attempts| > first
    requires Publishes(c, s.(clock := now), first, k.kid, key)
    ensures Reading(c, s, k, now, otherwise) == Answered(Found(key), now, |s.attempts|)
  {
    var last := s.attempts[|s.attempts| - 1];
    assert last.fetch.Fetched?;
  }

  /** A read after a new document finds the key; one before it finds at most what was cached. */
  lemma ReadPicksUp(c: Config, s0: State, s: State, k: Call, key: PublicKey, now: Time, otherwise: Phase)
    requires c.Valid() && Inv(c, s0) && Inv(c, s) && s0.attempts <= s.attempts && s.clock <= now
    requires Publishes(c, s.(clock := now), |s0.attempts|, k.kid, key)
    ensures |s.attempts| > |s0.attempts| ==> Reading(c, s, k, now, otherwise) == Answered(Found(key), now, |s.attempts|)
    ensures s.attempts == s0.attempts ==>
      var phase := Reading(c, s, k, now, otherwise);
      phase == otherwise ||
      (k.kid in s0.cache.keys && phase == Answered(Found(s0.cache.keys[k.kid]), now, |s0.attempts|))
  {
    if |s.attempts| > |s0.attempts| {
      ReadFinds(c, s, k, |s0.attempts|, key, now, otherwise);
    }
  }

  lemma RefreshPicksUp(c: Config, s0: State, s: State, k: Call, now: Time)
    requires c.Valid() && Inv(c, s0) && s.cache == s0.cache && s.attempts == s0.attempts
    requires Quiet(c, s0, k.began) && k.began <= now && k.phase == Seen(s0.cache.fetchedAt)
    ensures Attempts(c, s.cache, k.phase.stamp, now)
  {
    StampIsLast(s0.attempts);
    SubCompares(now, s0.cache.lastAttempt, c.minInterval);
  }

  lemma RefreshOnTheWay(c: Config, s0: State, s: State, id: nat, now: Time, fetch: Fetch, done: Time, key: PublicKey)
    requires c.Valid() && Inv(c, s0) && Inv(c, s) && id in s.calls && s.calls[id].phase.Seen? && s.clock <= now <= done
    requires Quiet(c, s0, s.calls[id].began) && OnTheWay(c, s0, s, s.calls[id], key)
    requires Publishes(c, RefreshStep(c, s, id, now, fetch, done), |s0.attempts|, s.calls[id].kid, key)
    ensures var s' := RefreshStep(c, s, id, now, fetch, done); OnTheWay(c, s0, s', s'.calls[id], key)
  {
    var s' := RefreshStep(c, s, id, now, fetch, done);
    if s.attempts == s0.attempts {
      RefreshPicksUp(c, s0, s, s.calls[id], now);
    }
    if Attempts(c, s.cache, s.calls[id].phase.stamp, now) {
      assert s'.attempts[|s.attempts|] == Attempt(now, fetch, done);
    }
  }

  lemma OnTheWayStep(c: Config, s0: State, s: State, id: nat, x: nat, a: Step, s': State, key: PublicKey)
    requires c.Valid() && Inv(c, s0) && Inv(c, s) && Next(c, s, x, a, s')
    requires id in s.calls && s.attempts <= s'.attempts && s.clock <= s'.clock
    requires Quiet(c, s0, s.calls[id].began) && OnTheWay(c, s0, s, s.calls[id], key)
    requires Publishes(c, s', |s0.attempts|, s.calls[id].kid, key)
    ensures id in s'.calls && OnTheWay(c, s0, s', s'.calls[id], key)
  {
    var k := s.calls[id];
    if x == id {
      match a
      case FirstRead(now) => ReadPicksUp(c, s0, s, k, key, now, Missed);
      case SecondRead(now) => ReadPicksUp(c, s0, s, k, key, now, Answered(UnknownKey, now, |s.attempts|));
      case Refresh(now, fetch, done) => RefreshOnTheWay(c, s0, s, id, now, fetch, done, key);
      case _ =>
    }
  }

  /** Calls are never forgotten, nor what they asked and when. */
  ghost predicate Carries(s: State, s': State) {
    && s.attempts <= s'.attempts && s.clock <= s'.clock
    && forall id :: id in s.calls ==>
         id in s'.calls && s'.calls[id].kid == s.calls[id].kid && s'.calls[id].began == s.calls[id].began
  }

  lemma NextCarries(c: Config, s: State, x: nat, a: Step, s': State)
    requires c.Valid() && Inv(c, s) && Next(c, s, x, a, s')
    ensures Carries(s, s')
  {
  }

  lemma {:induction false} RunCarries(c: Config, states: seq<State>, m: nat, n: nat)
    requires c.Valid() && Run(c, states) && m <= n < |states|
    ensures Carries(states[m], states[n])
  {
    if m < n {
      RunCarries(c, states, m, n - 1);
      RunKeeps(c, states, n - 1);
      var x, a := StepTo(c, states, n);
      NextCarries(c, states[n - 1], x, a, states[n]);
      CarriesOn(states[m], states[n - 1], states[n]);
    }
  }

  lemma CarriesOn(r: State, s: State, t: State)
    requires Carries(r, s) && Carries(s, t)
    ensures Carries(r, t)
  {
    assert r.attempts == s.attempts[..|r.attempts|] && s.attempts == t.attempts[..|s.attempts|];
    assert t.attempts[..|s.attempts|][..|r.attempts|] == t.attempts[..|r.attempts|];
  }

  lemma PublishedBefore(c: Config, s: State, s': State, first: nat, kid: string, key: PublicKey)
    requires s.attempts <= s'.attempts && s.clock <= s'.clock && Publishes(c, s', first, kid, key)
    ensures Publishes(c, s, first, kid, key)
  {
    forall i | first <= i < |s.attempts| ensures s.attempts[i] == s'.attempts[i] {
    }
  }

  lemma {:induction false} StaysOnTheWay(c: Config, states: seq<State>, b: nat, n: nat, m: nat, id: nat, key: PublicKey)
    requires c.Valid() && Run(c, states) && b <= m <= n < |states|
    requires id in states[b].calls && states[b].calls[id].phase.Started?
    requires Quiet(c, states[b], states[b].calls[id].began)
    requires Publishes(c, states[n], |states[b].attempts|, states[b].calls[id].kid, key)
    ensures id in states[m].calls && OnTheWay(c, states[b], states[m], states[m].calls[id], key)
  {
    if b == m {
      RunKeeps(c, states, b);
    } else {
      StaysOnTheWay(c, states, b, n, m - 1, id, key);
      var first, k := |states[b].attempts|, states[b].calls[id];
      assert states[m - 1].calls[id].kid == k.kid && states[m - 1].calls[id].began == k.began by {
        RunCarries(c, states, b, m - 1);
      }
      assert Publishes(c, states[m], first, k.kid, key) by {
        RunCarries(c, states, m, n);
        PublishedBefore(c, states[m], states[n], first, k.kid, key);
      }
      assert Inv(c, states[b]) && Inv(c, states[m - 1]) by {
        RunKeeps(c, states, b);
        RunKeeps(c, states, m - 1);
      }
      var x, a := StepTo(c, states, m);
      NextKeeps(c, states[m - 1], x, a, states[m]);
      OnTheWayStep(c, states[b], states[m - 1], id, x, a, states[m], key);
    }
  }

  /** Rotation pickup: a call that began with no attempt stamped in the interval before it, while every
  fetch since succeeds with a document that has the kid and does not lapse, answers with that key,
  whether it fetched, found the stamp moved or was limited; unless its first read already found what
  was cached when it began. It never reports the key unknown. */
  lemma RotationIsPickedUp(c: Config, states: seq<State>, b: nat, n: nat, id: nat, key: PublicKey)
    requires c.Valid() && Run(c, states) && b <= n < |states|
    requires id in states[b].calls && states[b].calls[id].phase.Started?
    requires Quiet(c, states[b], states[b].calls[id].began)
    requires Publishes(c, states[n], |states[b].attempts|, states[b].calls[id].kid, key)
    requires id in states[n].calls && states[n].calls[id].phase.Answered?
    ensures var answer, cached := states[n].calls[id].phase.answer, states[b].cache.keys;
      answer == Found(key) || (states[b].calls[id].kid in cached && answer == Found(cached[states[b].calls[id].kid]))
  {
    RunCarries(c, states, b, n);
    StaysOnTheWay(c, states, b, n, n, id, key);
  }

  // ----- whatever other kids do -----------------------------------------------------------------

  /** Every attempt stamped from a time on succeeded with a document that maps the kid to the key, and
  the document is still within its lifetime at the clock. */
  ghost predicate PublishesSince(c: Config, s: State, published: Time, kid: string, key: PublicKey) {
    forall i :: 0 <= i < |s.attempts| && s.attempts[i].stamp >= published ==>
      && s.attempts[i].fetch.Fetched? && Maps(s.attempts[i].fetch.doc, kid, key)
      && s.clock - s.attempts[i].done <= c.ttl
  }

  lemma NextStamps(c: Config, s: State, x: nat, a: Step, s': State)
    requires Next(c, s, x, a, s')
    ensures forall i :: |s.attempts| <= i < |s'.attempts| ==> s'.attempts[i].stamp >= s.clock
  {
  }

  /** What is attempted after a state is stamped no earlier than its clock. */
  lemma {:induction false} StampedLater(c: Config, states: seq<State>, b: nat, n: nat)
    requires c.Valid() && Run(c, states) && b <= n < |states|
    ensures forall i :: |states[b].attempts| <= i < |states[n].attempts| ==>
              states[n].attempts[i].stamp >= states[b].clock
  {
    if b < n {
      StampedLater(c, states, b, n - 1);
      RunCarries(c, states, b, n - 1);
      RunCarries(c, states, n - 1, n);
      var x, a := StepTo(c, states, n);
      NextStamps(c, states[n - 1], x, a, states[n]);
      forall i | |states[b].attempts| <= i < |states[n - 1].attempts|
        ensures states[n].attempts[i] == states[n - 1].attempts[i]
      {
      }
    }
  }

  /** A call that begins once a document with its kid is the latest finds the key at its first read. */
  lemma {:induction false} StaysFound(c: Config, states: seq<State>, b: nat, n: nat, m: nat, id: nat, first: nat,
    key: PublicKey)
    requires c.Valid() && Run(c, states) && b <= m <= n < |states|
    requires id in states[b].calls && states[b].calls[id].phase.Started? && first < |states[b].attempts|
    requires Publishes(c, states[n], first, states[b].calls[id].kid, key)
    ensures id in states[m].calls
    ensures var phase := states[m].calls[id].phase; phase.Started? || (phase.Answered? && phase.answer == Found(key))
  {
    if b < m {
      StaysFound(c, states, b, n, m - 1, id, first, key);
      var s, s', k := states[m - 1], states[m], states[b].calls[id];
      assert |s.attempts| > first && s.calls[id].kid == k.kid by {
        RunCarries(c, states, b, m - 1);
      }
      assert Publishes(c, s', first, k.kid, key) by {
        RunCarries(c, states, m, n);
        PublishedBefore(c, s', states[n], first, k.kid, key);
      }
      RunKeeps(c, states, m - 1);
      var x, a := StepTo(c, states, m);
      if x == id && a.FirstRead? {
        ReadFinds(c, s, s.calls[id], first, key, a.now, Missed);
      }
    }
  }

  /** Rotation within the interval, whatever calls for other kids do: if every attempt stamped since a
  time fetched the kid and has not lapsed, a call for it that began at least one interval after that
  time answers with the key, or with what was cached when it began. */
  lemma {:induction false} RotationWithinInterval(c: Config, states: seq<State>, b: nat, n: nat, id: nat,
    published: Time, key: PublicKey)
    requires c.Valid() && Run(c, states) && b <= n < |states|
    requires id in states[b].calls && states[b].calls[id].phase.Started?
    requires states[b].calls[id].began >= published && states[b].calls[id].began >= published + c.minInterval
    requires PublishesSince(c, states[n], published, states[b].calls[id].kid, key)
    requires id in states[n].calls && states[n].calls[id].phase.Answered?
    ensures var answer, cached := states[n].calls[id].phase.answer, states[b].cache.keys;
      answer == Found(key) || (states[b].calls[id].kid in cached && answer == Found(cached[states[b].calls[id].kid]))
  {
    var s, k, first := states[b], states[b].calls[id], |states[b].attempts|;
    RunKeeps(c, states, b);
    RunCarries(c, states, b, n);
    StampedLater(c, states, b, n);
    assert Publishes(c, states[n], first, k.kid, key);
    if first > 0 && s.attempts[first - 1].stamp >= published {
      assert states[n].attempts[first - 1] == s.attempts[first - 1];
      assert Publishes(c, states[n], first - 1, k.kid, key);
      StaysFound(c, states, b, n, n, id, first - 1, key);
    } else {
      RotationIsPickedUp(c, states, b, n, id, key);
    }
  }
}
