/** Any number of API-key checks at once over one verifier of apikeys/verify.go: the success cache
and the derive slots are shared, and every step another check could see is a step of its own. */
module Checks {
  import opened Wrappers
  import opened GoTime
  import opened Text
  import opened ApiKeys
  import opened Verifier

  datatype Setup = Setup(scheme: Scheme, settings: Settings, digest: string -> Digest) {
    ghost predicate Valid() {
      Sound(scheme) && settings.Valid() && Injective(digest)
    }
  }

  /** Where a check that passed its limit is. A slot is held from Holding to Leaving. */
  datatype Phase =
    | Asking                    // the key's lookup is with the store
    | Probing                   // the lookup answered; the cache is next
    | Reading(entry: Entry)     // the cache's entry is copied out; the clock is next
    | Waiting                   // a slot is next
    | Holding                   // a slot is held; the derive is next
    | Derived(matched: bool)
    | Rehashing(to: Params)     // passed below the minted parameters; the rehash's own derive is next
    | Filling(at: Time)         // passed; the cache's clock is read, the entry not yet put
    | Leaving(outcome: Outcome) // answered; the slot is not yet given back
    | Done(final: Outcome)

  /** One check: what it was asked, what the store and the randomness gave it, the cache's clock when the
  cache answered it and when it filled the cache, and the parameters of the derives it paid. */
  datatype Check = Check(key: string, found: Option<string>, salt: Option<seq<byte>>, hitAt: Option<Time>,
                         filledAt: Option<Time>, phase: Phase, paid: seq<Params>) {
    predicate Hit() {
      hitAt.Some?
    }

    predicate Holds() {
      phase.Holding? || phase.Derived? || phase.Rehashing? || phase.Filling? || phase.Leaving?
    }
  }

  datatype State = State(entries: map<string, Entry>, slots: nat, checks: map<nat, Check>)

  const START := State(map[], 0, map[])

  datatype Step =
    | Begin(key: string)
    | LookupFails
    | LookupAnswers(found: Option<string>)
    | Probe
    | ReadClock(now: Time)
    | TakeSlot
    | Cancel
    | Derive
    | Decides(salt: Option<seq<byte>>, now: Time)
    | Rehash
    | Fill(left: map<string, Entry>)
    | GiveBack

  function Known(c: Setup, k: Check): bool {
    CaseOf(c.scheme, k.key, k.found).known
  }

  function PlainOf(c: Setup, k: Check): Outcome
    requires ParseKey(c.scheme.name, k.key).Some?
  {
    Passed(Pass(ParseKey(c.scheme.name, k.key).value.lookup, "", ""))
  }

  lemma KnownParses(c: Setup, k: Check)
    requires Known(c, k)
    ensures ParseKey(c.scheme.name, k.key).Some? && k.found.Some? && DecodeStored(c.scheme, k.found.value).Ok?
  {
  }

  /** Where a check goes once the cache's entry, if any, is in its hands. */
  function Probed(c: Setup, entries: map<string, Entry>, k: Check): Phase {
    if Known(c, k) && c.settings.Caching() && ParseKey(c.scheme.name, k.key).Some? &&
       ParseKey(c.scheme.name, k.key).value.lookup in entries
    then Reading(entries[ParseKey(c.scheme.name, k.key).value.lookup])
    else Waiting
  }

  predicate ReadHits(c: Setup, k: Check, e: Entry, now: Time)
    requires ParseKey(c.scheme.name, k.key).Some? && k.found.Some?
  {
    Answers(e, k.found.value, c.digest(ParseKey(c.scheme.name, k.key).value.secret), now)
  }

  /** After the derive: a pass below the minted parameters derives its rehash if it has a salt, a pass
  at them fills the cache, anything else leaves. */
  function Settled(c: Setup, k: Check, matched: bool, salt: Option<seq<byte>>, now: Time): Phase {
    var s, subject := c.scheme, CaseOf(c.scheme, k.key, k.found);
    if subject.refused.Some? then Leaving(StoredRefused(subject.refused.value))
    else if !subject.known || !matched then Leaving(Invalid)
    else
      var to := RehashTo(s, subject.st.params);
      if to.Some? && salt.Some? then Rehashing(to.value)
      else if to.None? && c.settings.Caching() then Filling(now)
      else Leaving(Decide(s, k.key, k.found, salt))
  }

  /** A check as the limiter admitted it: a key that does not parse is not looked up. */
  function Begun(c: Setup, key: string): Check {
    Check(key, None, None, None, None, if ParseKey(c.scheme.name, key).Some? then Asking else Probing, [])
  }

  ghost predicate Next(c: Setup, s: State, id: nat, a: Step, s': State) {
    if a.Begin? then
      id !in s.checks && s' == s.(checks := s.checks[id := Begun(c, a.key)])
    else
      && id in s.checks && id in s'.checks && s'.checks == s.checks[id := s'.checks[id]]
      && Moves(c, s, s.checks[id], a, s'.entries, s'.slots, s'.checks[id])
  }

  /** One step of the check k, leaving it as k'. */
  ghost predicate Moves(c: Setup, s: State, k: Check, a: Step, entries: map<string, Entry>, slots: nat, k': Check) {
    match a
    case Begin(_) => false
    case LookupFails => k.phase.Asking? && Same(s, entries, slots) && k' == k.(phase := Done(Unavailable))
    case LookupAnswers(found) =>
      k.phase.Asking? && Same(s, entries, slots) && k' == k.(phase := Probing, found := found)
    case Probe => k.phase.Probing? && Same(s, entries, slots) && k' == k.(phase := Probed(c, s.entries, k))
    case ReadClock(now) =>
      && k.phase.Reading? && Same(s, entries, slots)
      && ParseKey(c.scheme.name, k.key).Some? && k.found.Some?
      && k' == if ReadHits(c, k, k.phase.entry, now) then k.(phase := Done(PlainOf(c, k)), hitAt := Some(now))
               else k.(phase := Waiting)
    case TakeSlot =>
      && k.phase.Waiting? && entries == s.entries
      && (if s.slots < c.settings.maxDerives then slots == s.slots + 1 && k' == k.(phase := Holding)
          else slots == s.slots && k' == k.(phase := Done(Busy(c.settings.busyAfter))))
    case Cancel => k.phase.Holding? && Same(s, entries, slots) && k' == k.(phase := Leaving(Cancelled))
    case Derive =>
      var subject := CaseOf(c.scheme, k.key, k.found);
      && k.phase.Holding? && Same(s, entries, slots)
      && k' == k.(phase := Derived(Matches(c.scheme, subject)), paid := k.paid + [subject.st.params])
    case Decides(salt, now) =>
      && k.phase.Derived? && Same(s, entries, slots)
      && k' == k.(phase := Settled(c, k, k.phase.matched, salt, now), salt := salt)
    case Rehash =>
      && k.phase.Rehashing? && Same(s, entries, slots)
      && k' == k.(phase := Leaving(Decide(c.scheme, k.key, k.found, k.salt)), paid := k.paid + [k.phase.to])
    case Fill(left) =>
      && k.phase.Filling? && slots == s.slots && entries == left
      && ParseKey(c.scheme.name, k.key).Some? && k.found.Some?
      && FillLeaves(c, s.entries, k, left)
      && k' == k.(phase := Leaving(PlainOf(c, k)), filledAt := Some(k.phase.at))
    case GiveBack =>
      && k.phase.Leaving? && entries == s.entries && slots == s.slots - 1
      && k' == k.(phase := Done(k.phase.outcome))
  }

  ghost predicate FillLeaves(c: Setup, entries: map<string, Entry>, k: Check, left: map<string, Entry>)
    requires k.phase.Filling? && ParseKey(c.scheme.name, k.key).Some? && k.found.Some?
  {
    var p := ParseKey(c.scheme.name, k.key).value;
    PutLeaves(entries, p.lookup, Entry(k.found.value, c.digest(p.secret), k.phase.at + c.settings.ttl),
      k.phase.at, c.settings.size, left)
  }

  ghost predicate Same(s: State, entries: map<string, Entry>, slots: nat) {
    entries == s.entries && slots == s.slots
  }

  // ----- what every interleaving keeps ----------------------------------------------------------

  /** The stored string is at the minted parameters in every field. */
  ghost predicate NeedsNoRehash(c: Setup, k: Check) {
    RehashTo(c.scheme, CaseOf(c.scheme, k.key, k.found).st.params).None?
  }

  /** What the derive that decides a check runs at. */
  function Charge(c: Setup, k: Check): Params {
    CaseOf(c.scheme, k.key, k.found).st.params
  }

  /** What a check that passed paid: nothing from the cache, two derives when it made its rehash. */
  ghost function PassCost(c: Setup, k: Check): seq<Params> {
    if k.Hit() then []
    else if !NeedsNoRehash(c, k) && k.salt.Some? then [Charge(c, k), Higher(Charge(c, k), c.scheme.mint)]
    else [Charge(c, k)]
  }

  /** What a final answer means for the check that got it. */
  ghost predicate Fair(c: Setup, k: Check, o: Outcome) {
    match o
    case Invalid => k.paid == [Charge(c, k)] && o == Decide(c.scheme, k.key, k.found, k.salt)
    case StoredRefused(_) => k.paid == [Charge(c, k)] && o == Decide(c.scheme, k.key, k.found, k.salt)
    case Passed(_) =>
      && o == Decide(c.scheme, k.key, k.found, k.salt)
      && k.paid == PassCost(c, k) && (k.Hit() ==> NeedsNoRehash(c, k))
    case Busy(retry) => k.paid == [] && retry == c.settings.busyAfter
    case Cancelled => k.paid == []
    case Unavailable => k.paid == []
    case NoCaller => false
    case Limited(_) => false
  }

  ghost predicate CheckOk(c: Setup, k: Check) {
    match k.phase
    case Asking => k.paid == [] && !k.Hit()
    case Probing => k.paid == [] && !k.Hit()
    case Reading(e) => k.paid == [] && !k.Hit() && Known(c, k) && Earned(c.scheme, c.digest, e)
    case Waiting => k.paid == [] && !k.Hit()
    case Holding => k.paid == [] && !k.Hit()
    case Derived(matched) =>
      k.paid == [Charge(c, k)] && !k.Hit() && matched == Matches(c.scheme, CaseOf(c.scheme, k.key, k.found))
    case Rehashing(to) => k.paid == [Charge(c, k)] && !k.Hit() && k.salt.Some? && PassesBelow(c, k, to)
    case Filling(_) => k.paid == [Charge(c, k)] && !k.Hit() && PlainlyPasses(c, k)
    case Leaving(o) => Fair(c, k, o)
    case Done(o) => Fair(c, k, o)
  }

  ghost predicate PassesBelow(c: Setup, k: Check, to: Params) {
    var subject := CaseOf(c.scheme, k.key, k.found);
    subject.known && Matches(c.scheme, subject) && RehashTo(c.scheme, subject.st.params) == Some(to)
  }

  ghost predicate PlainlyPasses(c: Setup, k: Check) {
    var subject := CaseOf(c.scheme, k.key, k.found);
    && subject.known && Matches(c.scheme, subject)
    && RehashTo(c.scheme, subject.st.params).None? && c.settings.Caching()
  }

  function Holders(s: State): set<nat> {
    set id | id in s.checks && s.checks[id].Holds()
  }

  ghost predicate PaidInBounds(c: Setup, k: Check) {
    forall i :: 0 <= i < |k.paid| ==> InBounds(c.scheme, k.paid[i])
  }

  ghost predicate Inv(c: Setup, s: State) {
    && CacheOk(c.scheme, c.settings, c.digest, s.entries)
    && s.slots == |Holders(s)| && s.slots <= c.settings.maxDerives
    && (forall id :: id in s.checks ==> CheckOk(c, s.checks[id]) && PaidInBounds(c, s.checks[id]))
  }

  lemma ProbeOk(c: Setup, entries: map<string, Entry>, k: Check)
    requires AllEarned(c.scheme, c.digest, entries) && k.paid == [] && !k.Hit()
    ensures CheckOk(c, k.(phase := Probed(c, entries, k)))
  {
  }

  lemma ReadOk(c: Setup, k: Check, now: Time)
    requires c.Valid() && k.phase.Reading? && CheckOk(c, k) && ParseKey(c.scheme.name, k.key).Some? && k.found.Some?
    ensures ReadHits(c, k, k.phase.entry, now) ==> CheckOk(c, k.(phase := Done(PlainOf(c, k)), hitAt := Some(now)))
  {
    if ReadHits(c, k, k.phase.entry, now) {
      HitAgrees(c.scheme, c.digest, k.phase.entry, k.key, k.found.value, now, k.salt);
    }
  }

  /** No derive runs outside the scheme's bounds: a stored hash was decoded within them, and the dummy
  is at the minted parameters. */
  lemma CostInBounds(c: Setup, k: Check)
    requires c.Valid()
    ensures InBounds(c.scheme, CaseOf(c.scheme, k.key, k.found).st.params)
  {
    if Known(c, k) {
      KnownParses(c, k);
      EncodeOfDecode(c.scheme, k.found.value);
    }
  }

  /** The rehash derives at the join of the stored and the minted parameters, which is in bounds too. */
  lemma RehashInBounds(c: Setup, k: Check, to: Params)
    requires c.Valid() && PassesBelow(c, k, to)
    ensures InBounds(c.scheme, to)
  {
    CostInBounds(c, k);
  }

  lemma DeriveOk(c: Setup, k: Check)
    requires k.phase.Holding? && CheckOk(c, k)
    ensures var subject := CaseOf(c.scheme, k.key, k.found);
      CheckOk(c, k.(phase := Derived(Matches(c.scheme, subject)), paid := k.paid + [subject.st.params]))
  {
    assert k.paid + [Charge(c, k)] == [Charge(c, k)];
  }

  lemma RehashOk(c: Setup, k: Check)
    requires k.phase.Rehashing? && CheckOk(c, k)
    ensures CheckOk(c, k.(phase := Leaving(Decide(c.scheme, k.key, k.found, k.salt)), paid := k.paid + [k.phase.to]))
  {
    assert Decide(c.scheme, k.key, k.found, k.salt).Passed?;
  }

  lemma LeaveOk(c: Setup, k: Check)
    requires k.phase.Leaving? && CheckOk(c, k)
    ensures CheckOk(c, k.(phase := Done(k.phase.outcome)))
  {
  }

  lemma SettledOk(c: Setup, k: Check, salt: Option<seq<byte>>, now: Time)
    requires k.phase.Derived? && CheckOk(c, k)
    ensures var phase := Settled(c, k, k.phase.matched, salt, now);
      CheckOk(c, k.(phase := phase, salt := salt)) && (phase.Rehashing? || phase.Filling? || phase.Leaving?)
  {
    var subject := CaseOf(c.scheme, k.key, k.found);
    if !subject.refused.Some? && subject.known && k.phase.matched {
      assert Decide(c.scheme, k.key, k.found, salt).Passed?;
    }
  }

  lemma FilledOk(c: Setup, k: Check)
    requires k.phase.Filling? && CheckOk(c, k) && ParseKey(c.scheme.name, k.key).Some? && k.found.Some?
    ensures CheckOk(c, k.(phase := Leaving(PlainOf(c, k)), filledAt := Some(k.phase.at))) && FilledPasses(c, k)
  {
    PlainPass(c.scheme, k.key, k.found.value, k.salt);
  }

  lemma FillOk(c: Setup, entries: map<string, Entry>, k: Check, left: map<string, Entry>)
    requires c.settings.Valid() && c.settings.Caching() && CacheOk(c.scheme, c.settings, c.digest, entries)
    requires k.phase.Filling? && ParseKey(c.scheme.name, k.key).Some? && k.found.Some?
    requires FilledPasses(c, k)
    ensures FillLeaves(c, entries, k, left) ==> CacheOk(c.scheme, c.settings, c.digest, left)
  {
    var p := ParseKey(c.scheme.name, k.key).value;
    var e := Entry(k.found.value, c.digest(p.secret), k.phase.at + c.settings.ttl);
    PutIsNewOrOld(entries, p.lookup, e, k.phase.at, c.settings.size, left);
    if FillLeaves(c, entries, k, left) {
      FillingKeeps(c.scheme, c.settings, c.digest, entries, p.lookup, k.found.value, p.secret, e.expires, left);
    }
  }

  ghost predicate FilledPasses(c: Setup, k: Check)
    requires ParseKey(c.scheme.name, k.key).Some? && k.found.Some?
  {
    PassesPlainly(c.scheme, k.found.value, ParseKey(c.scheme.name, k.key).value.secret)
  }

  /** Every step keeps its own check honest. */
  lemma MoveOk(c: Setup, s: State, k: Check, a: Step, entries: map<string, Entry>, slots: nat, k': Check)
    requires c.Valid() && AllEarned(c.scheme, c.digest, s.entries)
    requires CheckOk(c, k) && Moves(c, s, k, a, entries, slots, k')
    ensures CheckOk(c, k')
  {
    match a
    case Probe => ProbeOk(c, s.entries, k);
    case ReadClock(now) => ReadOk(c, k, now);
    case Derive => DeriveOk(c, k);
    case Decides(salt, now) => SettledOk(c, k, salt, now);
    case Rehash => RehashOk(c, k);
    case Fill(_) => FilledOk(c, k);
    case GiveBack => LeaveOk(c, k);
    case _ =>
  }

  /** No step puts into the cache what was not earned, or more than fits. */
  lemma MoveKeepsCache(c: Setup, s: State, k: Check, a: Step, entries: map<string, Entry>, slots: nat, k': Check)
    requires c.Valid() && CacheOk(c.scheme, c.settings, c.digest, s.entries)
    requires CheckOk(c, k) && Moves(c, s, k, a, entries, slots, k')
    ensures CacheOk(c.scheme, c.settings, c.digest, entries)
  {
    if a.Fill? {
      FilledOk(c, k);
      FillOk(c, s.entries, k, a.left);
    }
  }

  lemma MovePays(c: Setup, s: State, k: Check, a: Step, entries: map<string, Entry>, slots: nat, k': Check)
    requires c.Valid() && CheckOk(c, k) && PaidInBounds(c, k) && Moves(c, s, k, a, entries, slots, k')
    ensures PaidInBounds(c, k')
  {
    match a
    case Derive => CostInBounds(c, k);
    case Rehash => RehashInBounds(c, k, k.phase.to);
    case _ =>
  }

  /** A slot is taken and given back exactly as a check starts and stops holding one. */
  lemma MoveCounts(c: Setup, s: State, k: Check, a: Step, entries: map<string, Entry>, slots: nat, k': Check)
    requires CheckOk(c, k) && Moves(c, s, k, a, entries, slots, k') && s.slots <= c.settings.maxDerives
    ensures slots == s.slots + (if k'.Holds() then 1 else 0) - (if k.Holds() then 1 else 0)
    ensures slots <= c.settings.maxDerives
  {
    if a.Decides? {
      SettledOk(c, k, a.salt, a.now);
    }
  }

  lemma HoldersMove(s: State, s': State, id: nat)
    requires id in s.checks && id in s'.checks && s'.checks == s.checks[id := s'.checks[id]]
    ensures |Holders(s')| == |Holders(s)| + (if s'.checks[id].Holds() then 1 else 0)
            - (if s.checks[id].Holds() then 1 else 0)
  {
    var rest := Holders(s) - {id};
    assert Holders(s) == if s.checks[id].Holds() then rest + {id} else rest;
    assert Holders(s') == if s'.checks[id].Holds() then rest + {id} else rest;
  }

  lemma NextKeeps(c: Setup, s: State, id: nat, a: Step, s': State)
    requires c.Valid() && Inv(c, s) && Next(c, s, id, a, s')
    ensures Inv(c, s')
  {
    if a.Begin? {
      assert Holders(s') == Holders(s);
    } else {
      var k, k' := s.checks[id], s'.checks[id];
      MoveOk(c, s, k, a, s'.entries, s'.slots, k');
      MoveKeepsCache(c, s, k, a, s'.entries, s'.slots, k');
      MovePays(c, s, k, a, s'.entries, s'.slots, k');
      MoveCounts(c, s, k, a, s'.entries, s'.slots, k');
      HoldersMove(s, s', id);
    }
  }

  // ----- runs -----------------------------------------------------------------------------------

  ghost predicate Run(c: Setup, states: seq<State>) {
    && |states| >= 1 && states[0] == START
    && forall i :: 0 < i < |states| ==> Stepped(c, states, i)
  }

  ghost predicate Stepped(c: Setup, states: seq<State>, i: nat)
    requires 0 < i < |states|
  {
    Follows(c, states[i - 1], states[i])
  }

  ghost predicate Follows(c: Setup, s: State, s': State) {
    exists id, a :: Next(c, s, id, a, s')
  }

  /** The step that led to a state of the run. */
  lemma {:induction false} StepTo(c: Setup, states: seq<State>, n: nat) returns (id: nat, a: Step)
    requires Run(c, states) && 0 < n < |states|
    ensures Next(c, states[n - 1], id, a, states[n])
  {
    assert Stepped(c, states, n);
    id, a :| Next(c, states[n - 1], id, a, states[n]);
  }

  lemma {:induction false} StepKeeps(c: Setup, states: seq<State>, n: nat, s: State, s': State)
    requires c.Valid() && Run(c, states) && 0 < n < |states| && s == states[n - 1] && s' == states[n] && Inv(c, s)
    ensures Inv(c, s')
  {
    var id, a := StepTo(c, states, n);
    NextKeeps(c, s, id, a, s');
  }

  lemma StartOk(c: Setup)
    requires c.Valid()
    ensures Inv(c, START)
  {
    assert Holders(START) == {};
  }

  lemma {:induction false} RunKeeps(c: Setup, states: seq<State>, n: nat)
    requires c.Valid() && Run(c, states) && n < |states|
    ensures Inv(c, states[n])
  {
    if n == 0 {
      StartOk(c);
    } else {
      RunKeeps(c, states, n - 1);
      StepKeeps(c, states, n, states[n - 1], states[n]);
    }
  }

  /** The answer is the one a derive makes, whatever the randomness of its rehash would have been. */
  ghost predicate SameForEverySalt(c: Setup, k: Check, o: Outcome) {
    forall salt :: Decide(c.scheme, k.key, k.found, salt) == o
  }

  lemma FairMeans(c: Setup, k: Check, o: Outcome)
    requires Fair(c, k, o)
    ensures o == Unavailable || o == Busy(c.settings.busyAfter) || o == Cancelled
            || o == Decide(c.scheme, k.key, k.found, k.salt)
    ensures o.Passed? && k.Hit() ==> SameForEverySalt(c, k, o)
  {
    if o.Passed? && k.Hit() {
      forall salt ensures Decide(c.scheme, k.key, k.found, salt) == o {
        SaltIsUnused(c, k, salt);
      }
    }
  }

  lemma SaltIsUnused(c: Setup, k: Check, salt: Option<seq<byte>>)
    requires NeedsNoRehash(c, k)
    ensures Decide(c.scheme, k.key, k.found, salt) == Decide(c.scheme, k.key, k.found, k.salt)
  {
  }

  /** In every interleaving, every decision, cached or derived, is the one an uncached derive makes on
  the same lookup answer; a cached one needs no rehash. */
  lemma {:induction false} CacheRefinesDerive(c: Setup, states: seq<State>, n: nat, id: nat)
    requires c.Valid() && Run(c, states) && n < |states| && id in states[n].checks && states[n].checks[id].phase.Done?
    ensures var k := states[n].checks[id];
      && (|| k.phase.final == Unavailable || k.phase.final == Busy(c.settings.busyAfter) || k.phase.final == Cancelled
          || k.phase.final == Decide(c.scheme, k.key, k.found, k.salt))
      && (k.phase.final.Passed? && k.Hit() ==> SameForEverySalt(c, k, k.phase.final))
  {
    RunKeeps(c, states, n);
    var k := states[n].checks[id];
    assert CheckOk(c, k);
    FairMeans(c, k, k.phase.final);
  }

  /** In every interleaving the cache holds at most its size. */
  lemma CacheIsBounded(c: Setup, states: seq<State>, n: nat)
    requires c.Valid() && c.settings.Caching() && Run(c, states) && n < |states|
    ensures |states[n].entries| <= c.settings.size
  {
    RunKeeps(c, states, n);
  }

  /** In every interleaving the slots taken are exactly the checks between taking one and giving it
  back, cancelled ones included, and never more than there are. */
  lemma SlotsAreHeld(c: Setup, states: seq<State>, n: nat)
    requires c.Valid() && Run(c, states) && n < |states|
    ensures states[n].slots == |set id | id in states[n].checks && states[n].checks[id].Holds()|
      <= c.settings.maxDerives
  {
    RunKeeps(c, states, n);
    assert Holders(states[n]) == set id | id in states[n].checks && states[n].checks[id].Holds();
  }

  /** The derive that decides runs at the parameters of the stored string when there is one and it
  decodes, and otherwise at the minted ones. */
  lemma ChargeMeans(c: Setup, k: Check)
    requires c.Valid()
    ensures var s := c.scheme;
      Charge(c, k) ==
      if ParseKey(s.name, k.key).Some? && k.found.Some? && DecodeStored(s, k.found.value).Ok?
      then DecodeStored(s, k.found.value).value.params else s.mint
  {
  }

  /** In every interleaving a refusal of the key or of its stored string has paid exactly one derive: at
  the parameters of its stored string if that decodes, and at the minted ones if the key is malformed
  or unknown or the string does not decode. A refusal for load has paid none. */
  lemma {:induction false} RefusalsPayOnce(c: Setup, states: seq<State>, n: nat, id: nat)
    requires c.Valid() && Run(c, states) && n < |states| && id in states[n].checks && states[n].checks[id].phase.Done?
    ensures var s, k, o := c.scheme, states[n].checks[id], states[n].checks[id].phase.final;
      && (o.Invalid? || o.StoredRefused? ==>
          k.paid == [if ParseKey(s.name, k.key).Some? && k.found.Some? && DecodeStored(s, k.found.value).Ok?
                     then DecodeStored(s, k.found.value).value.params else s.mint])
      && (o.Unavailable? || o.Busy? || o.Cancelled? ==> k.paid == [])
  {
    RunKeeps(c, states, n);
    assert CheckOk(c, states[n].checks[id]);
    ChargeMeans(c, states[n].checks[id]);
  }

  /** Every stored string the check was given that decodes is at the minted parameters. */
  ghost predicate StoredAtMint(c: Setup, k: Check) {
    k.found.Some? && DecodeStored(c.scheme, k.found.value).Ok? ==>
      DecodeStored(c.scheme, k.found.value).value.params == c.scheme.mint
  }

  /** While stored strings are at the minted parameters, all refused checks pay the same, a wrong, an
  unknown and a malformed key alike. */
  lemma {:induction false} RefusalsCostTheSame(c: Setup, states: seq<State>, n: nat, i: nat, j: nat)
    requires c.Valid() && Run(c, states) && n < |states| && i in states[n].checks && j in states[n].checks
    requires var k := states[n].checks[i]; k.phase.Done? && (k.phase.final.Invalid? || k.phase.final.StoredRefused?)
    requires var k := states[n].checks[j]; k.phase.Done? && (k.phase.final.Invalid? || k.phase.final.StoredRefused?)
    requires StoredAtMint(c, states[n].checks[i]) && StoredAtMint(c, states[n].checks[j])
    ensures states[n].checks[i].paid == states[n].checks[j].paid == [c.scheme.mint]
  {
    RefusalsPayOnce(c, states, n, i);
    RefusalsPayOnce(c, states, n, j);
  }

  /** In every interleaving no derive runs outside the scheme's floor and ceiling, a rehash's included. */
  lemma DerivesInBounds(c: Setup, states: seq<State>, n: nat, id: nat, i: nat)
    requires c.Valid() && Run(c, states) && n < |states| && id in states[n].checks && i < |states[n].checks[id].paid|
    ensures InBounds(c.scheme, states[n].checks[id].paid[i])
  {
    RunKeeps(c, states, n);
    assert PaidInBounds(c, states[n].checks[id]);
  }

  lemma {:induction false} RehashIsBelow(c: Setup, k: Check)
    ensures NeedsNoRehash(c, k) <==> CaseOf(c.scheme, k.key, k.found).st.params.AtLeast(c.scheme.mint)
  {
  }

  /** The exact number of derives of a check that is done. It pays two if and only if it passed, its
  stored string is below the minted parameters in some field and the rehash's salt was read; the
  second is at the join of both. It pays one if and only if it is refused as a key, or passes neither
  from the cache nor with a rehash. All others, from the cache or refused for load, pay none. */
  lemma {:induction false} PassesPayExactly(c: Setup, states: seq<State>, n: nat, id: nat)
    requires c.Valid() && Run(c, states) && n < |states| && id in states[n].checks && states[n].checks[id].phase.Done?
    ensures var k, o := states[n].checks[id], states[n].checks[id].phase.final;
      var rehashes := !Charge(c, k).AtLeast(c.scheme.mint) && k.salt.Some?;
      && |k.paid| <= 2
      && (|k.paid| == 2 <==> o.Passed? && rehashes)
      && (|k.paid| == 2 ==> k.paid == [Charge(c, k), Higher(Charge(c, k), c.scheme.mint)])
      && (|k.paid| == 1 <==> o.Invalid? || o.StoredRefused? || (o.Passed? && !k.Hit() && !rehashes))
      && (o.Passed? ==> (k.paid == [] <==> k.Hit()))
  {
    RunKeeps(c, states, n);
    var k := states[n].checks[id];
    assert CheckOk(c, k);
    RehashIsBelow(c, k);
  }

  // ----- where a cached answer comes from -------------------------------------------------------

  /** A check that filled the cache derived, passed and is leaving or done; one that passed without the
  cache's answer and without a rehash to make did fill it. */
  ghost predicate FilledRight(c: Setup, k: Check) {
    match k.phase
    case Leaving(o) => k.filledAt.Some? <==> o.Passed? && !k.Hit() && c.settings.ttl > 0 && NeedsNoRehash(c, k)
    case Done(o) => k.filledAt.Some? <==> o.Passed? && !k.Hit() && c.settings.ttl > 0 && NeedsNoRehash(c, k)
    case _ => k.filledAt.None?
  }

  /** The entry is the one this check put. */
  ghost predicate Put(c: Setup, k: Check, lookup: string, e: Entry) {
    && k.filledAt.Some? && k.found.Some? && ParseKey(c.scheme.name, k.key).Some?
    && ParseKey(c.scheme.name, k.key).value.lookup == lookup
    && e == Entry(k.found.value, c.digest(ParseKey(c.scheme.name, k.key).value.secret),
                  k.filledAt.value + c.settings.ttl)
  }

  ghost predicate PutBySome(c: Setup, checks: map<nat, Check>, lookup: string, e: Entry) {
    exists id :: id in checks && Put(c, checks[id], lookup, e)
  }

  /** The second check answered the first: the same key and stored string, within the lifetime. */
  ghost predicate Answered(c: Setup, k: Check, filler: Check) {
    && filler.key == k.key && filler.found == k.found && filler.filledAt.Some?
    && k.hitAt.Some? && k.hitAt.value < filler.filledAt.value + c.settings.ttl
  }

  ghost predicate AnsweredBySome(c: Setup, checks: map<nat, Check>, k: Check) {
    exists id :: id in checks && Answered(c, k, checks[id])
  }

  ghost predicate Traced(c: Setup, checks: map<nat, Check>, k: Check) {
    && FilledRight(c, k)
    && (k.phase.Reading? && ParseKey(c.scheme.name, k.key).Some? ==>
        PutBySome(c, checks, ParseKey(c.scheme.name, k.key).value.lookup, k.phase.entry))
    && (k.Hit() ==> AnsweredBySome(c, checks, k))
  }

  ghost predicate AllTraced(c: Setup, s: State) {
    && (forall lookup {:trigger PutBySome(c, s.checks, lookup, s.entries[lookup])} ::
          lookup in s.entries ==> PutBySome(c, s.checks, lookup, s.entries[lookup]))
    && (forall id {:trigger Traced(c, s.checks, s.checks[id])} :: id in s.checks ==> Traced(c, s.checks, s.checks[id]))
  }

  /** What a check put stays what it put. */
  ghost predicate Stands(k: Check, k': Check) {
    k.filledAt.Some? ==> k'.filledAt == k.filledAt && k'.key == k.key && k'.found == k.found
  }

  lemma PutStays(c: Setup, checks: map<nat, Check>, id: nat, k': Check, lookup: string, e: Entry)
    requires (id in checks ==> Stands(checks[id], k')) && PutBySome(c, checks, lookup, e)
    ensures PutBySome(c, checks[id := k'], lookup, e)
  {
    var x :| x in checks && Put(c, checks[x], lookup, e);
    assert Put(c, checks[id := k'][x], lookup, e);
  }

  lemma AnsweredStays(c: Setup, checks: map<nat, Check>, id: nat, k': Check, k: Check)
    requires (id in checks ==> Stands(checks[id], k')) && AnsweredBySome(c, checks, k)
    ensures AnsweredBySome(c, checks[id := k'], k)
  {
    var x :| x in checks && Answered(c, k, checks[x]);
    assert Answered(c, k, checks[id := k'][x]);
  }

  lemma TracedStays(c: Setup, checks: map<nat, Check>, id: nat, k': Check, k: Check)
    requires (id in checks ==> Stands(checks[id], k')) && Traced(c, checks, k)
    ensures Traced(c, checks[id := k'], k)
  {
    if k.phase.Reading? && ParseKey(c.scheme.name, k.key).Some? {
      PutStays(c, checks, id, k', ParseKey(c.scheme.name, k.key).value.lookup, k.phase.entry);
    }
    if k.Hit() {
      AnsweredStays(c, checks, id, k', k);
    }
  }

  /** A hit is on an entry some check put with the same key and stored string, before it ran out. */
  lemma ReadIsAnswered(c: Setup, checks: map<nat, Check>, k: Check, now: Time)
    requires c.Valid() && k.phase.Reading? && Traced(c, checks, k)
    requires ParseKey(c.scheme.name, k.key).Some? && k.found.Some? && ReadHits(c, k, k.phase.entry, now)
    ensures AnsweredBySome(c, checks, k.(phase := Done(PlainOf(c, k)), hitAt := Some(now)))
  {
    var p := ParseKey(c.scheme.name, k.key).value;
    var id :| id in checks && Put(c, checks[id], p.lookup, k.phase.entry);
    var q := ParseKey(c.scheme.name, checks[id].key).value;
    assert p == q;
    ParseIff(c.scheme.name, k.key, p);
    ParseIff(c.scheme.name, checks[id].key, p);
    assert Answered(c, k.(phase := Done(PlainOf(c, k)), hitAt := Some(now)), checks[id]);
  }

  lemma SettledFills(c: Setup, k: Check, salt: Option<seq<byte>>, now: Time)
    requires k.phase.Derived? && CheckOk(c, k) && k.filledAt.None?
    ensures FilledRight(c, k.(phase := Settled(c, k, k.phase.matched, salt, now), salt := salt))
  {
  }

  lemma MoveFills(c: Setup, s: State, k: Check, a: Step, entries: map<string, Entry>, slots: nat, k': Check)
    requires CheckOk(c, k) && FilledRight(c, k) && Moves(c, s, k, a, entries, slots, k')
    ensures FilledRight(c, k') && Stands(k, k')
  {
    if a.Decides? {
      SettledFills(c, k, a.salt, a.now);
    }
  }

  lemma MoveIsTraced(c: Setup, s: State, id: nat, a: Step, entries: map<string, Entry>, slots: nat, k': Check)
    requires c.Valid() && AllTraced(c, s) && id in s.checks && CheckOk(c, s.checks[id])
    requires Moves(c, s, s.checks[id], a, entries, slots, k')
    ensures Stands(s.checks[id], k') && Traced(c, s.checks[id := k'], k')
  {
    var k := s.checks[id];
    assert Traced(c, s.checks, k);
    MoveFills(c, s, k, a, entries, slots, k');
    if a.Probe? && k'.phase.Reading? {
      PutStays(c, s.checks, id, k', ParseKey(c.scheme.name, k.key).value.lookup, k'.phase.entry);
    } else if a.ReadClock? && k'.Hit() {
      ReadIsAnswered(c, s.checks, k, a.now);
      AnsweredStays(c, s.checks, id, k', k');
    } else if a.GiveBack? && k'.Hit() {
      AnsweredStays(c, s.checks, id, k', k);
      var x :| x in s.checks[id := k'] && Answered(c, k, s.checks[id := k'][x]);
      assert Answered(c, k', s.checks[id := k'][x]);
    }
  }

  lemma EntriesAreTraced(c: Setup, s: State, id: nat, a: Step, entries: map<string, Entry>, slots: nat, k': Check)
    requires c.Valid() && Inv(c, s) && AllTraced(c, s) && id in s.checks && Stands(s.checks[id], k')
    requires Moves(c, s, s.checks[id], a, entries, slots, k')
    ensures forall lookup :: lookup in entries ==> PutBySome(c, s.checks[id := k'], lookup, entries[lookup])
  {
    var k := s.checks[id];
    forall lookup | lookup in entries ensures PutBySome(c, s.checks[id := k'], lookup, entries[lookup]) {
      if a.Fill? {
        FillIsNewOrOld(c, s, k, entries);
      }
      if a.Fill? && lookup == ParseKey(c.scheme.name, k.key).value.lookup {
        assert Put(c, s.checks[id := k'][id], lookup, entries[lookup]);
      } else {
        PutStays(c, s.checks, id, k', lookup, entries[lookup]);
      }
    }
  }

  lemma FillIsNewOrOld(c: Setup, s: State, k: Check, left: map<string, Entry>)
    requires c.settings.Valid() && Inv(c, s) && k.phase.Filling? && CheckOk(c, k)
    requires ParseKey(c.scheme.name, k.key).Some? && k.found.Some? && FillLeaves(c, s.entries, k, left)
    ensures var p := ParseKey(c.scheme.name, k.key).value;
      NewOrOld(s.entries, p.lookup, Entry(k.found.value, c.digest(p.secret), k.phase.at + c.settings.ttl), left)
  {
    var p := ParseKey(c.scheme.name, k.key).value;
    PutIsNewOrOld(s.entries, p.lookup, Entry(k.found.value, c.digest(p.secret), k.phase.at + c.settings.ttl),
      k.phase.at, c.settings.size, left);
  }

  lemma NextTraces(c: Setup, s: State, id: nat, a: Step, s': State)
    requires c.Valid() && Inv(c, s) && AllTraced(c, s) && Next(c, s, id, a, s')
    ensures AllTraced(c, s')
  {
    var k' := s'.checks[id];
    if !a.Begin? {
      MoveIsTraced(c, s, id, a, s'.entries, s'.slots, k');
      EntriesAreTraced(c, s, id, a, s'.entries, s'.slots, k');
    } else {
      forall lookup | lookup in s.entries ensures PutBySome(c, s'.checks, lookup, s.entries[lookup]) {
        PutStays(c, s.checks, id, k', lookup, s.entries[lookup]);
      }
    }
    forall x | x in s'.checks ensures Traced(c, s'.checks, s'.checks[x]) {
      if x != id {
        assert Traced(c, s.checks, s.checks[x]);
        TracedStays(c, s.checks, id, k', s.checks[x]);
      }
    }
  }

  lemma {:induction false} StepTraces(c: Setup, states: seq<State>, n: nat, s: State, s': State)
    requires c.Valid() && Run(c, states) && 0 < n < |states| && s == states[n - 1] && s' == states[n]
    requires AllTraced(c, s)
    ensures AllTraced(c, s')
  {
    RunKeeps(c, states, n - 1);
    var id, a := StepTo(c, states, n);
    NextTraces(c, s, id, a, s');
  }

  lemma StartTraced(c: Setup)
    ensures AllTraced(c, START)
  {
  }

  lemma {:induction false} RunTraces(c: Setup, states: seq<State>, n: nat)
    requires c.Valid() && Run(c, states) && n < |states|
    ensures AllTraced(c, states[n])
  {
    if n == 0 {
      StartTraced(c);
    } else {
      RunTraces(c, states, n - 1);
      StepTraces(c, states, n, states[n - 1], states[n]);
    }
  }

  /** In every interleaving, a check the cache answered at t has another check behind it, of the same key
  and stored string, that paid its derive, passed and read the cache's clock at u, with t < u + ttl. It
  is there as soon as the answer is. */
  lemma {:induction false} HitIsTimely(c: Setup, states: seq<State>, n: nat, id: nat) returns (filler: nat)
    requires c.Valid() && Run(c, states) && n < |states| && id in states[n].checks
    requires states[n].checks[id].phase.Done? && states[n].checks[id].hitAt.Some?
    ensures filler in states[n].checks && filler != id
    ensures var k, f := states[n].checks[id], states[n].checks[filler];
      && f.key == k.key && f.found == k.found && f.filledAt.Some? && f.paid == [Charge(c, f)]
      && ((f.phase.Leaving? && f.phase.outcome.Passed?) || (f.phase.Done? && f.phase.final.Passed?))
      && k.hitAt.value < f.filledAt.value + c.settings.ttl
  {
    RunTraces(c, states, n);
    RunKeeps(c, states, n);
    var checks := states[n].checks;
    assert Traced(c, checks, checks[id]) && CheckOk(c, checks[id]);
    filler :| filler in checks && Answered(c, checks[id], checks[filler]);
    assert Traced(c, checks, checks[filler]) && CheckOk(c, checks[filler]);
  }

  /** In every interleaving, with caching on, a check fills the cache if and only if it derived, passed
  and had no rehash to make. */
  lemma {:induction false} PassesAreRemembered(c: Setup, states: seq<State>, n: nat, id: nat)
    requires c.Valid() && Run(c, states) && n < |states| && id in states[n].checks && states[n].checks[id].phase.Done?
    ensures var k := states[n].checks[id];
      k.filledAt.Some? <==>
        c.settings.ttl > 0 && k.phase.final.Passed? && k.hitAt.None? && Charge(c, k).AtLeast(c.scheme.mint)
  {
    RunTraces(c, states, n);
    assert Traced(c, states[n].checks, states[n].checks[id]);
    RehashIsBelow(c, states[n].checks[id]);
  }

  /** A check that meets the entry of a check that filled the cache at u, for its own key and stored
  string, reads that entry, and is answered by it at t if and only if t < u + ttl. */
  lemma {:induction false} EntryAnswers(c: Setup, s: State, s': State, id: nat, u: Time, t: Time)
    requires c.settings.ttl > 0 && id in s.checks && Known(c, s.checks[id])
    requires ParseKey(c.scheme.name, s.checks[id].key).Some? && s.checks[id].found.Some? && s.checks[id].hitAt.None?
    ensures var k, p := s.checks[id], ParseKey(c.scheme.name, s.checks[id].key).value;
      var e := Entry(k.found.value, c.digest(p.secret), u + c.settings.ttl);
      && (p.lookup in s.entries && s.entries[p.lookup] == e && Next(c, s, id, Probe, s') ==>
          s'.checks[id] == k.(phase := Reading(e)))
      && (k.phase == Reading(e) && Next(c, s, id, ReadClock(t), s') ==>
          (s'.checks[id].hitAt.Some? <==> t < u + c.settings.ttl))
  {
  }

  // ----- checks that pay two derives, or none in a slot -----------------------------------------

  /** One check alone, with nothing cached. */
  function Alone(k: Check, slots: nat): State {
    State(map[], slots, map[0 := k])
  }

  lemma AloneSteps(c: Setup, k: Check, slots: nat, a: Step, k': Check, slots': nat)
    requires !a.Begin? && Moves(c, Alone(k, slots), k, a, map[], slots', k')
    ensures Follows(c, Alone(k, slots), Alone(k', slots'))
  {
    assert map[0 := k][0 := k'] == map[0 := k'];
    assert Next(c, Alone(k, slots), 0, a, Alone(k', slots'));
  }

  ghost predicate PassesForRehash(c: Setup, key: string, stored: string, to: Params) {
    && ParseKey(c.scheme.name, key).Some? && CaseOf(c.scheme, key, Some(stored)).known
    && Matches(c.scheme, CaseOf(c.scheme, key, Some(stored)))
    && RehashTo(c.scheme, CaseOf(c.scheme, key, Some(stored)).st.params) == Some(to)
  }

  /** The check once its stored string is found. */
  function Located(c: Setup, key: string, stored: string): Check {
    Begun(c, key).(phase := Probing, found := Some(stored))
  }

  /** The check once its first derive passed and its rehash is to be made. */
  function BeforeRehash(c: Setup, key: string, stored: string, salt: seq<byte>, to: Params): Check {
    var k := Located(c, key, stored);
    k.(phase := Rehashing(to), paid := [Charge(c, k)], salt := Some(salt))
  }

  lemma {:induction false} ToTheSlot(c: Setup, key: string, stored: string)
    requires c.settings.Valid() && ParseKey(c.scheme.name, key).Some?
    ensures var k := Located(c, key, stored);
      && Follows(c, START, Alone(Begun(c, key), 0)) && Follows(c, Alone(Begun(c, key), 0), Alone(k, 0))
      && Follows(c, Alone(k, 0), Alone(k.(phase := Waiting), 0))
      && Follows(c, Alone(k.(phase := Waiting), 0), Alone(k.(phase := Holding), 1))
  {
    var k := Located(c, key, stored);
    assert Next(c, START, 0, Begin(key), Alone(Begun(c, key), 0));
    AloneSteps(c, Begun(c, key), 0, LookupAnswers(Some(stored)), k, 0);
    AloneSteps(c, k, 0, Probe, k.(phase := Waiting), 0);
    AloneSteps(c, k.(phase := Waiting), 0, TakeSlot, k.(phase := Holding), 1);
  }

  lemma {:induction false} FirstDerive(c: Setup, key: string, stored: string, salt: seq<byte>, to: Params)
    requires PassesForRehash(c, key, stored, to)
    ensures var k := Located(c, key, stored);
      var derived := k.(phase := Derived(true), paid := [Charge(c, k)]);
      && Follows(c, Alone(k.(phase := Holding), 1), Alone(derived, 1))
      && Follows(c, Alone(derived, 1), Alone(BeforeRehash(c, key, stored, salt, to), 1))
  {
    var k := Located(c, key, stored);
    var derived := k.(phase := Derived(true), paid := [Charge(c, k)]);
    assert k.paid + [Charge(c, k)] == [Charge(c, k)];
    AloneSteps(c, k.(phase := Holding), 1, Derive, derived, 1);
    AloneSteps(c, derived, 1, Decides(Some(salt), ZERO), BeforeRehash(c, key, stored, salt, to), 1);
  }

  lemma {:induction false} SecondDerive(c: Setup, key: string, stored: string, salt: seq<byte>, to: Params)
    ensures var k, o := BeforeRehash(c, key, stored, salt, to), Decide(c.scheme, key, Some(stored), Some(salt));
      var leaving := k.(phase := Leaving(o), paid := k.paid + [to]);
      Follows(c, Alone(k, 1), Alone(leaving, 1)) && Follows(c, Alone(leaving, 1), Alone(leaving.(phase := Done(o)), 0))
  {
    var k, o := BeforeRehash(c, key, stored, salt, to), Decide(c.scheme, key, Some(stored), Some(salt));
    var leaving := k.(phase := Leaving(o), paid := k.paid + [to]);
    AloneSteps(c, k, 1, Rehash, leaving, 1);
    AloneSteps(c, leaving, 1, GiveBack, leaving.(phase := Done(o)), 0);
  }

  lemma Extended(c: Setup, t: seq<State>, s: State) returns (t': seq<State>)
    requires Run(c, t) && Follows(c, t[|t| - 1], s)
    ensures Run(c, t') && t' == t + [s]
  {
    t' := t + [s];
    forall i | 0 < i < |t'| ensures Stepped(c, t', i) {
      if i < |t| {
        assert Stepped(c, t, i);
      }
    }
  }

  /** One check alone, up to where it holds its slot. */
  lemma {:induction false} InTheSlot(c: Setup, key: string, stored: string) returns (t: seq<State>)
    requires c.settings.Valid() && ParseKey(c.scheme.name, key).Some?
    ensures Run(c, t) && t[|t| - 1] == Alone(Located(c, key, stored).(phase := Holding), 1)
  {
    var k := Located(c, key, stored);
    ToTheSlot(c, key, stored);
    t := Extended(c, [START], Alone(Begun(c, key), 0));
    t := Extended(c, t, Alone(k, 0));
    t := Extended(c, t, Alone(k.(phase := Waiting), 0));
    t := Extended(c, t, Alone(k.(phase := Holding), 1));
  }

  /** One check alone that passes below the minted parameters goes through two derives. */
  lemma {:induction false} TwoDerives(c: Setup, key: string, stored: string, salt: seq<byte>, to: Params)
    returns (t: seq<State>)
    requires c.settings.Valid() && PassesForRehash(c, key, stored, to)
    ensures Run(c, t) && 0 in t[|t| - 1].checks
    ensures t[|t| - 1].checks[0].phase.Done? && |t[|t| - 1].checks[0].paid| == 2
  {
    var k, r := Located(c, key, stored), BeforeRehash(c, key, stored, salt, to);
    var o := Decide(c.scheme, key, Some(stored), Some(salt));
    FirstDerive(c, key, stored, salt, to);
    SecondDerive(c, key, stored, salt, to);
    t := InTheSlot(c, key, stored);
    t := Extended(c, t, Alone(k.(phase := Derived(true), paid := [Charge(c, k)]), 1));
    t := Extended(c, t, Alone(r, 1));
    t := Extended(c, t, Alone(r.(phase := Leaving(o), paid := r.paid + [to]), 1));
    t := Extended(c, t, Alone(r.(phase := Done(o), paid := r.paid + [to]), 0));
  }

  /** Any check whose context ends once it holds its slot has paid nothing for it. */
  lemma {:induction false} CancelledInItsSlot(c: Setup, key: string, stored: string) returns (states: seq<State>)
    requires c.settings.Valid() && ParseKey(c.scheme.name, key).Some?
    ensures Run(c, states) && |states| >= 3 && 0 in states[|states| - 3].checks && 0 in states[|states| - 1].checks
    ensures states[|states| - 3].checks[0].phase == Holding
    ensures states[|states| - 1].checks[0].phase == Done(Cancelled) && states[|states| - 1].checks[0].paid == []
  {
    var k := Located(c, key, stored);
    AloneSteps(c, k.(phase := Holding), 1, Cancel, k.(phase := Leaving(Cancelled)), 1);
    AloneSteps(c, k.(phase := Leaving(Cancelled)), 1, GiveBack, k.(phase := Done(Cancelled)), 0);
    var held := InTheSlot(c, key, stored);
    var leaving := Extended(c, held, Alone(k.(phase := Leaving(Cancelled)), 1));
    states := Extended(c, leaving, Alone(k.(phase := Done(Cancelled)), 0));
  }

  /** Wherever the floor is below the minted parameters, any key stored at the floor pays two derives in
  one check. */
  lemma {:induction false} KeyAtTheFloorPaysTwice(c: Setup, k: ParsedKey, salt0: seq<byte>, salt: seq<byte>)
    returns (states: seq<State>)
    requires c.Valid() && !c.scheme.floor.AtLeast(c.scheme.mint) && WellShaped(k) && |salt0| == SALT_LEN
    ensures Run(c, states) && 0 in states[|states| - 1].checks
    ensures states[|states| - 1].checks[0].phase.Done? && |states[|states| - 1].checks[0].paid| == 2
  {
    var s := c.scheme;
    var key, stored, to := KeyOf(s.name, k), HashWith(s, k, salt0, s.floor), Higher(s.floor, s.mint);
    ParseIff(s.name, key, k);
    DecodeOfEncode(s, StoredHash(s.floor, salt0, s.derive(k.secret, salt0, s.floor, TAG_LEN)));
    assert PassesForRehash(c, key, stored, to);
    states := TwoDerives(c, key, stored, salt, to);
  }
}
