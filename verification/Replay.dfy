/** The DPoP replay cache of replay/replay.go, and the checks around it in authclient/client.go and
dpop/dpop.go that decide whether a proof is accepted at most once (section 11.1 of RFC 9449). */
module Replay {
  import opened GoTime

  // ----- the store ------------------------------------------------------------------------------

  datatype Store = Store(seen: map<string, Time>, lastGc: Time)

  const EMPTY := Store(map[], ZERO)

  datatype Checked = Checked(first: bool, store: Store)

  function Unexpired(seen: map<string, Time>, now: Time): map<string, Time> {
    map k | k in seen && seen[k] > now :: seen[k]
  }

  function GcAt(s: Store, now: Time): Store {
    if Sub(now, s.lastGc) < SECOND then s else Store(Unexpired(s.seen, now), now)
  }

  function CheckAndSetAt(s: Store, jti: string, ttl: Duration, now: Time): Checked {
    if jti in s.seen && s.seen[jti] > now then Checked(false, s)
    else Checked(true, GcAt(s.(seen := s.seen[jti := now + ttl]), now))
  }

  /** The in-memory store, changed in place under its lock. */
  class Memory {
    var seen: map<string, Time>
    var lastGc: Time

    constructor ()
      ensures Contents() == EMPTY
    {
      seen, lastGc := map[], ZERO;
    }

    ghost function Contents(): Store
      reads this
    {
      Store(seen, lastGc)
    }

    method CheckAndSet(jti: string, ttl: Duration, now: Time) returns (first: bool)
      modifies this
      ensures Checked(first, Contents()) == CheckAndSetAt(old(Contents()), jti, ttl, now)
    {
      if jti in seen && seen[jti] > now {
        return false;
      }
      seen := seen[jti := now + ttl];
      Gc(now);
      return true;
    }

    method Gc(now: Time)
      modifies this
      ensures Contents() == GcAt(old(Contents()), now)
    {
      if Sub(now, lastGc) < SECOND {
        return;
      }
      var todo := seen.Keys;
      while todo != {}
        invariant lastGc == old(lastGc)
        invariant todo <= seen.Keys <= old(seen.Keys)
        invariant forall k :: k in seen ==> seen[k] == old(seen)[k]
        invariant forall k :: k in old(seen) && old(seen)[k] > now ==> k in seen
        invariant forall k :: k in seen && k !in todo ==> seen[k] > now
        decreases |todo|
      {
        var k :| k in todo;
        todo := todo - {k};
        if seen[k] <= now {
          seen := seen - {k};
        }
      }
      lastGc := now;
      assert seen == Unexpired(old(seen), now);
    }
  }

  // ----- the store against a log of acceptances -------------------------------------------------

  datatype Call = Call(jti: string, ttl: Duration, at: Time)

  ghost predicate Ordered(calls: seq<Call>) {
    forall i, j :: 0 <= i < j < |calls| ==> calls[i].at <= calls[j].at
  }

  function StoreAfter(calls: seq<Call>): Store {
    if calls == [] then EMPTY
    else
      var c := calls[|calls| - 1];
      CheckAndSetAt(StoreAfter(calls[..|calls| - 1]), c.jti, c.ttl, c.at).store
  }

  /** One acceptance, never forgotten. */
  datatype Acceptance = Acceptance(jti: string, until: Time)

  ghost predicate LiveIn(log: seq<Acceptance>, jti: string, now: Time) {
    exists i :: 0 <= i < |log| && log[i].jti == jti && now < log[i].until
  }

  /** The reference: a log that only grows, which accepts what no live acceptance in it forbids. */
  ghost function Log(calls: seq<Call>): seq<Acceptance> {
    if calls == [] then []
    else
      var c, log := calls[|calls| - 1], Log(calls[..|calls| - 1]);
      if LiveIn(log, c.jti, c.at) then log else log + [Acceptance(c.jti, c.at + c.ttl)]
  }

  ghost predicate Agrees(s: Store, log: seq<Acceptance>, from: Time) {
    forall jti, t {:trigger LiveIn(log, jti, t)} :: t >= from ==>
      (LiveIn(log, jti, t) <==> jti in s.seen && s.seen[jti] > t)
  }

  lemma LogGrows(log: seq<Acceptance>, a: Acceptance, jti: string, t: Time)
    ensures LiveIn(log + [a], jti, t) <==> LiveIn(log, jti, t) || (a.jti == jti && t < a.until)
  {
    var log' := log + [a];
    if LiveIn(log, jti, t) {
      var i :| 0 <= i < |log| && log[i].jti == jti && t < log[i].until;
      assert log'[i] == log[i];
    }
    if a.jti == jti && t < a.until {
      assert log'[|log|] == a;
    }
  }

  lemma LiveEarlier(log: seq<Acceptance>, jti: string, now: Time, t: Time)
    requires now <= t
    ensures LiveIn(log, jti, t) ==> LiveIn(log, jti, now)
  {
  }

  lemma AgreesStep(s: Store, log: seq<Acceptance>, from: Time, c: Call)
    requires Agrees(s, log, from) && from <= c.at
    ensures CheckAndSetAt(s, c.jti, c.ttl, c.at).first <==> !LiveIn(log, c.jti, c.at)
    ensures Agrees(CheckAndSetAt(s, c.jti, c.ttl, c.at).store,
                   if LiveIn(log, c.jti, c.at) then log else log + [Acceptance(c.jti, c.at + c.ttl)], c.at)
  {
    var a := Acceptance(c.jti, c.at + c.ttl);
    var s' := CheckAndSetAt(s, c.jti, c.ttl, c.at).store;
    if !LiveIn(log, c.jti, c.at) {
      forall jti, t: Time | t >= c.at
        ensures LiveIn(log + [a], jti, t) <==> jti in s'.seen && s'.seen[jti] > t
      {
        LogGrows(log, a, jti, t);
        LiveEarlier(log, c.jti, c.at, t);
      }
    }
  }

  lemma {:induction false} StoreAgrees(calls: seq<Call>)
    requires Ordered(calls)
    ensures forall from: Time :: (calls == [] || from >= calls[|calls| - 1].at) ==>
      Agrees(StoreAfter(calls), Log(calls), from)
  {
    if calls != [] {
      var n := |calls| - 1;
      StoreAgrees(calls[..n]);
      assert Agrees(StoreAfter(calls[..n]), Log(calls[..n]), calls[n].at);
      AgreesStep(StoreAfter(calls[..n]), Log(calls[..n]), calls[n].at, calls[n]);
    }
  }

  /** The store is exact: for a nondecreasing clock and any lifetimes, a call is answered "first" if
  and only if no earlier acceptance of its jti is still live, sweeps notwithstanding. */
  lemma StoreIsExact(calls: seq<Call>, c: Call)
    requires Ordered(calls + [c])
    ensures CheckAndSetAt(StoreAfter(calls), c.jti, c.ttl, c.at).first <==> !LiveIn(Log(calls), c.jti, c.at)
  {
    var all := calls + [c];
    assert forall i :: 0 <= i < |calls| ==> all[i] == calls[i];
    assert all[|calls|] == c;
    StoreAgrees(calls);
    assert Agrees(StoreAfter(calls), Log(calls), c.at);
  }

  /** After every acceptance at now, whatever is left in the store runs out later than a second before
  now, so an expired jti is not kept. */
  lemma {:induction false} NothingStaleStays(calls: seq<Call>, c: Call)
    requires Ordered(calls + [c]) && forall x :: x in calls + [c] ==> x.ttl > 0 && x.at > ZERO
    requires CheckAndSetAt(StoreAfter(calls), c.jti, c.ttl, c.at).first
    ensures var s := CheckAndSetAt(StoreAfter(calls), c.jti, c.ttl, c.at).store;
      forall jti :: jti in s.seen ==> s.seen[jti] > c.at - SECOND
  {
    var all := calls + [c];
    assert forall i :: 0 <= i < |calls| ==> all[i] == calls[i];
    assert all[|calls|] == c && c in all;
    SweptAfter(calls, c.at);
    SubCompares(c.at, StoreAfter(calls).lastGc, SECOND);
  }

  lemma {:induction false} SweptAfter(calls: seq<Call>, now: Time)
    requires Ordered(calls) && now > ZERO && forall x :: x in calls ==> x.ttl > 0 && ZERO < x.at <= now
    ensures var s := StoreAfter(calls); forall jti :: jti in s.seen ==> s.seen[jti] > s.lastGc
    ensures StoreAfter(calls).lastGc <= now
  {
    if calls != [] {
      var n := |calls| - 1;
      assert calls[n] in calls;
      SweptAfter(calls[..n], calls[n].at);
    }
  }

  // ----- a proof is accepted at most once -------------------------------------------------------

  datatype Policy = Policy(maxAge: Duration, leeway: Duration) {
    predicate Valid() {
      MIN_DURATION <= leeway < MAX_DURATION && MIN_DURATION <= Lifetime() < MAX_DURATION
    }

    function Lifetime(): Duration { maxAge + leeway }
  }

  datatype Proof = Proof(jti: string, iat: Time)

  /** A request: its proof, whether every other check of it passes (the token, the proof's signature
  and bindings, the key match, the nonce), and the clock at its freshness and its replay check. */
  datatype Request = Request(proof: Proof, others: bool, freshAt: Time, replayAt: Time)

  predicate Fresh(p: Policy, iat: Time, now: Time) {
    !(Sub(now, iat) > p.maxAge + p.leeway || Sub(iat, now) > p.leeway)
  }

  /** Freshness comes first, and only a request that passed every check before it reaches the store. */
  function ValidateAt(p: Policy, s: Store, r: Request): Checked {
    if !Fresh(p, r.proof.iat, r.freshAt) || !r.others then Checked(false, s)
    else CheckAndSetAt(s, r.proof.jti, p.Lifetime(), r.replayAt)
  }

  function After(p: Policy, run: seq<Request>): Store
    decreases |run|, 1
  {
    if run == [] then EMPTY else Last(p, run).store
  }

  function Last(p: Policy, run: seq<Request>): Checked
    requires run != []
    decreases |run|, 0
  {
    ValidateAt(p, After(p, run[..|run| - 1]), run[|run| - 1])
  }

  predicate Accepted(p: Policy, run: seq<Request>, i: nat)
    requires i < |run|
  {
    Last(p, run[..i + 1]).first
  }

  /** The replay checks happen one after the other under the store's lock, on a clock that does not
  run back; a request's freshness was read no later than that. */
  ghost predicate Timely(run: seq<Request>) {
    && (forall i :: 0 <= i < |run| ==> run[i].freshAt <= run[i].replayAt)
    && (forall i, j :: 0 <= i < j < |run| ==> run[i].replayAt <= run[j].replayAt)
  }

  lemma FreshMeans(p: Policy, iat: Time, now: Time)
    requires p.Valid()
    ensures Fresh(p, iat, now) <==> iat - p.leeway <= now <= iat + p.Lifetime()
  {
  }

  /** Exactly which requests reach the store, and for how long they are remembered there: those that pass
  every other check with an iat at most the leeway ahead and at most the age and the leeway back. All
  others are refused and leave the store as it was. */
  lemma ValidatedIff(p: Policy, s: Store, r: Request)
    requires p.Valid()
    ensures ValidateAt(p, s, r) ==
      if r.others && r.proof.iat - p.leeway <= r.freshAt <= r.proof.iat + p.maxAge + p.leeway
      then CheckAndSetAt(s, r.proof.jti, p.maxAge + p.leeway, r.replayAt) else Checked(false, s)
  {
    FreshMeans(p, r.proof.iat, r.freshAt);
  }

  lemma LastOf(p: Policy, run: seq<Request>, n: nat)
    requires n < |run|
    ensures Last(p, run[..n + 1]) == ValidateAt(p, After(p, run[..n]), run[n])
    ensures After(p, run[..n + 1]) == Last(p, run[..n + 1]).store
  {
    assert run[..n + 1][..n] == run[..n];
  }

  /** An accepted jti stays in the store until its entry's time has passed. */
  lemma {:induction false} StaysSeen(p: Policy, run: seq<Request>, i: nat, n: nat)
    requires Timely(run) && i < n <= |run| && Accepted(p, run, i)
    ensures var until, seen := run[i].replayAt + p.Lifetime(), After(p, run[..n]).seen;
      run[n - 1].replayAt >= until || (run[i].proof.jti in seen && seen[run[i].proof.jti] >= until)
  {
    LastOf(p, run, n - 1);
    if i < n - 1 {
      StaysSeen(p, run, i, n - 1);
    }
  }

  /** How long after its proof's iat a request was accepted. A negative lifetime, whose entries are
  dead on arrival, counts against it. */
  function Lateness(p: Policy, r: Request): Duration {
    r.replayAt - r.proof.iat - (if p.Lifetime() < 0 then p.Lifetime() else 0)
  }

  /** A proof accepted twice was fresh long before its replay check: the second request took at least
  as long between its two clock readings as the first acceptance came after the proof's iat. */
  lemma TwiceNeedsDelay(p: Policy, run: seq<Request>, i: nat, j: nat)
    requires p.Valid() && Timely(run) && i < j < |run| && run[i].proof == run[j].proof
    requires Accepted(p, run, i) && Accepted(p, run, j)
    ensures run[j].replayAt - run[j].freshAt >= Lateness(p, run[i])
  {
    LastOf(p, run, j);
    StaysSeen(p, run, i, j);
    FreshMeans(p, run[j].proof.iat, run[j].freshAt);
  }

  /** No request takes longer than delay between its freshness check and its replay check. With no
  delay at all each request reads one clock. */
  ghost predicate Within(run: seq<Request>, delay: Duration) {
    forall i :: 0 <= i < |run| ==> run[i].replayAt - run[i].freshAt <= delay
  }

  /** A proof first accepted later after its iat than any request takes between its two checks is never
  accepted again, in any run. */
  lemma AtMostOnce(p: Policy, run: seq<Request>, delay: Duration, i: nat, j: nat)
    requires p.Valid() && Timely(run) && Within(run, delay) && i < j < |run| && run[i].proof == run[j].proof
    requires Accepted(p, run, i) && Lateness(p, run[i]) > delay
    ensures !Accepted(p, run, j)
  {
    if Accepted(p, run, j) {
      TwiceNeedsDelay(p, run, i, j);
    }
  }

  /** The proof of the run's last request can be accepted again after it, by requests that take no
  longer than delay. */
  ghost predicate Replayable(p: Policy, run: seq<Request>, delay: Duration)
    requires run != []
  {
    exists more :: Replays(p, run, delay, more)
  }

  ghost predicate Replays(p: Policy, run: seq<Request>, delay: Duration, more: seq<Request>)
    requires run != []
  {
    && more != [] && Timely(run + more) && Within(run + more, delay)
    && more[|more| - 1].proof == run[|run| - 1].proof
    && Accepted(p, run + more, |run| + |more| - 1)
  }

  lemma ReplayNeedsDelay(p: Policy, run: seq<Request>, delay: Duration, more: seq<Request>)
    requires p.Valid() && run != [] && Accepted(p, run, |run| - 1) && Replays(p, run, delay, more)
    ensures Lateness(p, run[|run| - 1]) <= delay
  {
    var n, all := |run| - 1, run + more;
    assert all[..n + 1] == run[..n + 1];
    assert all[n] == run[n] && all[|all| - 1] == more[|more| - 1];
    TwiceNeedsDelay(p, all, n, |all| - 1);
  }

  /** The same proof again, fresh at the last moment it can be, and checked for replay as soon after as
  its entry has run out. */
  function LastMoment(p: Policy, r: Request): Request {
    var freshAt := r.proof.iat + p.Lifetime();
    var over := r.replayAt + if p.Lifetime() < 0 then 0 else p.Lifetime();
    Request(r.proof, true, freshAt, if over < freshAt then freshAt else over)
  }

  lemma LastMomentReplays(p: Policy, run: seq<Request>, delay: Duration)
    requires p.Valid() && run != [] && Timely(run) && Within(run, delay) && Accepted(p, run, |run| - 1)
    requires Lateness(p, run[|run| - 1]) <= delay
    ensures Replays(p, run, delay, [LastMoment(p, run[|run| - 1])])
  {
    var n := |run| - 1;
    var first, again := run[n], LastMoment(p, run[n]);
    var all := run + [again];
    LastOf(p, run, n);
    FreshMeans(p, first.proof.iat, first.freshAt);
    FreshMeans(p, first.proof.iat, again.freshAt);
    assert run[..n + 1] == run && all[..n + 1] == run;
    LastOf(p, all, n + 1);
    assert all[n + 1] == again;
  }

  /** The exact condition, for the code's two clock readings: an accepted proof can be replayed if and
  only if it was accepted no later after its iat than a request may take between its two checks. With
  one reading that is: at or before its iat, as the leeway allows a client whose clock is ahead. */
  lemma ReplayableIff(p: Policy, run: seq<Request>, delay: Duration)
    requires p.Valid() && run != [] && Timely(run) && Within(run, delay) && Accepted(p, run, |run| - 1)
    ensures Replayable(p, run, delay) <==> Lateness(p, run[|run| - 1]) <= delay
  {
    if more :| Replays(p, run, delay, more) {
      ReplayNeedsDelay(p, run, delay, more);
    }
    if Lateness(p, run[|run| - 1]) <= delay {
      LastMomentReplays(p, run, delay);
    }
  }

  /** A proof issued at 100 s and accepted at 100 s is accepted again at 165 s, under a maximal age of
  60 s and a leeway of 5 s, with one clock reading per request. */
  lemma ReplayExample(p: Policy, run: seq<Request>)
    requires p == Policy(60 * SECOND, 5 * SECOND)
    requires run == [Request(Proof("jti", 100 * SECOND), true, 100 * SECOND, 100 * SECOND)]
    ensures Accepted(p, run, 0)
    ensures Accepted(p, run + [Request(Proof("jti", 100 * SECOND), true, 165 * SECOND, 165 * SECOND)], 1)
  {
    LastOf(p, run, 0);
    LastMomentReplays(p, run, 0);
  }

  /** Accepted a second after its iat, the proof is accepted again by a request that is a second between
  its two checks. */
  lemma DelayedReplayExample(p: Policy, run: seq<Request>)
    requires p == Policy(60 * SECOND, 5 * SECOND)
    requires run == [Request(Proof("jti", 100 * SECOND), true, 101 * SECOND, 101 * SECOND)]
    ensures Accepted(p, run, 0)
    ensures Accepted(p, run + [Request(Proof("jti", 100 * SECOND), true, 165 * SECOND, 166 * SECOND)], 1)
  {
    LastOf(p, run, 0);
    LastMomentReplays(p, run, SECOND);
  }
}
