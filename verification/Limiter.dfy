/** The API-key rate limiter of apikeys/limit.go: the generic cell rate algorithm over a bounded,
swept table of callers with one shared overflow allowance. */
module Limiter {
  import opened GoTime
  import opened Wrappers

  /** What a caller is kept by: the digest of its name. */
  type Digest = string

  datatype Config = Config(attempts: int, window: Duration, maxCallers: int)

  /** The settings of a built limiter. */
  datatype Limits = Limits(interval: Duration, tolerance: Duration, max: int) {
    predicate Valid() {
      interval > 0 && tolerance >= 0 && max >= 1 && Window() <= MAX_DURATION
    }

    function Window(): Duration { interval + tolerance }
  }

  function NewLimits(c: Config): (r: Option<Limits>)
    requires c.window <= MAX_DURATION
    ensures r.Some? <==> 1 <= c.attempts <= c.window && 1 <= c.maxCallers
    ensures r.Some? ==> r.value.Valid() && r.value.Window() == c.window && r.value.max == c.maxCallers
    ensures r.Some? ==> 0 <= c.window - c.attempts * r.value.interval < c.attempts
  {
    if c.attempts < 1 || c.window <= 0 || c.maxCallers < 1 then None
    else
      var interval := c.window / c.attempts;
      DivBounds(c.window, c.attempts);
      if interval <= 0 then None
      else Some(Limits(interval, c.window - interval, c.maxCallers))
  }

  lemma DivBounds(x: int, d: int)
    requires x >= 0 && d > 0
    ensures 0 <= x - d * (x / d) < d
    ensures x / d <= 0 <==> x < d
    ensures x / d <= x
  {
    assert x == d * (x / d) + x % d;
    if x / d >= 1 {
      MulAtLeast(d, x / d);
    }
  }

  lemma MulAtLeast(d: int, q: int)
    requires d >= 1 && q >= 1
    ensures d * q >= d && d * q >= q
  {
    MulMonotone(1, q, d);
    MulMonotone(1, d, q);
  }

  // ----- one allowance -------------------------------------------------------------------------

  datatype Verdict = Verdict(ok: bool, after: Duration)

  /** Spending one attempt from an allowance leaves a verdict and the allowance's next due time. */
  datatype Spent = Spent(verdict: Verdict, due: Time)

  function TakeAt(l: Limits, due: Time, now: Time): Spent {
    var t := if due < now then now else due;
    var wait := Sub(t, now) - l.tolerance;
    if wait > 0 then Spent(Verdict(false, wait), due)
    else Spent(Verdict(true, 0), t + l.interval)
  }

  // ----- the table ----------------------------------------------------------------------------

  datatype Table = Table(due: map<Digest, Time>, overflow: Time, swept: Time)

  const EMPTY := Table(map[], ZERO, ZERO)

  datatype Route = Tracked | Overflow

  datatype Answer = Answer(verdict: Verdict, route: Route, table: Table)

  function DueOf(due: map<Digest, Time>, id: Digest): Time {
    if id in due then due[id] else ZERO
  }

  function Unspent(due: map<Digest, Time>, now: Time): map<Digest, Time> {
    map id | id in due && due[id] > now :: due[id]
  }

  function Swept(l: Limits, t: Table, now: Time): Table {
    if Sub(now, t.swept) < l.interval then t
    else t.(due := Unspent(t.due, now), swept := now)
  }

  /** The table an attempt by id is decided on: swept when id is new and the table is full. */
  function Room(l: Limits, t: Table, id: Digest, now: Time): Table {
    if id !in t.due && |t.due| >= l.max then Swept(l, t, now) else t
  }

  function AllowAt(l: Limits, t: Table, id: Digest, now: Time): Answer {
    var room := Room(l, t, id, now);
    if id !in t.due && |room.due| >= l.max then
      var s := TakeAt(l, room.overflow, now);
      Answer(s.verdict, Overflow, room.(overflow := s.due))
    else
      var s := TakeAt(l, DueOf(t.due, id), now);
      Answer(s.verdict, Tracked, room.(due := room.due[id := s.due]))
  }

  /** The limiter as the library keeps it: fields changed in place under one lock, so a run of it is
  a sequence of whole Allow calls. */
  class MemoryLimiter {
    const limits: Limits
    const digest: string -> Digest
    var due: map<Digest, Time>
    var overflow: Time
    var swept: Time

    constructor (limits: Limits, digest: string -> Digest)
      requires limits.Valid()
      ensures this.limits == limits && this.digest == digest
      ensures Contents() == EMPTY
    {
      this.limits := limits;
      this.digest := digest;
      due, overflow, swept := map[], ZERO, ZERO;
    }

    ghost function Contents(): Table
      reads this
    {
      Table(due, overflow, swept)
    }

    method Take(due: Time, now: Time) returns (ok: bool, after: Duration, next: Time)
      ensures Spent(Verdict(ok, after), next) == TakeAt(limits, due, now)
    {
      var t := due;
      if t < now {
        t := now;
      }
      var wait := Sub(t, now) - limits.tolerance;
      if wait > 0 {
        return false, wait, due;
      }
      return true, 0, t + limits.interval;
    }

    method Sweep(now: Time)
      modifies this`due, this`swept
      ensures Contents() == Swept(limits, old(Contents()), now)
    {
      if Sub(now, swept) < limits.interval {
        return;
      }
      swept := now;
      var todo := due.Keys;
      while todo != {}
        invariant swept == now
        invariant todo <= due.Keys <= old(due.Keys)
        invariant forall id :: id in due ==> due[id] == old(due)[id]
        invariant forall id :: id in old(due) && old(due)[id] > now ==> id in due
        invariant forall id :: id in due && id !in todo ==> due[id] > now
        decreases |todo|
      {
        var id :| id in todo;
        todo := todo - {id};
        if due[id] <= now {
          due := due - {id};
        }
      }
      assert due == Unspent(old(due), now);
    }

    method Allow(caller: string, now: Time) returns (ok: bool, after: Duration)
      modifies this
      ensures var a := AllowAt(limits, old(Contents()), digest(caller), now);
        Verdict(ok, after) == a.verdict && Contents() == a.table
    {
      var id := digest(caller);
      var tracked := id in due;
      var next := if tracked then due[id] else ZERO;
      if !tracked && |due| >= limits.max {
        Sweep(now);
        if |due| >= limits.max {
          ok, after, next := Take(overflow, now);
          overflow := next;
          return;
        }
      }
      ok, after, next := Take(next, now);
      due := due[id := next];
    }
  }

  // ----- runs ----------------------------------------------------------------------------------

  datatype Attempt = Attempt(id: Digest, at: Time)

  /** The clock never runs back and never reads the zero time. */
  ghost predicate Ordered(run: seq<Attempt>) {
    && (forall i :: 0 <= i < |run| ==> run[i].at > ZERO)
    && (forall i, j :: 0 <= i < j < |run| ==> run[i].at <= run[j].at)
  }

  function Clock(run: seq<Attempt>): Time {
    if run == [] then ZERO else run[|run| - 1].at
  }

  function After(l: Limits, run: seq<Attempt>): Table
    decreases |run|, 1
  {
    if run == [] then EMPTY else Last(l, run).table
  }

  /** The answer to the last attempt of a run. */
  function Last(l: Limits, run: seq<Attempt>): Answer
    requires run != []
    decreases |run|, 0
  {
    var n := |run| - 1;
    AllowAt(l, After(l, run[..n]), run[n].id, run[n].at)
  }

  lemma AfterStep(l: Limits, run: seq<Attempt>, e: Attempt)
    ensures Last(l, run + [e]) == AllowAt(l, After(l, run), e.id, e.at)
    ensures After(l, run + [e]) == AllowAt(l, After(l, run), e.id, e.at).table
  {
    assert (run + [e])[..|run|] == run;
  }

  /** What an attempt is counted under: the allowance it was taken from, or any. */
  datatype Payer = Anyone | Caller(id: Digest) | Shared

  predicate Counts(l: Limits, run: seq<Attempt>, payer: Payer, a: Time, b: Time)
    requires run != []
  {
    var e, answer := run[|run| - 1], Last(l, run);
    && answer.verdict.ok && a <= e.at <= b
    && match payer {
         case Anyone => true
         case Caller(id) => answer.route == Tracked && e.id == id
         case Shared => answer.route == Overflow
       }
  }

  /** How many attempts made at a <= t <= b the run admitted, for the payer. */
  function Admitted(l: Limits, run: seq<Attempt>, payer: Payer, a: Time, b: Time): nat {
    if run == [] then 0
    else Admitted(l, run[..|run| - 1], payer, a, b) + if Counts(l, run, payer, a, b) then 1 else 0
  }

  // ----- the slot argument ---------------------------------------------------------------------

  /** One allowance as a run sees it: when it is next due, and what it admitted in the interval. */
  datatype Slot = Slot(due: Time, count: nat)

  ghost predicate SlotOk(l: Limits, s: Slot, now: Time, a: Time, length: Duration) {
    && s.due <= now + l.Window()
    && s.count * l.interval <= l.Window() + length
    && (s.count > 0 ==> a + s.count * l.interval <= s.due)
  }

  function Spend(l: Limits, s: Slot, now: Time, a: Time, length: Duration): Slot {
    var spent := TakeAt(l, s.due, now);
    Slot(spent.due, s.count + if spent.verdict.ok && a <= now <= a + length then 1 else 0)
  }

  /** No run of attempts on one allowance can admit more than its due time pays for. */
  lemma SpendKeeps(l: Limits, s: Slot, before: Time, now: Time, a: Time, length: Duration)
    requires l.Valid() && length >= 0 && before <= now
    requires SlotOk(l, s, before, a, length)
    ensures SlotOk(l, Spend(l, s, now, a, length), now, a, length)
  {
    assert (s.count + 1) * l.interval == s.count * l.interval + l.interval;
  }

  /** An allowance that is whole again answers like one never used, whatever its due time was. */
  lemma WholeIsNew(l: Limits, due: Time, due': Time, now: Time)
    requires due <= now && due' <= now && l.tolerance >= 0
    ensures TakeAt(l, due, now) == TakeAt(l, due', now).(due := TakeAt(l, due, now).due)
    ensures TakeAt(l, due, now).verdict.ok
    ensures TakeAt(l, due, now).due == now + l.interval
  {
  }

  lemma CountFits(l: Limits, count: nat, total: int)
    requires l.interval > 0 && count * l.interval <= total
    ensures count <= total / l.interval
  {
    MulNonNegative(count, l.interval);
    DivBounds(total, l.interval);
    var q := total / l.interval;
    assert (q + 1) * l.interval == q * l.interval + l.interval;
    if count > q {
      MulMonotone(q + 1, count, l.interval);
    }
  }

  lemma MulNonNegative(x: int, y: int)
    requires x >= 0 && y >= 0
    ensures x * y >= 0
  {
  }

  lemma MulMonotone(x: int, y: int, z: int)
    requires x <= y && z >= 0
    ensures x * z <= y * z
  {
    MulNonNegative(y - x, z);
    assert (y - x) * z == y * z - x * z;
  }

  /** Tables reached by a run keep at most max callers. */
  ghost predicate TableOk(l: Limits, t: Table) {
    |t.due| <= l.max
  }

  lemma InsertSize(due: map<Digest, Time>, id: Digest, t: Time)
    ensures |due[id := t]| <= |due| + 1
    ensures id in due ==> |due[id := t]| == |due|
  {
    assert due[id := t].Keys == due.Keys + {id};
    if id in due {
      assert due[id := t].Keys == due.Keys;
    }
  }

  lemma AllowKeepsSize(l: Limits, t: Table, id: Digest, now: Time)
    requires l.Valid() && TableOk(l, t)
    ensures TableOk(l, AllowAt(l, t, id, now).table)
  {
    var room := Room(l, t, id, now);
    UnspentSize(t.due, now);
    InsertSize(room.due, id, TakeAt(l, DueOf(t.due, id), now).due);
  }

  lemma UnspentSize(due: map<Digest, Time>, now: Time)
    ensures |Unspent(due, now)| <= |due|
  {
    SubsetSize(Unspent(due, now).Keys, due.Keys);
  }

  lemma SubsetSize<T>(a: set<T>, b: set<T>)
    requires a <= b
    ensures |a| <= |b|
  {
    assert b == a + (b - a);
  }

  /** The table never holds more than max callers, in any run. */
  lemma {:induction false} TableIsBounded(l: Limits, run: seq<Attempt>)
    requires l.Valid()
    ensures |After(l, run).due| <= l.max
  {
    if run != [] {
      var n := |run| - 1;
      TableIsBounded(l, run[..n]);
      AllowKeepsSize(l, After(l, run[..n]), run[n].id, run[n].at);
    }
  }

  lemma OrderedPrefix(run: seq<Attempt>)
    requires Ordered(run) && run != []
    ensures Ordered(run[..|run| - 1]) && Clock(run[..|run| - 1]) <= Clock(run)
  {
  }

  // ----- every single allowance ----------------------------------------------------------------

  /** The slot mirrors the payer's allowance: exactly while the table holds it, and as a whole
  allowance once the table has forgotten it. */
  ghost predicate Mirrors(t: Table, now: Time, payer: Payer, s: Slot) {
    match payer
    case Anyone => true
    case Caller(id) => if id in t.due then s.due == t.due[id] else s.due <= now
    case Shared => s.due == t.overflow
  }

  /** The payer spends on its own slot alone. */
  predicate Pays(payer: Payer, e: Attempt, route: Route) {
    if route == Overflow then payer == Shared else payer == Caller(e.id)
  }

  lemma MirrorsStep(l: Limits, t: Table, before: Time, e: Attempt, payer: Payer, s: Slot, a: Time, length: Duration)
    requires l.Valid() && before <= e.at && ZERO < e.at && payer != Anyone && Mirrors(t, before, payer, s)
    ensures var answer := AllowAt(l, t, e.id, e.at);
      && (Pays(payer, e, answer.route) ==>
          && Mirrors(answer.table, e.at, payer, Spend(l, s, e.at, a, length))
          && TakeAt(l, s.due, e.at).verdict == answer.verdict)
      && (!Pays(payer, e, answer.route) ==> Mirrors(answer.table, e.at, payer, s))
  {
  }

  lemma {:induction false} AllowanceSlot(l: Limits, run: seq<Attempt>, payer: Payer, a: Time, length: Duration)
    returns (s: Slot)
    requires l.Valid() && Ordered(run) && length >= 0 && payer != Anyone
    ensures Mirrors(After(l, run), Clock(run), payer, s) && SlotOk(l, s, Clock(run), a, length)
    ensures s.count == Admitted(l, run, payer, a, a + length)
  {
    if run == [] {
      s := Slot(ZERO, 0);
    } else {
      var n := |run| - 1;
      OrderedPrefix(run);
      s := AllowanceSlot(l, run[..n], payer, a, length);
      SpendKeeps(l, s, Clock(run[..n]), run[n].at, a, length);
      MirrorsStep(l, After(l, run[..n]), Clock(run[..n]), run[n], payer, s, a, length);
      if Pays(payer, run[n], Last(l, run).route) {
        s := Spend(l, s, run[n].at, a, length);
      }
    }
  }

  /** Each single allowance, the shared one included, admits at most floor((W+L)/I) attempts in any
  interval of length L, however often the caller was forgotten and seen again. */
  lemma AllowanceBound(l: Limits, run: seq<Attempt>, payer: Payer, a: Time, length: Duration)
    requires l.Valid() && Ordered(run) && length >= 0 && payer != Anyone
    ensures Admitted(l, run, payer, a, a + length) <= (l.Window() + length) / l.interval
  {
    var s := AllowanceSlot(l, run, payer, a, length);
    CountFits(l, s.count, l.Window() + length);
  }

  // ----- a flood of callers --------------------------------------------------------------------

  /** Who sits in which slot. Slot max is the shared allowance; a slot nobody sits in is whole. */
  datatype Seats = Seats(slots: seq<Slot>, of: map<Digest, nat>, who: map<nat, Digest>) {
    ghost predicate Matched() {
      && (forall id :: id in of ==> of[id] in who && who[of[id]] == id)
      && (forall i :: i in who ==> who[i] in of && of[who[i]] == i)
    }
  }

  ghost predicate Seated(l: Limits, t: Table, now: Time, a: Time, length: Duration, g: Seats) {
    && l.Valid() && |g.slots| == l.max + 1
    && g.Matched() && g.of.Keys == t.due.Keys
    && (forall i :: i in g.who ==> i < l.max && g.slots[i].due == t.due[g.who[i]])
    && (forall i: nat :: i < l.max && i !in g.who ==> g.slots[i].due <= now)
    && g.slots[l.max].due == t.overflow
    && AllOk(l, g.slots, now, a, length)
  }

  ghost predicate AllOk(l: Limits, slots: seq<Slot>, now: Time, a: Time, length: Duration) {
    forall i :: 0 <= i < |slots| ==> SlotOk(l, slots[i], now, a, length)
  }

  function Total(slots: seq<Slot>): nat {
    if slots == [] then 0 else Total(slots[..|slots| - 1]) + slots[|slots| - 1].count
  }

  lemma {:induction false} TotalUpdate(slots: seq<Slot>, i: nat, s: Slot)
    requires i < |slots|
    ensures Total(slots[i := s]) == Total(slots) - slots[i].count + s.count
  {
    var n := |slots| - 1;
    if i == n {
      assert slots[i := s][..n] == slots[..n];
    } else {
      TotalUpdate(slots[..n], i, s);
      assert slots[i := s][..n] == slots[..n][i := s];
    }
  }

  lemma {:induction false} TotalBound(slots: seq<Slot>, most: nat)
    requires forall i :: 0 <= i < |slots| ==> slots[i].count <= most
    ensures Total(slots) <= |slots| * most
  {
    if slots != [] {
      var n := |slots| - 1;
      TotalBound(slots[..n], most);
      assert (n + 1) * most == n * most + most;
    }
  }

  lemma {:induction false} TotalOfNone(slots: seq<Slot>)
    requires forall i :: 0 <= i < |slots| ==> slots[i].count == 0
    ensures Total(slots) == 0
  {
    if slots != [] {
      TotalOfNone(slots[..|slots| - 1]);
    }
  }

  /** Seats of forgotten callers fall free, and they are whole: their due time has passed. */
  lemma Unseat(l: Limits, t: Table, before: Time, now: Time, a: Time, length: Duration, g: Seats) returns (g': Seats)
    requires l.Valid() && before <= now && Seated(l, t, before, a, length, g)
    ensures g'.slots == g.slots && Seated(l, t.(due := Unspent(t.due, now)), now, a, length, g')
  {
    var kept := Unspent(t.due, now);
    g' := Seats(g.slots, map id | id in kept :: g.of[id], map i | i in g.who && g.who[i] in kept :: g.who[i]);
  }

  lemma StillSeated(l: Limits, t: Table, before: Time, now: Time, a: Time, length: Duration, g: Seats)
    requires before <= now && Seated(l, t, before, a, length, g)
    ensures Seated(l, t, now, a, length, g)
  {
  }

  ghost function Below(n: nat): (s: set<nat>)
    ensures forall i: nat :: i in s <==> i < n
    ensures |s| == n
  {
    if n == 0 then {} else Below(n - 1) + {n - 1}
  }

  lemma {:induction false} AsManySeats(of: map<Digest, nat>, who: map<nat, Digest>)
    requires forall i :: i in who ==> who[i] in of && of[who[i]] == i
    ensures |who| <= |of|
  {
    if who != map[] {
      var i :| i in who;
      AsManySeats(of - {who[i]}, who - {i});
    }
  }

  /** While fewer than max callers sit, some seat is free. */
  lemma FreeSeat(l: Limits, g: Seats) returns (i: nat)
    requires l.Valid() && g.Matched() && |g.of| < l.max
    ensures i < l.max && i !in g.who
  {
    AsManySeats(g.of, g.who);
    if Below(l.max) <= g.who.Keys {
      SubsetSize(Below(l.max), g.who.Keys);
    }
    i :| i in Below(l.max) && i !in g.who;
  }

  /** Spending on the seat of a caller already sitting. */
  lemma SpendSeated(l: Limits, t: Table, before: Time, now: Time, a: Time, length: Duration, g: Seats, id: Digest)
    returns (g': Seats)
    requires l.Valid() && length >= 0 && before <= now && Seated(l, t, before, a, length, g) && id in t.due
    ensures var spent := TakeAt(l, t.due[id], now);
      && Seated(l, t.(due := t.due[id := spent.due]), now, a, length, g')
      && Total(g'.slots) == Total(g.slots) + if spent.verdict.ok && a <= now <= a + length then 1 else 0
  {
    var i := g.of[id];
    var s := Spend(l, g.slots[i], now, a, length);
    SpendKeeps(l, g.slots[i], before, now, a, length);
    TotalUpdate(g.slots, i, s);
    g' := g.(slots := g.slots[i := s]);
  }

  /** Seating a new caller: its free seat is whole, so it answers as the caller's empty record. */
  lemma Seat(l: Limits, t: Table, now: Time, a: Time, length: Duration, g: Seats, id: Digest)
    returns (g': Seats)
    requires l.Valid() && length >= 0 && ZERO < now && Seated(l, t, now, a, length, g)
    requires id !in t.due && |t.due| < l.max
    ensures var spent := TakeAt(l, ZERO, now);
      && Seated(l, t.(due := t.due[id := spent.due]), now, a, length, g')
      && Total(g'.slots) == Total(g.slots) + if spent.verdict.ok && a <= now <= a + length then 1 else 0
  {
    assert |g.of| == |g.of.Keys| == |t.due.Keys|;
    var i := FreeSeat(l, g);
    var s := Spend(l, g.slots[i], now, a, length);
    SpendKeeps(l, g.slots[i], now, now, a, length);
    WholeIsNew(l, ZERO, g.slots[i].due, now);
    TotalUpdate(g.slots, i, s);
    g' := Seats(g.slots[i := s], g.of[id := i], g.who[i := id]);
  }

  lemma SpendShared(l: Limits, t: Table, now: Time, a: Time, length: Duration, g: Seats)
    returns (g': Seats)
    requires l.Valid() && length >= 0 && Seated(l, t, now, a, length, g)
    ensures var spent := TakeAt(l, t.overflow, now);
      && Seated(l, t.(overflow := spent.due), now, a, length, g')
      && Total(g'.slots) == Total(g.slots) + if spent.verdict.ok && a <= now <= a + length then 1 else 0
  {
    var s := Spend(l, g.slots[l.max], now, a, length);
    SpendKeeps(l, g.slots[l.max], now, now, a, length);
    TotalUpdate(g.slots, l.max, s);
    g' := g.(slots := g.slots[l.max := s]);
  }

  lemma MakeRoom(l: Limits, t: Table, before: Time, id: Digest, now: Time, a: Time, length: Duration, g: Seats)
    returns (g': Seats)
    requires before <= now && Seated(l, t, before, a, length, g)
    ensures g'.slots == g.slots && Seated(l, Room(l, t, id, now), now, a, length, g')
  {
    if Room(l, t, id, now) == t {
      StillSeated(l, t, before, now, a, length, g);
      g' := g;
    } else {
      g' := Unseat(l, t, before, now, a, length, g);
    }
  }

  lemma SeatAttempt(l: Limits, t: Table, before: Time, e: Attempt, a: Time, length: Duration, g: Seats)
    returns (g': Seats)
    requires l.Valid() && length >= 0 && before <= e.at && ZERO < e.at && Seated(l, t, before, a, length, g)
    ensures var answer := AllowAt(l, t, e.id, e.at);
      && Seated(l, answer.table, e.at, a, length, g')
      && Total(g'.slots) == Total(g.slots) + if answer.verdict.ok && a <= e.at <= a + length then 1 else 0
  {
    if e.id in t.due {
      g' := SpendSeated(l, t, before, e.at, a, length, g, e.id);
    } else {
      var room := Room(l, t, e.id, e.at);
      var g0 := MakeRoom(l, t, before, e.id, e.at, a, length, g);
      if |room.due| >= l.max {
        g' := SpendShared(l, room, e.at, a, length, g0);
      } else {
        g' := Seat(l, room, e.at, a, length, g0, e.id);
      }
    }
  }

  lemma {:induction false} Seating(l: Limits, run: seq<Attempt>, a: Time, length: Duration) returns (g: Seats)
    requires l.Valid() && Ordered(run) && length >= 0
    ensures Seated(l, After(l, run), Clock(run), a, length, g)
    ensures Total(g.slots) == Admitted(l, run, Anyone, a, a + length)
  {
    if run == [] {
      g := Seats(seq(l.max + 1, _ => Slot(ZERO, 0)), map[], map[]);
      TotalOfNone(g.slots);
    } else {
      var n := |run| - 1;
      OrderedPrefix(run);
      var g0 := Seating(l, run[..n], a, length);
      g := SeatAttempt(l, After(l, run[..n]), Clock(run[..n]), run[n], a, length, g0);
    }
  }

  /** The flood bound: whatever callers appear, a run admits at most (max+1)*floor((W+L)/I) attempts
  in any interval of length L. Forgotten callers hand their seat on only once it is whole. */
  lemma FloodBound(l: Limits, run: seq<Attempt>, a: Time, length: Duration)
    requires l.Valid() && Ordered(run) && length >= 0
    ensures Admitted(l, run, Anyone, a, a + length) <= (l.max + 1) * ((l.Window() + length) / l.interval)
  {
    var g := Seating(l, run, a, length);
    var most := (l.Window() + length) / l.interval;
    forall i | 0 <= i < |g.slots| ensures g.slots[i].count <= most {
      CountFits(l, g.slots[i].count, l.Window() + length);
    }
    TotalBound(g.slots, most);
  }

  // ----- the bounds are met --------------------------------------------------------------------

  function Name(i: nat): Digest {
    seq(i, _ => 'x')
  }

  /** The earliest time at which an allowance first used at a admits its k-th attempt. */
  function RoundTime(l: Limits, a: Time, k: nat): Time {
    if k * l.interval <= l.Window() then a else a + k * l.interval - l.Window()
  }

  /** k rounds of one attempt by each of max tracked callers and one stranger, and j attempts more. */
  function Flood(l: Limits, a: Time, k: nat, j: nat): seq<Attempt>
    requires l.max >= 0
    decreases k, j
  {
    if j > 0 then Flood(l, a, k, j - 1) + [Attempt(Name(j - 1), RoundTime(l, a, k + 1))]
    else if k > 0 then Flood(l, a, k - 1, l.max + 1)
    else []
  }

  /** The due time of an allowance that has admitted n attempts of the flood. */
  function DueAfter(l: Limits, a: Time, n: nat): Time {
    if n == 0 then ZERO else a + n * l.interval
  }

  /** In the middle of a round: j allowances are due at next, and the others as after the round before,
  in which all callers were tracked unless this is the first. */
  ghost predicate Flooded(l: Limits, first: bool, j: nat, was: Time, next: Time, t: Table) {
    && (forall x :: x in t.due <==> |x| < l.max && x == Name(|x|) && (first ==> |x| < j))
    && (forall x :: x in t.due ==> t.due[x] == if |x| < j then next else was)
    && |t.due| == (if first && j <= l.max then j else l.max)
    && t.overflow == if j > l.max then next else was
  }

  ghost predicate FloodedAt(l: Limits, a: Time, k: nat, j: nat, t: Table) {
    Flooded(l, k == 0, j, DueAfter(l, a, k), DueAfter(l, a, k + 1), t)
  }

  /** An allowance that admitted k attempts admits one more at the next round's time. */
  lemma NextRound(l: Limits, a: Time, k: nat)
    requires l.Valid() && a > ZERO
    ensures TakeAt(l, DueAfter(l, a, k), RoundTime(l, a, k + 1)) == Spent(Verdict(true, 0), DueAfter(l, a, k + 1))
    ensures a <= RoundTime(l, a, k) <= RoundTime(l, a, k + 1) < DueAfter(l, a, k + 1)
  {
    assert (k + 1) * l.interval == k * l.interval + l.interval;
    MulNonNegative(k, l.interval);
  }

  lemma FloodStranger(l: Limits, first: bool, was: Time, next: Time, at: Time, t: Table)
    requires l.Valid() && Flooded(l, first, l.max, was, next, t)
    requires TakeAt(l, was, at) == Spent(Verdict(true, 0), next) && at < next
    ensures var answer := AllowAt(l, t, Name(l.max), at);
      answer.verdict.ok && answer.route == Overflow && Flooded(l, first, l.max + 1, was, next, answer.table)
  {
    assert Unspent(t.due, at) == t.due;
    assert Room(l, t, Name(l.max), at).due == t.due;
  }

  lemma FloodCaller(l: Limits, first: bool, j: nat, was: Time, next: Time, at: Time, t: Table)
    requires l.Valid() && j < l.max && Flooded(l, first, j, was, next, t) && (first ==> was == ZERO)
    requires TakeAt(l, was, at) == Spent(Verdict(true, 0), next)
    ensures var answer := AllowAt(l, t, Name(j), at);
      answer.verdict.ok && answer.route == Tracked && Flooded(l, first, j + 1, was, next, answer.table)
  {
    var x := Name(j);
    var due := t.due[x := next];
    InsertSize(t.due, x, next);
    assert due.Keys == t.due.Keys + {x};
    assert Room(l, t, x, at) == t && DueOf(t.due, x) == was;
    assert AllowAt(l, t, x, at).table == t.(due := due);
  }

  /** The attempt j of a flood's round is the payer's. */
  predicate Covers(l: Limits, payer: Payer, j: nat) {
    match payer
    case Anyone => true
    case Caller(id) => j < l.max && id == Name(j)
    case Shared => j == l.max
  }

  function Share(l: Limits, payer: Payer, j: nat): nat {
    if j == 0 then 0 else Share(l, payer, j - 1) + if Covers(l, payer, j - 1) then 1 else 0
  }

  lemma {:induction false} ShareOf(l: Limits, payer: Payer, j: nat)
    ensures payer == Anyone ==> Share(l, payer, j) == j
    ensures payer == Shared && l.max >= 0 ==> Share(l, payer, j) == if j > l.max then 1 else 0
    ensures payer.Caller? && payer.id == Name(|payer.id|) && |payer.id| < l.max ==>
      Share(l, payer, j) == if j > |payer.id| then 1 else 0
  {
    if j > 0 {
      ShareOf(l, payer, j - 1);
    }
  }

  lemma OrderedStep(run: seq<Attempt>, e: Attempt)
    requires Ordered(run) && ZERO < e.at && Clock(run) <= e.at
    ensures Ordered(run + [e])
  {
  }

  lemma AdmittedStep(l: Limits, run: seq<Attempt>, e: Attempt, payer: Payer, a: Time, b: Time)
    ensures Admitted(l, run + [e], payer, a, b) ==
            Admitted(l, run, payer, a, b) + if Counts(l, run + [e], payer, a, b) then 1 else 0
  {
    assert (run + [e])[..|run|] == run;
  }

  lemma RoundInside(l: Limits, a: Time, k: nat, length: Duration)
    requires l.Valid() && length >= 0 && k * l.interval <= l.Window() + length
    ensures a <= RoundTime(l, a, k) <= a + length
  {
  }

  /** Every attempt of the flood is admitted, and from the allowance meant for it. */
  lemma FloodStep(l: Limits, a: Time, k: nat, j: nat, t: Table)
    requires l.Valid() && a > ZERO && j <= l.max && FloodedAt(l, a, k, j, t)
    ensures var answer := AllowAt(l, t, Name(j), RoundTime(l, a, k + 1));
      && answer.verdict.ok && answer.route == (if j < l.max then Tracked else Overflow)
      && FloodedAt(l, a, k, j + 1, answer.table)
  {
    var was, next, at := DueAfter(l, a, k), DueAfter(l, a, k + 1), RoundTime(l, a, k + 1);
    NextRound(l, a, k);
    if j < l.max {
      FloodCaller(l, k == 0, j, was, next, at, t);
    } else {
      FloodStranger(l, k == 0, was, next, at, t);
    }
  }

  lemma RoundOver(l: Limits, a: Time, k: nat, t: Table)
    requires k > 0 && l.max >= 0 && FloodedAt(l, a, k - 1, l.max + 1, t)
    ensures FloodedAt(l, a, k, 0, t)
  {
  }

  lemma {:induction false} FloodGoesOn(l: Limits, a: Time, k: nat, j: nat)
    requires l.Valid() && a > ZERO && j <= l.max && FloodedAt(l, a, k, j, After(l, Flood(l, a, k, j)))
    ensures FloodedAt(l, a, k, j + 1, After(l, Flood(l, a, k, j + 1)))
  {
    var before, e := Flood(l, a, k, j), Attempt(Name(j), RoundTime(l, a, k + 1));
    FloodStep(l, a, k, j, After(l, before));
    AfterStep(l, before, e);
    assert Flood(l, a, k, j + 1) == before + [e];
  }

  lemma {:induction false} RoundLeaves(l: Limits, a: Time, k: nat, j: nat)
    requires l.Valid() && a > ZERO && j <= l.max + 1 && FloodedAt(l, a, k, 0, After(l, Flood(l, a, k, 0)))
    ensures FloodedAt(l, a, k, j, After(l, Flood(l, a, k, j)))
  {
    if j > 0 {
      RoundLeaves(l, a, k, j - 1);
      FloodGoesOn(l, a, k, j - 1);
    }
  }

  lemma {:induction false} RoundsLeave(l: Limits, a: Time, k: nat)
    requires l.Valid() && a > ZERO
    ensures FloodedAt(l, a, k, 0, After(l, Flood(l, a, k, 0)))
  {
    if k == 0 {
      assert After(l, Flood(l, a, 0, 0)) == EMPTY;
    } else {
      RoundsLeave(l, a, k - 1);
      RoundLeaves(l, a, k - 1, l.max + 1);
      RoundOver(l, a, k, After(l, Flood(l, a, k - 1, l.max + 1)));
      assert Flood(l, a, k, 0) == Flood(l, a, k - 1, l.max + 1);
    }
  }

  lemma {:induction false} FloodIsOrdered(l: Limits, a: Time, k: nat, j: nat)
    requires l.Valid() && a > ZERO
    ensures Ordered(Flood(l, a, k, j))
    ensures Clock(Flood(l, a, k, j)) <= RoundTime(l, a, if j > 0 then k + 1 else k)
    decreases k, j
  {
    if j > 0 {
      NextRound(l, a, k);
      FloodIsOrdered(l, a, k, j - 1);
      OrderedStep(Flood(l, a, k, j - 1), Attempt(Name(j - 1), RoundTime(l, a, k + 1)));
    } else if k > 0 {
      FloodIsOrdered(l, a, k - 1, l.max + 1);
    }
  }

  lemma {:induction false} FloodAdmits(l: Limits, a: Time, k: nat, j: nat, payer: Payer, length: Duration)
    requires l.Valid() && a > ZERO && length >= 0 && j <= l.max
    requires (k + 1) * l.interval <= l.Window() + length
    ensures var b := a + length;
      Admitted(l, Flood(l, a, k, j + 1), payer, a, b) ==
      Admitted(l, Flood(l, a, k, j), payer, a, b) + if Covers(l, payer, j) then 1 else 0
  {
    var before, e := Flood(l, a, k, j), Attempt(Name(j), RoundTime(l, a, k + 1));
    RoundsLeave(l, a, k);
    RoundLeaves(l, a, k, j);
    FloodStep(l, a, k, j, After(l, before));
    RoundInside(l, a, k + 1, length);
    AfterStep(l, before, e);
    AdmittedStep(l, before, e, payer, a, a + length);
  }

  lemma {:induction false} RoundAdmits(l: Limits, a: Time, k: nat, j: nat, payer: Payer, length: Duration)
    requires l.Valid() && a > ZERO && length >= 0 && j <= l.max + 1
    requires (k + 1) * l.interval <= l.Window() + length
    ensures var b := a + length;
      Admitted(l, Flood(l, a, k, j), payer, a, b) ==
      Admitted(l, Flood(l, a, k, 0), payer, a, b) + Share(l, payer, j)
  {
    if j > 0 {
      RoundAdmits(l, a, k, j - 1, payer, length);
      FloodAdmits(l, a, k, j - 1, payer, length);
    }
  }

  lemma {:induction false} RoundsAdmit(l: Limits, a: Time, k: nat, payer: Payer, length: Duration)
    requires l.Valid() && a > ZERO && length >= 0 && k * l.interval <= l.Window() + length
    ensures Admitted(l, Flood(l, a, k, 0), payer, a, a + length) == k * Share(l, payer, l.max + 1)
  {
    if k > 0 {
      MulMonotone(k - 1, k, l.interval);
      RoundsAdmit(l, a, k - 1, payer, length);
      RoundAdmits(l, a, k - 1, l.max + 1, payer, length);
      TimesNext(k, Share(l, payer, l.max + 1));
      assert Flood(l, a, k, 0) == Flood(l, a, k - 1, l.max + 1);
    }
  }

  lemma TimesNext(k: nat, x: int)
    requires k > 0
    ensures k * x == (k - 1) * x + x
  {
  }

  lemma MostFits(l: Limits, total: int)
    requires l.interval > 0 && total >= 0
    ensures 0 <= total / l.interval && total / l.interval * l.interval <= total
  {
    DivBounds(total, l.interval);
  }

  lemma {:induction false} FloodTotal(l: Limits, a: Time, length: Duration, payer: Payer, share: nat)
    requires l.Valid() && a > ZERO && length >= 0 && share == Share(l, payer, l.max + 1)
    ensures var most := (l.Window() + length) / l.interval;
      most >= 0 && Admitted(l, Flood(l, a, most, 0), payer, a, a + length) == share * most
  {
    MostFits(l, l.Window() + length);
    RoundsAdmit(l, a, (l.Window() + length) / l.interval, payer, length);
  }

  /** Both bounds are exact: in every interval of every length one run admits floor((W+L)/I) attempts
  from each of max callers and from the shared allowance, (max+1)*floor((W+L)/I) in all. */
  lemma {:induction false} BoundsAreMet(l: Limits, a: Time, length: Duration) returns (run: seq<Attempt>)
    requires l.Valid() && a > ZERO && length >= 0
    ensures Ordered(run)
    ensures var most := (l.Window() + length) / l.interval;
      && Admitted(l, run, Anyone, a, a + length) == (l.max + 1) * most
      && Admitted(l, run, Shared, a, a + length) == most
      && forall i: nat :: i < l.max ==> Admitted(l, run, Caller(Name(i)), a, a + length) == most
  {
    ShareOf(l, Anyone, l.max + 1);
    FloodTotal(l, a, length, Anyone, l.max + 1);
    ShareOf(l, Shared, l.max + 1);
    FloodTotal(l, a, length, Shared, 1);
    var most: nat := (l.Window() + length) / l.interval;
    run := Flood(l, a, most, 0);
    FloodIsOrdered(l, a, most, 0);
    forall i: nat | i < l.max ensures Admitted(l, run, Caller(Name(i)), a, a + length) == most {
      ShareOf(l, Caller(Name(i)), l.max + 1);
      FloodTotal(l, a, length, Caller(Name(i)), 1);
    }
  }

  // ----- forgetting changes nothing ------------------------------------------------------------

  /** A limiter that keeps every tracked caller's due time forever. */
  function Remembered(l: Limits, run: seq<Attempt>): map<Digest, Time> {
    if run == [] then map[]
    else
      var n := |run| - 1;
      var due := Remembered(l, run[..n]);
      if Last(l, run).route == Overflow then due
      else due[run[n].id := TakeAt(l, DueOf(due, run[n].id), run[n].at).due]
  }

  lemma {:induction false} ForgottenIsWhole(l: Limits, run: seq<Attempt>)
    requires l.Valid() && Ordered(run)
    ensures forall id :: id in After(l, run).due ==> DueOf(Remembered(l, run), id) == After(l, run).due[id]
    ensures forall id :: id !in After(l, run).due ==> DueOf(Remembered(l, run), id) <= Clock(run)
  {
    if run != [] {
      OrderedPrefix(run);
      var n := |run| - 1;
      ForgottenIsWhole(l, run[..n]);
      var due := Remembered(l, run[..n]);
      if run[n].id !in After(l, run[..n]).due {
        WholeIsNew(l, ZERO, DueOf(due, run[n].id), run[n].at);
      }
    }
  }

  /** Every attempt not routed to the shared allowance is answered, verdict and delay, exactly as a
  limiter that never forgets would answer it. */
  lemma ForgettingChangesNothing(l: Limits, run: seq<Attempt>)
    requires l.Valid() && Ordered(run) && run != [] && Last(l, run).route == Tracked
    ensures var e := run[|run| - 1];
      Last(l, run).verdict == TakeAt(l, DueOf(Remembered(l, run[..|run| - 1]), e.id), e.at).verdict
  {
    OrderedPrefix(run);
    var n := |run| - 1;
    ForgottenIsWhole(l, run[..n]);
    if run[n].id !in After(l, run[..n]).due {
      WholeIsNew(l, ZERO, DueOf(Remembered(l, run[..n]), run[n].id), run[n].at);
    }
  }

  /** A caller shares the overflow allowance if and only if it is untracked, the table is full, and
  no caller can be forgotten for it: the table was swept within one share, or nobody is whole. */
  lemma OverflowExactlyWhenFull(l: Limits, t: Table, id: Digest, now: Time)
    requires l.Valid() && TableOk(l, t)
    ensures AllowAt(l, t, id, now).route == Overflow <==>
            && id !in t.due && |t.due| == l.max
            && (now - t.swept < l.interval || forall x :: x in t.due ==> t.due[x] > now)
  {
    SubCompares(now, t.swept, l.interval);
    var kept := Unspent(t.due, now);
    if x :| x in t.due && t.due[x] <= now {
      SubsetSize(kept.Keys, t.due.Keys - {x});
    } else {
      assert kept == t.due;
    }
  }

  /** A new caller with a place in the table has its whole burst, so its first attempt passes. */
  lemma NewCallerPasses(l: Limits, t: Table, id: Digest, now: Time)
    requires l.Valid() && TableOk(l, t) && now > ZERO && id !in t.due
    requires |t.due| < l.max || (now - t.swept >= l.interval && exists x :: x in t.due && t.due[x] <= now)
    ensures var answer := AllowAt(l, t, id, now);
      answer.verdict == Verdict(true, 0) && answer.table.due[id := now + l.interval] == answer.table.due
  {
    OverflowExactlyWhenFull(l, t, id, now);
    WholeIsNew(l, ZERO, ZERO, now);
  }

  // ----- what an allowance gives ---------------------------------------------------------------

  /** The due time after n attempts at once. */
  function Burst(l: Limits, due: Time, now: Time, n: nat): Time {
    if n == 0 then due else TakeAt(l, Burst(l, due, now, n - 1), now).due
  }

  lemma {:induction false} BurstDue(l: Limits, due: Time, now: Time, n: nat)
    requires l.Valid() && due <= now && n * l.interval <= l.Window()
    ensures n > 0 ==> Burst(l, due, now, n) == now + n * l.interval
  {
    if n > 0 {
      assert n * l.interval == (n - 1) * l.interval + l.interval;
      MulNonNegative(n - 1, l.interval);
      BurstDue(l, due, now, n - 1);
    }
  }

  lemma {:induction false} BurstSpent(l: Limits, due: Time, now: Time, n: nat)
    requires l.Valid() && due <= now && n * l.interval <= l.Window() < (n + 1) * l.interval
    ensures forall k: nat :: k >= n ==> Burst(l, due, now, k) == Burst(l, due, now, n)
  {
    BurstDue(l, due, now, n);
    assert (n + 1) * l.interval == n * l.interval + l.interval;
    forall k: nat | k >= n ensures Burst(l, due, now, k) == Burst(l, due, now, n) {
      BurstStays(l, due, now, n, k);
    }
  }

  lemma {:induction false} BurstStays(l: Limits, due: Time, now: Time, n: nat, k: nat)
    requires k >= n && !TakeAt(l, Burst(l, due, now, n), now).verdict.ok
    ensures Burst(l, due, now, k) == Burst(l, due, now, n)
  {
    if k > n {
      BurstStays(l, due, now, n, k - 1);
    }
  }

  /** A whole allowance grants exactly floor(W/I) attempts at once: the k-th is admitted if and only
  if it is within them. */
  lemma BurstIsExact(l: Limits, due: Time, now: Time, k: nat)
    requires l.Valid() && due <= now && k >= 1
    ensures TakeAt(l, Burst(l, due, now, k - 1), now).verdict.ok <==> k <= l.Window() / l.interval
  {
    var q := l.Window() / l.interval;
    DivBounds(l.Window(), l.interval);
    assert (q + 1) * l.interval == q * l.interval + l.interval;
    if k <= q {
      MulMonotone(k, q, l.interval);
      assert k * l.interval == (k - 1) * l.interval + l.interval;
      MulNonNegative(k - 1, l.interval);
      BurstDue(l, due, now, k - 1);
    } else {
      BurstDue(l, due, now, q);
      BurstSpent(l, due, now, q);
      assert Burst(l, due, now, k - 1) == Burst(l, due, now, q);
    }
  }

  /** The configured number of attempts is what a burst grants if and only if the window's remainder
  is less than one attempt's share; otherwise a burst grants more. */
  lemma BurstIsAttempts(c: Config)
    requires c.window <= MAX_DURATION
    ensures NewLimits(c).Some? ==>
      var l := NewLimits(c).value;
      && c.attempts <= l.Window() / l.interval
      && (l.Window() / l.interval == c.attempts <==> c.window % c.attempts < l.interval)
  {
    if NewLimits(c).Some? {
      var l := NewLimits(c).value;
      var i := l.interval;
      assert c.window == c.attempts * i + c.window % c.attempts;
      CountFits(l, c.attempts, c.window);
      var q := c.window / i;
      DivBounds(c.window, i);
      if q > c.attempts {
        MulMonotone(c.attempts + 1, q, i);
        assert (c.attempts + 1) * i == c.attempts * i + i;
      }
    }
  }

  /** Six attempts in ten nanoseconds: the share is one nanosecond, and the tenth at once passes. */
  lemma BurstExceedsAttempts(c: Config, tenth: nat, now: Time)
    requires c == Config(6, 10, 1) && tenth == 10 && now >= ZERO
    ensures NewLimits(c).Some? && tenth > c.attempts
    ensures var l := NewLimits(c).value; TakeAt(l, Burst(l, ZERO, now, tenth - 1), now).verdict.ok
  {
    BurstIsExact(NewLimits(c).value, ZERO, now, tenth);
  }

  /** One allowance left alone refuses any attempt before the delay is over and admits one from then on. */
  lemma DelayOfOneTake(l: Limits, due: Time, now: Time, later: Time)
    requires l.Valid() && now <= later && due <= now + l.Window()
    requires !TakeAt(l, due, now).verdict.ok
    ensures TakeAt(l, due, later).verdict.ok <==> later >= now + TakeAt(l, due, now).verdict.after
    ensures due == now + TakeAt(l, due, now).verdict.after + l.tolerance
  {
  }

  // ----- the delay a refusal names --------------------------------------------------------------

  ghost predicate Without(run: seq<Attempt>, id: Digest) {
    forall i :: 0 <= i < |run| ==> run[i].id != id
  }

  /** An attempt of another leaves a caller's record alone until its due time has passed and a sweep is
  due. */
  lemma OthersLeaveAlone(l: Limits, t: Table, e: Attempt, id: Digest)
    requires l.Valid() && e.id != id && id in t.due && (e.at < t.due[id] || e.at < t.swept + l.interval)
    ensures var t' := AllowAt(l, t, e.id, e.at).table;
      && id in t'.due && t'.due[id] == t.due[id]
      && (e.at < t.swept + l.interval ==> t'.swept == t.swept)
  {
    SubCompares(e.at, t.swept, l.interval);
  }

  lemma {:induction false} RecordStays(l: Limits, run: seq<Attempt>, more: seq<Attempt>, id: Digest)
    requires l.Valid() && run != [] && Ordered(run + more) && Without(more, id) && id in After(l, run).due
    requires Clock(run + more) < After(l, run).due[id] || Clock(run + more) < After(l, run).swept + l.interval
    ensures id in After(l, run + more).due && After(l, run + more).due[id] == After(l, run).due[id]
    ensures Clock(run + more) < After(l, run).swept + l.interval ==> After(l, run + more).swept == After(l, run).swept
  {
    if more == [] {
      assert run + more == run;
    } else {
      var n := |more| - 1;
      var all, before := run + more, run + more[..n];
      assert all == before + [more[n]] && all[..|all| - 1] == before;
      OrderedPrefix(all);
      RecordStays(l, run, more[..n], id);
      AfterStep(l, before, more[n]);
      OthersLeaveAlone(l, After(l, before), more[n], id);
    }
  }

  /** The run goes on with attempts of others, and then the caller of its last attempt tries again. */
  ghost predicate Continues(run: seq<Attempt>, more: seq<Attempt>, later: Time)
    requires run != []
  {
    var id := run[|run| - 1].id;
    Without(more, id) && Ordered(run + more + [Attempt(id, later)])
  }

  /** Whatever others attempt meanwhile, the last caller's next attempt is admitted if made then. */
  ghost predicate Promised(l: Limits, run: seq<Attempt>, later: Time)
    requires run != []
  {
    forall more :: Continues(run, more, later) ==> Last(l, run + more + [Attempt(run[|run| - 1].id, later)]).verdict.ok
  }

  /** Until when a caller's record is safe: it is forgotten only when it is due and a sweep is. */
  function Remembers(l: Limits, t: Table, id: Digest): Time
    requires id in t.due
  {
    if t.due[id] < t.swept + l.interval then t.swept + l.interval else t.due[id]
  }

  /** A tracked refusal is kept in the table, and due within the window. */
  lemma RefusedIsRecorded(l: Limits, run: seq<Attempt>)
    requires l.Valid() && Ordered(run) && run != [] && Last(l, run).route == Tracked && !Last(l, run).verdict.ok
    ensures var e, t := run[|run| - 1], After(l, run);
      && e.id in t.due && Last(l, run).verdict == TakeAt(l, t.due[e.id], e.at).verdict
      && t.due[e.id] <= e.at + l.Window()
  {
    var s := AllowanceSlot(l, run, Caller(run[|run| - 1].id), ZERO, 0);
  }

  /** While the record is safe, the delay is exact in every continuation. */
  lemma {:induction false} DelayIsKept(l: Limits, run: seq<Attempt>, more: seq<Attempt>, later: Time)
    requires l.Valid() && Ordered(run) && run != [] && Last(l, run).route == Tracked && !Last(l, run).verdict.ok
    requires Continues(run, more, later)
    ensures var e := run[|run| - 1];
      && e.id in After(l, run).due
      && (later < Remembers(l, After(l, run), e.id) || more == [] ==>
          (Last(l, run + more + [Attempt(e.id, later)]).verdict.ok <==> later >= e.at + Last(l, run).verdict.after))
  {
    var e, all := run[|run| - 1], run + more;
    var last := all + [Attempt(e.id, later)];
    assert last[..|last| - 1] == all && last[|last| - 1] == Attempt(e.id, later) && last[|run| - 1] == e;
    OrderedPrefix(last);
    RefusedIsRecorded(l, run);
    var due := After(l, run).due[e.id];
    if more == [] {
      assert all == run;
    } else if later < Remembers(l, After(l, run), e.id) {
      RecordStays(l, run, more, e.id);
    }
    AfterStep(l, all, Attempt(e.id, later));
    DelayOfOneTake(l, due, e.at, later);
  }

  // ----- a crowd can take the place of any caller that is not remembered ------------------------

  /** The longer run adds attempts at one time, none of them by the caller. */
  ghost predicate Adds(run: seq<Attempt>, longer: seq<Attempt>, id: Digest, at: Time) {
    && |run| <= |longer| && longer[..|run|] == run
    && (forall i :: |run| <= i < |longer| ==> longer[i].at == at && longer[i].id != id)
  }

  lemma AddsMore(run: seq<Attempt>, longer: seq<Attempt>, longest: seq<Attempt>, id: Digest, at: Time)
    requires Adds(run, longer, id, at) && Adds(longer, longest, id, at)
    ensures Adds(run, longest, id, at)
  {
    assert longest[..|run|] == longest[..|longer|][..|run|];
    forall i | |run| <= i < |longest| ensures longest[i].at == at && longest[i].id != id {
      assert i < |longer| ==> longest[i] == longest[..|longer|][i];
    }
  }

  lemma {:induction false} LongerThanAll(ids: set<Digest>) returns (n: nat)
    ensures forall x :: x in ids ==> |x| < n
  {
    n := 0;
    if ids != {} {
      var x :| x in ids;
      var m := LongerThanAll(ids - {x});
      n := if m <= |x| then |x| + 1 else m;
    }
  }

  lemma NewName(ids: set<Digest>) returns (x: Digest)
    ensures x !in ids
  {
    var n := LongerThanAll(ids);
    x := seq(n, _ => 'x');
  }

  /** A new caller finds a place while there is one. */
  lemma Placed(l: Limits, t: Table, x: Digest, at: Time)
    requires l.Valid() && at > ZERO && x !in t.due && |t.due| < l.max
    ensures var answer := AllowAt(l, t, x, at);
      && answer.verdict.ok && answer.route == Tracked && answer.table == t.(due := t.due[x := at + l.interval])
      && |answer.table.due| == |t.due| + 1
  {
    assert t.due[x := at + l.interval].Keys == t.due.Keys + {x};
  }

  /** New callers fill the table and touch nothing else. */
  lemma {:induction false} Fill(l: Limits, run: seq<Attempt>, id: Digest, at: Time) returns (full: seq<Attempt>)
    requires l.Valid() && at > ZERO
    requires |After(l, run).due| <= l.max
    ensures Adds(run, full, id, at) && |After(l, full).due| == l.max
    ensures var t, t' := After(l, run), After(l, full);
      && t'.overflow == t.overflow && t'.swept == t.swept
      && (id in t'.due <==> id in t.due) && (id in t.due ==> t'.due[id] == t.due[id])
    decreases l.max - |After(l, run).due|
  {
    var t := After(l, run);
    if |t.due| == l.max {
      full := run;
    } else {
      var x := NewName(t.due.Keys + {id});
      Placed(l, t, x, at);
      AfterStep(l, run, Attempt(x, at));
      full := Fill(l, run + [Attempt(x, at)], id, at);
    }
  }

  /** One new caller more makes the table forget a caller that is not safe, if it still knows it, and
  after it the table has just been swept. */
  lemma Displace(l: Limits, run: seq<Attempt>, id: Digest, at: Time) returns (swept: seq<Attempt>)
    requires l.Valid() && at > ZERO && |After(l, run).due| == l.max
    requires id in After(l, run).due ==> Remembers(l, After(l, run), id) <= at
    ensures Adds(run, swept, id, at)
    ensures var t := After(l, swept); id !in t.due && |t.due| <= l.max && at < t.swept + l.interval
  {
    var t := After(l, run);
    var x := NewName(t.due.Keys + {id});
    AfterStep(l, run, Attempt(x, at));
    AllowKeepsSize(l, t, x, at);
    SubCompares(at, t.swept, l.interval);
    swept := run + [Attempt(x, at)];
  }

  /** On a full table just swept, a new caller drains the shared allowance. */
  lemma {:induction false} Drain(l: Limits, run: seq<Attempt>, id: Digest, x: Digest, at: Time)
    returns (drained: seq<Attempt>)
    requires l.Valid() && at > ZERO && |After(l, run).due| == l.max && at < After(l, run).swept + l.interval
    requires id !in After(l, run).due && x !in After(l, run).due && x != id
    ensures Adds(run, drained, id, at)
    ensures !AllowAt(l, After(l, drained), id, at).verdict.ok
    decreases at + l.Window() - (if After(l, run).overflow < at then at else After(l, run).overflow)
  {
    var t := After(l, run);
    SubCompares(at, t.swept, l.interval);
    if TakeAt(l, t.overflow, at).verdict.ok {
      AfterStep(l, run, Attempt(x, at));
      drained := Drain(l, run + [Attempt(x, at)], id, x, at);
    } else {
      drained := run;
    }
  }

  /** Any caller that is not safe in the table can be crowded out at once, and refused. */
  lemma {:induction false} Crowd(l: Limits, run: seq<Attempt>, id: Digest, at: Time) returns (crowded: seq<Attempt>)
    requires l.Valid() && at > ZERO
    requires id in After(l, run).due ==> Remembers(l, After(l, run), id) <= at
    ensures Adds(run, crowded, id, at) && !AllowAt(l, After(l, crowded), id, at).verdict.ok
  {
    TableIsBounded(l, run);
    var full := Fill(l, run, id, at);
    var swept := Displace(l, full, id, at);
    var refilled := Fill(l, swept, id, at);
    var x := NewName(After(l, refilled).due.Keys + {id});
    crowded := Drain(l, refilled, id, x, at);
    AddsMore(run, full, swept, id, at);
    AddsMore(run, swept, refilled, id, at);
    AddsMore(run, refilled, crowded, id, at);
  }

  /** So nothing is promised to the last caller of a run from when its record is no longer safe. */
  lemma {:induction false} NotPromised(l: Limits, run: seq<Attempt>, later: Time)
    requires l.Valid() && Ordered(run) && run != [] && later >= Clock(run)
    requires var id := run[|run| - 1].id; id in After(l, run).due ==> Remembers(l, After(l, run), id) <= later
    ensures !Promised(l, run, later)
  {
    var id := run[|run| - 1].id;
    var crowded := Crowd(l, run, id, later);
    var more := crowded[|run|..];
    assert run + more == crowded;
    AfterStep(l, crowded, Attempt(id, later));
    assert Continues(run, more, later);
  }

  /** The delay of a refusal, over every run of the limiter and all that others may attempt meanwhile:
  a tracked caller is sure to be admitted if and only if the delay is over and its record is still
  safe, that is, before its due time or before the next sweep. */
  lemma {:induction false} RetryAfterIsExact(l: Limits, run: seq<Attempt>, later: Time)
    requires l.Valid() && Ordered(run) && run != [] && Last(l, run).route == Tracked && !Last(l, run).verdict.ok
    requires later >= Clock(run)
    ensures var e, t := run[|run| - 1], After(l, run);
      && e.id in t.due
      && (Promised(l, run, later) <==>
          e.at + Last(l, run).verdict.after <= later && (later < t.due[e.id] || later < t.swept + l.interval))
  {
    var e, t := run[|run| - 1], After(l, run);
    RefusedIsRecorded(l, run);
    if later >= Remembers(l, t, e.id) {
      NotPromised(l, run, later);
    } else if later < e.at + Last(l, run).verdict.after {
      assert Continues(run, [], later);
      DelayIsKept(l, run, [], later);
    } else {
      forall more | Continues(run, more, later)
        ensures Last(l, run + more + [Attempt(e.id, later)]).verdict.ok
      {
        DelayIsKept(l, run, more, later);
      }
    }
  }

  /** An overflow refusal leaves the caller unknown to a full table. */
  lemma OverflowIsUnknown(l: Limits, run: seq<Attempt>)
    requires l.Valid() && Ordered(run) && run != [] && Last(l, run).route == Overflow && !Last(l, run).verdict.ok
    ensures var e, t := run[|run| - 1], After(l, run);
      && e.id !in t.due && |t.due| == l.max && t.overflow <= e.at + l.Window()
      && Last(l, run).verdict == TakeAt(l, t.overflow, e.at).verdict
  {
    TableIsBounded(l, run);
    var s := AllowanceSlot(l, run, Shared, ZERO, 0);
  }

  /** A refusal by the shared allowance promises nothing: at no later time is the caller sure to be
  admitted, whatever delay it was told. */
  lemma {:induction false} OverflowPromisesNothing(l: Limits, run: seq<Attempt>, later: Time)
    requires l.Valid() && Ordered(run) && run != [] && Last(l, run).route == Overflow && !Last(l, run).verdict.ok
    requires later >= Clock(run)
    ensures !Promised(l, run, later)
  {
    OverflowIsUnknown(l, run);
    NotPromised(l, run, later);
  }

  /** Left alone, that caller is admitted if and only if the delay is over or a place can be made for
  it: a sweep is due and some tracked caller is whole. */
  lemma {:induction false} OverflowLeftAlone(l: Limits, run: seq<Attempt>, later: Time)
    requires l.Valid() && Ordered(run) && run != [] && Last(l, run).route == Overflow && !Last(l, run).verdict.ok
    requires later >= Clock(run)
    ensures var e, t := run[|run| - 1], After(l, run);
      Last(l, run + [Attempt(e.id, later)]).verdict.ok <==>
      || later >= e.at + Last(l, run).verdict.after
      || (later >= t.swept + l.interval && exists x :: x in t.due && t.due[x] <= later)
  {
    var e, t := run[|run| - 1], After(l, run);
    OverflowIsUnknown(l, run);
    AfterStep(l, run, Attempt(e.id, later));
    OverflowExactlyWhenFull(l, t, e.id, later);
    DelayOfOneTake(l, t.overflow, e.at, later);
  }

  /** One caller tracked, one attempt each ten nanoseconds: A is refused at 2 with a delay of 9, is
  forgotten for B at 11 while C spends the overflow, and is refused again at 12. */
  lemma {:induction false} RetryCanBeRefused(l: Limits, run: seq<Attempt>, more: seq<Attempt>, again: Attempt)
    requires l == Limits(10, 0, 1)
    requires run == [Attempt("A", 1), Attempt("A", 2)] && more == [Attempt("B", 11), Attempt("C", 11)]
    requires again == Attempt("A", 12)
    ensures Last(l, run).verdict == Verdict(false, 9) && again.at >= 2 + 9
    ensures Last(l, run + more + [again]).verdict == Verdict(false, 9)
  {
    assert run == [] + [Attempt("A", 1)] + [Attempt("A", 2)];
    AfterStep(l, [], Attempt("A", 1));
    AfterStep(l, [] + [Attempt("A", 1)], Attempt("A", 2));
    assert After(l, run) == Table(map["A" := 11], ZERO, ZERO);
    assert run + more == run + [Attempt("B", 11)] + [Attempt("C", 11)];
    AfterStep(l, run, Attempt("B", 11));
    assert Unspent(map["A" := 11], 11) == map[];
    assert After(l, run + [Attempt("B", 11)]) == Table(map["B" := 21], ZERO, 11);
    AfterStep(l, run + [Attempt("B", 11)], Attempt("C", 11));
    assert After(l, run + more) == Table(map["B" := 21], 21, 11);
    AfterStep(l, run + more, again);
  }

  /** The same limiter: X is refused by the shared allowance at 3 with a delay of 9. Alone it is admitted
  before that is over, at 11; after A and Y it is refused when it is, at 12. */
  lemma {:induction false} OverflowRetryCanBeRefused(l: Limits, run: seq<Attempt>, more: seq<Attempt>)
    requires l == Limits(10, 0, 1)
    requires run == [Attempt("A", 1), Attempt("X", 2), Attempt("X", 3)]
    requires more == [Attempt("A", 11), Attempt("Y", 12)]
    ensures Last(l, run).verdict == Verdict(false, 9) && Last(l, run).route == Overflow
    ensures Last(l, run + [Attempt("X", 11)]).verdict.ok
    ensures Last(l, run + more + [Attempt("X", 12)]).verdict == Verdict(false, 10)
  {
    OverflowExampleRefused(l, run);
    AfterStep(l, run, Attempt("X", 11));
    assert Unspent(map["A" := 11], 11) == map[];
    var four := run + [Attempt("A", 11)];
    assert run + more == four + [Attempt("Y", 12)];
    AfterStep(l, run, Attempt("A", 11));
    AfterStep(l, four, Attempt("Y", 12));
    assert Unspent(map["A" := 21], 12) == map["A" := 21];
    AfterStep(l, run + more, Attempt("X", 12));
  }

  lemma {:induction false} OverflowExampleRefused(l: Limits, run: seq<Attempt>)
    requires l == Limits(10, 0, 1)
    requires run == [Attempt("A", 1), Attempt("X", 2), Attempt("X", 3)]
    ensures Last(l, run) == Answer(Verdict(false, 9), Overflow, Table(map["A" := 11], 12, ZERO))
  {
    var one, two := [] + [Attempt("A", 1)], [] + [Attempt("A", 1)] + [Attempt("X", 2)];
    assert run == two + [Attempt("X", 3)];
    AfterStep(l, [], Attempt("A", 1));
    AfterStep(l, one, Attempt("X", 2));
    AfterStep(l, two, Attempt("X", 3));
  }
}
