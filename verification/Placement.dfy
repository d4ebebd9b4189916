/** The role-copy keeper of placement/placement.go: a polling protocol between the membership
register, a service's store and this process, with a window in which a confirmed copy is trusted. */
module Placement {
  import opened Wrappers
  import opened GoTime

  type Tenant = string
  type RoleId = string
  type Key = string
  type Counts = map<RoleId, int>

  /** A tenant's roles, with the version the register answered them at. */
  datatype Definitions = Definitions(version: string, roles: map<RoleId, set<Key>>)

  /** A tenant's copy in the store, and when it was last confirmed. */
  datatype Copy = Copy(defs: Definitions, confirmedAt: Time)

  type Copies = map<Tenant, Copy>

  /** Everything that changes: the store's copies, the keeper's own fields, and the counts the register
  has accepted. */
  datatype State = State(copies: Copies, started: bool, confirmed: map<Tenant, Time>,
                         reported: map<Tenant, Counts>, extra: set<Tenant>, accepted: map<Tenant, Counts>)

  // ----- one visit to a tenant ------------------------------------------------------------------

  /** The register's answer, and the register's time when it gave it. */
  datatype Reply = Unreachable | Unchanged(asked: Time) | Changed(defs: Definitions, asked: Time)

  /** What became of a write to the store: an error may hide a write that was made. */
  datatype Fate = Written | WrittenWithError | NotWritten

  datatype ReportFate = ReportFails | ReportAccepted(unknown: seq<RoleId>)

  /** Everything a sync meets on its way. Counts the store answers as nil are the empty map. */
  datatype Visit = Visit(versionRead: bool, reply: Reply, at: Time, fate: Fate,
                         counts: Option<Counts>, report: ReportFate)

  datatype SyncError = VersionUnread | RolesUnread | CopyNotKept | CountsUnread | ReportRefused
    | RolesGone(unknown: seq<RoleId>)

  datatype Synced = Synced(state: State, error: Option<SyncError>)

  function VersionOf(copies: Copies, tenant: Tenant): string {
    if tenant in copies then copies[tenant].defs.version else ""
  }

  /** Replacing the copy, or confirming the one there is. */
  function Keep(copies: Copies, tenant: Tenant, reply: Reply, at: Time): Copies {
    match reply
    case Changed(d, _) => copies[tenant := Copy(d, at)]
    case Unchanged(_) => if tenant in copies then copies[tenant := copies[tenant].(confirmedAt := at)] else copies
    case Unreachable => copies
  }

  function ReportAt(s: State, tenant: Tenant, v: Visit): Synced {
    match v.counts
    case None => Synced(s, Some(CountsUnread))
    case Some(counts) =>
      if tenant in s.reported && s.reported[tenant] == counts then Synced(s, None)
      else match v.report
        case ReportFails => Synced(s, Some(ReportRefused))
        case ReportAccepted(unknown) =>
          Synced(s.(accepted := s.accepted[tenant := counts], reported := s.reported[tenant := counts]),
                 if unknown != [] then Some(RolesGone(unknown)) else None)
  }

  function SyncAt(s: State, tenant: Tenant, v: Visit): Synced {
    if !v.versionRead then Synced(s, Some(VersionUnread))
    else if v.reply.Unreachable? then Synced(s, Some(RolesUnread))
    else
      var kept := if v.fate.NotWritten? then s else s.(copies := Keep(s.copies, tenant, v.reply, v.at));
      if !v.fate.Written? then Synced(kept, Some(CopyNotKept))
      else ReportAt(kept.(confirmed := s.confirmed[tenant := v.at]), tenant, v)
  }

  // ----- the keeper -----------------------------------------------------------------------------

  /** The service's store, each write one transaction. */
  class RoleStore {
    var copies: Copies

    constructor ()
      ensures copies == map[]
    {
      copies := map[];
    }

    method Version(tenant: Tenant) returns (v: string)
      ensures v == VersionOf(copies, tenant)
    {
      v := if tenant in copies then copies[tenant].defs.version else "";
    }

    method Replace(tenant: Tenant, d: Definitions, at: Time, fate: Fate) returns (ok: bool)
      modifies this
      ensures copies == if fate.NotWritten? then old(copies) else old(copies)[tenant := Copy(d, at)]
      ensures ok == fate.Written?
    {
      if !fate.NotWritten? {
        copies := copies[tenant := Copy(d, at)];
      }
      return fate.Written?;
    }

    method Confirm(tenant: Tenant, at: Time, fate: Fate) returns (ok: bool)
      modifies this
      ensures copies == if fate.NotWritten? then old(copies) else Keep(old(copies), tenant, Unchanged(at), at)
      ensures ok == fate.Written?
    {
      if !fate.NotWritten? && tenant in copies {
        copies := copies[tenant := copies[tenant].(confirmedAt := at)];
      }
      return fate.Written?;
    }
  }

  /** The register's side of the counts. */
  class CountRegister {
    var accepted: map<Tenant, Counts>

    constructor ()
      ensures accepted == map[]
    {
      accepted := map[];
    }

    /** A report that errs was not applied. */
    method Report(tenant: Tenant, counts: Counts, fate: ReportFate) returns (r: Option<seq<RoleId>>)
      modifies this
      ensures accepted == if fate.ReportFails? then old(accepted) else old(accepted)[tenant := counts]
      ensures r == if fate.ReportFails? then None else Some(fate.unknown)
    {
      if fate.ReportFails? {
        return None;
      }
      accepted := accepted[tenant := counts];
      return Some(fate.unknown);
    }
  }

  datatype Readiness = Ready | NotStarted | Stale(tenants: set<Tenant>)

  class Keeper {
    const window: Duration
    const store: RoleStore
    const register: CountRegister
    var started: bool
    var confirmed: map<Tenant, Time>
    var reported: map<Tenant, Counts>
    var extra: set<Tenant>

    constructor (window: Duration, store: RoleStore, register: CountRegister)
      ensures this.window == window && this.store == store && this.register == register
      ensures Contents() == State(store.copies, false, map[], map[], {}, register.accepted)
    {
      this.window, this.store, this.register := window, store, register;
      started, confirmed, reported, extra := false, map[], map[], {};
    }

    ghost function Contents(): State
      reads this, store, register
    {
      State(store.copies, started, confirmed, reported, extra, register.accepted)
    }

    function TrustedSince(now: Time): Time {
      now - window
    }

    method Sync(tenant: Tenant, v: Visit) returns (error: Option<SyncError>)
      modifies this, store, register
      ensures Synced(Contents(), error) == SyncAt(old(Contents()), tenant, v)
    {
      if !v.versionRead {
        return Some(VersionUnread);
      }
      var version := store.Version(tenant);
      if v.reply.Unreachable? {
        return Some(RolesUnread);
      }
      var ok: bool;
      if v.reply.Changed? {
        ok := store.Replace(tenant, v.reply.defs, v.at, v.fate);
      } else {
        ok := store.Confirm(tenant, v.at, v.fate);
      }
      if !ok {
        return Some(CopyNotKept);
      }
      confirmed := confirmed[tenant := v.at];
      error := ReportCounts(tenant, v);
    }

    method ReportCounts(tenant: Tenant, v: Visit) returns (error: Option<SyncError>)
      modifies this, register
      ensures Synced(Contents(), error) == ReportAt(old(Contents()), tenant, v)
    {
      if v.counts.None? {
        return Some(CountsUnread);
      }
      var counts := v.counts.value;
      if tenant in reported && reported[tenant] == counts {
        return None;
      }
      var unknown := register.Report(tenant, counts, v.report);
      if unknown.None? {
        return Some(ReportRefused);
      }
      reported := reported[tenant := counts];
      if unknown.value != [] {
        return Some(RolesGone(unknown.value));
      }
      return None;
    }

    /** A woken tenant is remembered and synced at once. */
    method Woken(tenant: Tenant, v: Visit) returns (error: Option<SyncError>)
      modifies this, store, register
      ensures Contents() == Apply(old(Contents()), [Wakes(tenant), Visits(tenant, v)])
    {
      ghost var s := Contents();
      extra := extra + {tenant};
      error := Sync(tenant, v);
      ApplyLast(s, [], Wakes(tenant));
      ApplyLast(s, [] + [Wakes(tenant)], Visits(tenant, v));
      assert [] + [Wakes(tenant)] + [Visits(tenant, v)] == [Wakes(tenant), Visits(tenant, v)];
    }

    /** The listed tenants are forgotten as extra; those left follow them. */
    method Plan(listed: seq<Tenant>) returns (order: seq<Tenant>)
      modifies this`extra
      ensures extra == old(extra) - (set t | t in listed)
      ensures listed <= order && |order| == |listed| + |extra|
      ensures forall t :: t in order <==> t in old(extra) || t in listed
    {
      Forget(listed);
      var rest := Others();
      order := listed + rest;
    }

    /** One cycle: the listed tenants are forgotten as extra, then they and the extra ones left are
    synced one after the other, until the context ends. */
    method Cycle(listed: Option<seq<Tenant>>, visits: nat -> Visit, stop: nat) returns (order: seq<Tenant>)
      modifies this, store, register
      ensures listed.None? ==> order == [] && Contents() == old(Contents()).(started := true)
      ensures listed.Some? ==>
        && listed.value <= order && |order| == |listed.value| + |old(extra) - (set t | t in listed.value)|
        && (forall t :: t in order <==> t in old(extra) || t in listed.value)
        && Contents() == Apply(old(Contents()), [Lists(listed.value)]
           + Round(order, visits, Min(stop, |order|)) + [Starts])
    {
      if listed.None? {
        started := true;
        return [];
      }
      ghost var s := Contents();
      order := Plan(listed.value);
      SyncAll(order, visits, stop);
      started := true;
      ghost var k := Min(stop, |order|);
      ApplyAppend(s, [Lists(listed.value)], Round(order, visits, k));
      ApplyLast(s, [], Lists(listed.value));
      ApplyLast(s, [Lists(listed.value)] + Round(order, visits, k), Starts);
      assert [] + [Lists(listed.value)] == [Lists(listed.value)];
    }

    method Forget(listed: seq<Tenant>)
      modifies this`extra
      ensures extra == old(extra) - (set t | t in listed)
    {
      for i := 0 to |listed|
        invariant extra == old(extra) - (set t | t in listed[..i])
      {
        extra := extra - {listed[i]};
        assert listed[..i + 1] == listed[..i] + [listed[i]];
      }
      assert listed[..|listed|] == listed;
    }

    method Others() returns (rest: seq<Tenant>)
      ensures (forall t :: t in rest <==> t in extra) && |rest| == |extra|
    {
      rest := [];
      var todo := extra;
      while todo != {}
        invariant todo <= extra
        invariant forall t :: t in rest <==> t in extra && t !in todo
        invariant |rest| + |todo| == |extra|
        decreases |todo|
      {
        var t :| t in todo;
        todo := todo - {t};
        rest := rest + [t];
      }
    }

    method SyncAll(order: seq<Tenant>, visits: nat -> Visit, stop: nat)
      modifies this, store, register
      ensures Contents() == Apply(old(Contents()), Round(order, visits, Min(stop, |order|)))
    {
      var i := 0;
      while i < |order| && i < stop
        invariant 0 <= i <= |order| && i <= stop
        invariant Contents() == Apply(old(Contents()), Round(order, visits, i))
      {
        var _ := Sync(order[i], visits(i));
        ApplyLast(old(Contents()), Round(order, visits, i), Visits(order[i], visits(i)));
        i := i + 1;
      }
    }

    method IsReady(now: Time) returns (r: Readiness)
      ensures r == ReadyAt(Contents(), TrustedSince(now))
      ensures r.NotStarted? <==> !started
      ensures started ==> forall t ::
        (r.Stale? && t in r.tenants) <==>
        (t in confirmed && confirmed[t] < now - window) || (t in extra && t !in confirmed)
    {
      var since := TrustedSince(now);
      if !started {
        return NotStarted;
      }
      var stale: set<Tenant> := {};
      var todo := confirmed.Keys;
      while todo != {}
        invariant todo <= confirmed.Keys
        invariant forall t :: t in stale <==> t in confirmed && t !in todo && confirmed[t] < since
        decreases |todo|
      {
        var t :| t in todo;
        todo := todo - {t};
        if confirmed[t] < since {
          stale := stale + {t};
        }
      }
      var unseen := Unconfirmed();
      stale := stale + unseen;
      assert stale == StaleTenants(Contents(), since);
      if stale == {} {
        return Ready;
      }
      return Stale(stale);
    }

    method Unconfirmed() returns (unseen: set<Tenant>)
      ensures unseen == set t | t in extra && t !in confirmed
    {
      unseen := {};
      var todo := extra;
      while todo != {}
        invariant todo <= extra
        invariant forall t :: t in unseen <==> t in extra && t !in todo && t !in confirmed
        decreases |todo|
      {
        var t :| t in todo;
        todo := todo - {t};
        if t !in confirmed {
          unseen := unseen + {t};
        }
      }
    }
  }

  function StaleTenants(s: State, since: Time): set<Tenant> {
    (set t | t in s.confirmed && s.confirmed[t] < since) + (set t | t in s.extra && t !in s.confirmed)
  }

  function ReadyAt(s: State, since: Time): Readiness {
    if !s.started then NotStarted
    else if StaleTenants(s, since) == {} then Ready
    else Stale(StaleTenants(s, since))
  }

  // ----- runs -----------------------------------------------------------------------------------

  /** What the keeper's one loop does, in order. */
  datatype Event =
    | Visits(tenant: Tenant, visit: Visit)
    | Wakes(woken: Tenant)
    | Lists(listed: seq<Tenant>)
    | Starts

  function ApplyOne(s: State, e: Event): State {
    match e
    case Visits(tenant, v) => SyncAt(s, tenant, v).state
    case Wakes(tenant) => s.(extra := s.extra + {tenant})
    case Lists(listed) => s.(extra := s.extra - (set t | t in listed))
    case Starts => s.(started := true)
  }

  function Apply(s: State, events: seq<Event>): State {
    if events == [] then s
    else ApplyOne(Apply(s, events[..|events| - 1]), events[|events| - 1])
  }

  function Min(a: nat, b: nat): nat {
    if a < b then a else b
  }

  /** Syncing the first n tenants in order. */
  function Round(order: seq<Tenant>, visits: nat -> Visit, n: nat): seq<Event>
    requires n <= |order|
  {
    if n == 0 then [] else Round(order, visits, n - 1) + [Visits(order[n - 1], visits(n - 1))]
  }

  lemma ApplyLast(s: State, events: seq<Event>, e: Event)
    ensures Apply(s, events + [e]) == ApplyOne(Apply(s, events), e)
  {
    assert (events + [e])[..|events|] == events;
  }

  lemma {:induction false} ApplyAppend(s: State, first: seq<Event>, rest: seq<Event>)
    ensures Apply(s, first + rest) == Apply(Apply(s, first), rest)
  {
    if rest == [] {
      assert first + rest == first;
    } else {
      var n := |rest| - 1;
      ApplyAppend(s, first, rest[..n]);
      ApplyLast(s, first + rest[..n], rest[n]);
      assert first + rest[..n] + [rest[n]] == first + rest;
    }
  }

  /** The register over time: which definitions of a tenant are current when. */
  type Timeline = (Tenant, Time) -> Definitions

  /** A version names one state of the roles, and is never empty. */
  ghost predicate Versioned(reg: Timeline) {
    && (forall t, a, b :: reg(t, a).version == reg(t, b).version ==> reg(t, a).roles == reg(t, b).roles)
    && (forall t, a :: reg(t, a).version != "")
  }

  /** The register's contract: it answers what is current, says "unchanged" only of the current
  version, and its answer is stamped within delay of its being given. */
  ghost predicate Honest(reg: Timeline, delay: Duration, copies: Copies, tenant: Tenant, v: Visit) {
    match v.reply
    case Unreachable => true
    case Unchanged(asked) => VersionOf(copies, tenant) == reg(tenant, asked).version && v.at <= asked + delay
    case Changed(d, asked) => d == reg(tenant, asked) && v.at <= asked + delay
  }

  ghost predicate HonestRun(reg: Timeline, delay: Duration, s0: State, events: seq<Event>) {
    forall i :: 0 <= i < |events| && events[i].Visits? ==>
      Honest(reg, delay, Apply(s0, events[..i]).copies, events[i].tenant, events[i].visit)
  }

  /** The copy holds what the register held at some time, and was confirmed soon after it. */
  ghost predicate AsOf(reg: Timeline, delay: Duration, tenant: Tenant, copy: Copy, asked: Time) {
    copy.defs == reg(tenant, asked) && copy.confirmedAt <= asked + delay
  }

  ghost predicate Grounded(reg: Timeline, delay: Duration, copies: Copies) {
    forall t :: t in copies ==> exists asked :: AsOf(reg, delay, t, copies[t], asked)
  }

  /** A process that has just started: it has confirmed and reported nothing of its own. */
  ghost predicate Fresh(s: State) {
    !s.started && s.confirmed == map[] && s.reported == map[] && s.extra == {}
  }

  /** It finds in the store what earlier processes honestly left there. */
  ghost predicate Started(reg: Timeline, delay: Duration, s: State) {
    Fresh(s) && Grounded(reg, delay, s.copies)
  }

  lemma KeepGrounds(reg: Timeline, delay: Duration, copies: Copies, tenant: Tenant, v: Visit)
    requires Versioned(reg) && Grounded(reg, delay, copies) && Honest(reg, delay, copies, tenant, v)
    ensures Grounded(reg, delay, Keep(copies, tenant, v.reply, v.at))
    ensures !v.reply.Unreachable? ==>
      var left := Keep(copies, tenant, v.reply, v.at);
      tenant in left && left[tenant] == Copy(reg(tenant, v.reply.asked), v.at)
  {
    var left := Keep(copies, tenant, v.reply, v.at);
    if !v.reply.Unreachable? {
      if v.reply.Unchanged? {
        assert tenant in copies;
        var before :| AsOf(reg, delay, tenant, copies[tenant], before);
        assert reg(tenant, before).version == reg(tenant, v.reply.asked).version;
      }
      assert AsOf(reg, delay, tenant, left[tenant], v.reply.asked);
    }
  }

  lemma SyncGrounds(reg: Timeline, delay: Duration, s: State, tenant: Tenant, v: Visit)
    requires Grounded(reg, delay, s.copies) && Grounded(reg, delay, Keep(s.copies, tenant, v.reply, v.at))
    ensures Grounded(reg, delay, SyncAt(s, tenant, v).state.copies)
  {
  }

  lemma {:induction false} RunGrounds(reg: Timeline, delay: Duration, s0: State, events: seq<Event>)
    requires Versioned(reg) && Started(reg, delay, s0) && HonestRun(reg, delay, s0, events)
    ensures Grounded(reg, delay, Apply(s0, events).copies)
  {
    if events != [] {
      var n := |events| - 1;
      HonestPrefix(reg, delay, s0, events, n);
      RunGrounds(reg, delay, s0, events[..n]);
      if events[n].Visits? {
        var s := Apply(s0, events[..n]);
        KeepGrounds(reg, delay, s.copies, events[n].tenant, events[n].visit);
        SyncGrounds(reg, delay, s, events[n].tenant, events[n].visit);
      }
    }
  }

  lemma HonestPrefix(reg: Timeline, delay: Duration, s0: State, events: seq<Event>, n: nat)
    requires HonestRun(reg, delay, s0, events) && n <= |events|
    ensures HonestRun(reg, delay, s0, events[..n])
  {
    forall i | 0 <= i < n && events[..n][i].Visits?
      ensures Honest(reg, delay, Apply(s0, events[..n][..i]).copies, events[..n][i].tenant, events[..n][i].visit)
    {
      assert events[..n][..i] == events[..i];
    }
  }

  /** What a placement grants: a key of its role in the copy, while the copy is trusted. */
  predicate Grants(copies: Copies, tenant: Tenant, role: RoleId, key: Key, since: Time) {
    && tenant in copies && copies[tenant].confirmedAt >= since
    && role in copies[tenant].defs.roles && key in copies[tenant].defs.roles[role]
  }

  predicate Carries(d: Definitions, role: RoleId, key: Key) {
    role in d.roles && key in d.roles[role]
  }

  /** A copy grants under the keeper's own trust exactly what it carries, while it was confirmed no longer
  than the window ago. */
  lemma TrustedWithinWindow(keeper: Keeper, copies: Copies, tenant: Tenant, role: RoleId, key: Key, now: Time)
    ensures Grants(copies, tenant, role, key, keeper.TrustedSince(now)) <==>
      && tenant in copies && role in copies[tenant].defs.roles && key in copies[tenant].defs.roles[role]
      && now <= copies[tenant].confirmedAt + keeper.window
  {
  }

  /** Trust-window safety: a key taken from a role at time T and not given back is granted by no copy
  from T + window + delay on, whatever answers, failures and writes came between. */
  lemma {:induction false} RemovedKeyIsNotGranted(keeper: Keeper, reg: Timeline, delay: Duration, s0: State,
    events: seq<Event>, tenant: Tenant, role: RoleId, key: Key, removed: Time, now: Time)
    requires Versioned(reg) && Started(reg, delay, s0) && HonestRun(reg, delay, s0, events)
    requires forall r: Time :: r >= removed ==> !Carries(reg(tenant, r), role, key)
    requires now >= removed + keeper.window + delay
    ensures !Grants(Apply(s0, events).copies, tenant, role, key, keeper.TrustedSince(now))
  {
    RunGrounds(reg, delay, s0, events);
    var copies := Apply(s0, events).copies;
    if tenant in copies {
      var asked :| AsOf(reg, delay, tenant, copies[tenant], asked);
    }
  }

  /** The bound is exact: for every delay and window there is an honest run of one sync after which a key
  taken from its role at T is granted until just before T + window + delay. */
  lemma {:induction false} GrantedUntilTheBound(keeper: Keeper, delay: Duration, tenant: Tenant, role: RoleId,
    key: Key, removed: Time, now: Time) returns (reg: Timeline, s0: State, events: seq<Event>)
    ensures Versioned(reg) && Started(reg, delay, s0) && HonestRun(reg, delay, s0, events)
    ensures forall r: Time :: Carries(reg(tenant, r), role, key) <==> r < removed
    ensures Grants(Apply(s0, events).copies, tenant, role, key, keeper.TrustedSince(now)) <==>
      now < removed + keeper.window + delay
  {
    var had, has := Definitions("1", map[role := {key}]), Definitions("2", map[]);
    reg := (t: Tenant, a: Time) => if a < removed then had else has;
    s0 := State(map[], false, map[], map[], {}, map[]);
    var v := Visit(true, Changed(had, removed - 1), removed - 1 + delay, Written, None, ReportFails);
    events := [] + [Visits(tenant, v)];
    ApplyLast(s0, [], Visits(tenant, v));
    assert events[..0] == [];
  }

  /** The other direction: whenever a sync kept its answer, the copy grants exactly what the register
  carried when it was asked, from then until the window has passed. */
  lemma {:induction false} KeptAnswerIsGranted(keeper: Keeper, reg: Timeline, delay: Duration, s0: State,
    events: seq<Event>, tenant: Tenant, v: Visit, role: RoleId, key: Key, now: Time)
    requires Versioned(reg) && Started(reg, delay, s0) && HonestRun(reg, delay, s0, events + [Visits(tenant, v)])
    requires v.versionRead && !v.reply.Unreachable? && !v.fate.NotWritten?
    ensures Grants(Apply(s0, events + [Visits(tenant, v)]).copies, tenant, role, key, keeper.TrustedSince(now)) <==>
            Carries(reg(tenant, v.reply.asked), role, key) && now <= v.at + keeper.window
  {
    var all := events + [Visits(tenant, v)];
    assert all[..|events|] == events && all[|events|] == Visits(tenant, v);
    HonestPrefix(reg, delay, s0, all, |events|);
    RunGrounds(reg, delay, s0, events);
    KeepGrounds(reg, delay, Apply(s0, events).copies, tenant, v);
  }

  // ----- readiness ------------------------------------------------------------------------------

  /** The clock at the last visit of a run. */
  function Clock(events: seq<Event>): Time {
    if events == [] then ZERO
    else if events[|events| - 1].Visits? then events[|events| - 1].visit.at
    else Clock(events[..|events| - 1])
  }

  /** The one loop's clock does not run back. */
  ghost predicate Ordered(events: seq<Event>) {
    events == [] ||
    var n := |events| - 1;
    Ordered(events[..n]) && (events[n].Visits? ==> Clock(events[..n]) <= events[n].visit.at)
  }

  /** What this process confirmed is in the store, confirmed no earlier. */
  ghost predicate Backed(s: State, now: Time) {
    forall t :: t in s.confirmed ==> s.confirmed[t] <= now && t in s.copies && s.confirmed[t] <= s.copies[t].confirmedAt
  }

  lemma SyncBacks(s: State, before: Time, tenant: Tenant, v: Visit)
    requires Backed(s, before) && before <= v.at
    requires !v.reply.Unreachable? ==> var left := Keep(s.copies, tenant, v.reply, v.at);
        tenant in left && left[tenant].confirmedAt == v.at
    ensures Backed(SyncAt(s, tenant, v).state, v.at)
  {
    var s' := SyncAt(s, tenant, v).state;
    if v.versionRead && !v.reply.Unreachable? {
      forall t | t in s'.confirmed
        ensures s'.confirmed[t] <= v.at && t in s'.copies && s'.confirmed[t] <= s'.copies[t].confirmedAt
      {
        assert t != tenant ==> t in s.confirmed;
      }
    }
  }

  lemma {:induction false} RunBacks(reg: Timeline, delay: Duration, s0: State, events: seq<Event>)
    requires Versioned(reg) && Started(reg, delay, s0) && HonestRun(reg, delay, s0, events) && Ordered(events)
    ensures Backed(Apply(s0, events), Clock(events))
  {
    if events != [] {
      var n := |events| - 1;
      HonestPrefix(reg, delay, s0, events, n);
      RunBacks(reg, delay, s0, events[..n]);
      if events[n].Visits? {
        RunGrounds(reg, delay, s0, events[..n]);
        KeepGrounds(reg, delay, Apply(s0, events[..n]).copies, events[n].tenant, events[n].visit);
        SyncBacks(Apply(s0, events[..n]), Clock(events[..n]), events[n].tenant, events[n].visit);
      }
    }
  }

  /** A ready keeper: every tenant this process confirmed, and every tenant woken that the store did not
  list, has a copy in the store that is trusted now. */
  lemma {:induction false} ReadyMeansTrusted(keeper: Keeper, reg: Timeline, delay: Duration, s0: State,
    events: seq<Event>, now: Time, tenant: Tenant)
    requires Versioned(reg) && Started(reg, delay, s0) && HonestRun(reg, delay, s0, events) && Ordered(events)
    requires ReadyAt(Apply(s0, events), keeper.TrustedSince(now)) == Ready
    requires tenant in Apply(s0, events).confirmed || tenant in Apply(s0, events).extra
    ensures tenant in Apply(s0, events).copies && now <= Apply(s0, events).copies[tenant].confirmedAt + keeper.window
  {
    var s := Apply(s0, events);
    assert tenant !in StaleTenants(s, keeper.TrustedSince(now));
    RunBacks(reg, delay, s0, events);
  }

  /** The visit ended in a confirmation of this tenant's copy by this process. */
  predicate Confirms(e: Event, t: Tenant) {
    e.Visits? && e.tenant == t && e.visit.versionRead && !e.visit.reply.Unreachable? && e.visit.fate.Written?
  }

  ghost predicate EverConfirmed(events: seq<Event>, t: Tenant) {
    exists i :: 0 <= i < |events| && Confirms(events[i], t)
  }

  /** Woken at event i, and in no list of the store's since. */
  ghost predicate WokenAt(events: seq<Event>, t: Tenant, i: int) {
    && 0 <= i < |events| && events[i] == Wakes(t)
    && forall j :: i < j < |events| && events[j].Lists? ==> t !in events[j].listed
  }

  ghost predicate WokenUnlisted(events: seq<Event>, t: Tenant) {
    exists i :: WokenAt(events, t, i)
  }

  lemma {:induction false} ConfirmedStep(events: seq<Event>, e: Event, t: Tenant)
    ensures EverConfirmed(events + [e], t) <==> EverConfirmed(events, t) || Confirms(e, t)
  {
    var all := events + [e];
    assert all[|events|] == e;
    if i :| 0 <= i < |events| && Confirms(events[i], t) {
      assert all[i] == events[i];
    }
    if i :| 0 <= i < |all| && Confirms(all[i], t) {
      assert i < |events| ==> all[i] == events[i];
    }
  }

  lemma {:induction false} WokenStep(events: seq<Event>, e: Event, t: Tenant)
    ensures WokenUnlisted(events + [e], t) <==>
      e == Wakes(t) || (WokenUnlisted(events, t) && !(e.Lists? && t in e.listed))
  {
    var all := events + [e];
    assert all[|events|] == e;
    if i :| WokenAt(all, t, i) && i < |events| {
      assert WokenAt(events, t, i) by {
        assert forall j :: 0 <= j < |events| ==> all[j] == events[j];
      }
    }
    if e == Wakes(t) {
      assert WokenAt(all, t, |events|);
    }
    if i :| WokenAt(events, t, i) && !(e.Lists? && t in e.listed) {
      assert WokenAt(all, t, i);
    }
  }

  lemma SyncCovers(s: State, tenant: Tenant, v: Visit, t: Tenant)
    ensures SyncAt(s, tenant, v).state.extra == s.extra
    ensures t in SyncAt(s, tenant, v).state.confirmed <==> t in s.confirmed || Confirms(Visits(tenant, v), t)
  {
  }

  lemma StepCovers(s: State, e: Event, t: Tenant)
    ensures t in ApplyOne(s, e).confirmed <==> t in s.confirmed || Confirms(e, t)
    ensures t in ApplyOne(s, e).extra <==> e == Wakes(t) || (t in s.extra && !(e.Lists? && t in e.listed))
  {
    if e.Visits? {
      SyncCovers(s, e.tenant, e.visit, t);
    }
  }

  lemma {:induction false} ReadinessCovers(s0: State, events: seq<Event>, t: Tenant)
    requires Fresh(s0)
    ensures t in Apply(s0, events).confirmed <==> EverConfirmed(events, t)
    ensures t in Apply(s0, events).extra <==> WokenUnlisted(events, t)
  {
    if events != [] {
      var n := |events| - 1;
      ReadinessCovers(s0, events[..n], t);
      StepCovers(Apply(s0, events[..n]), events[n], t);
      assert events == events[..n] + [events[n]];
      ConfirmedStep(events[..n], events[n], t);
      WokenStep(events[..n], events[n], t);
    }
  }

  /** What this process holds as a tenant's confirmation is the time of its last confirming visit. */
  lemma {:induction false} ConfirmedWhen(s0: State, events: seq<Event>, t: Tenant, i: nat)
    requires i < |events| && Confirms(events[i], t)
    requires forall j :: i < j < |events| ==> !Confirms(events[j], t)
    ensures t in Apply(s0, events).confirmed && Apply(s0, events).confirmed[t] == events[i].visit.at
  {
    var n := |events| - 1;
    if i < n {
      assert forall j :: 0 <= j < n ==> events[..n][j] == events[j];
      ConfirmedWhen(s0, events[..n], t, i);
    }
    StepConfirms(Apply(s0, events[..n]), events[n], t);
  }

  lemma StepConfirms(s: State, e: Event, t: Tenant)
    ensures Confirms(e, t) ==> t in ApplyOne(s, e).confirmed && ApplyOne(s, e).confirmed[t] == e.visit.at
    ensures !Confirms(e, t) && t in s.confirmed ==>
      t in ApplyOne(s, e).confirmed && ApplyOne(s, e).confirmed[t] == s.confirmed[t]
  {
  }

  /** The exact reach of readiness: a tenant whose copy is not trusted makes the keeper not ready if and
  only if this process confirmed it once, or it was woken and the store has not listed it since.
  Every other tenant seen, listed or visited in vain, is passed over. */
  lemma {:induction false} ReadyPassesOver(reg: Timeline, delay: Duration, s0: State, events: seq<Event>,
    since: Time, t: Tenant)
    requires Versioned(reg) && Started(reg, delay, s0) && HonestRun(reg, delay, s0, events) && Ordered(events)
    requires !(t in Apply(s0, events).copies && Apply(s0, events).copies[t].confirmedAt >= since)
    ensures t in StaleTenants(Apply(s0, events), since) <==> EverConfirmed(events, t) || WokenUnlisted(events, t)
  {
    ReadinessCovers(s0, events, t);
    RunBacks(reg, delay, s0, events);
  }

  /** A keeper that listed a tenant and could not reach the register for it is ready without it. */
  lemma {:induction false} ReadyWithoutTenant(s0: State, t: Tenant, v: Visit, since: Time)
    requires Fresh(s0) && s0.copies == map[] && v.reply.Unreachable?
    ensures var s := Apply(s0, [Lists([t]), Visits(t, v), Starts]);
      ReadyAt(s, since) == Ready && t !in s.copies
  {
    ApplyLast(s0, [], Lists([t]));
    ApplyLast(s0, [] + [Lists([t])], Visits(t, v));
    ApplyLast(s0, [] + [Lists([t])] + [Visits(t, v)], Starts);
    assert [] + [Lists([t])] + [Visits(t, v)] + [Starts] == [Lists([t]), Visits(t, v), Starts];
  }

  // ----- suppressed reports ---------------------------------------------------------------------

  ghost predicate Settled(s: State) {
    forall t :: t in s.reported ==> t in s.accepted && s.accepted[t] == s.reported[t]
  }

  lemma SyncSettles(s: State, tenant: Tenant, v: Visit)
    requires Settled(s)
    ensures Settled(SyncAt(s, tenant, v).state)
  {
  }

  lemma {:induction false} RunSettles(s0: State, events: seq<Event>)
    requires Fresh(s0)
    ensures Settled(Apply(s0, events))
  {
    if events != [] {
      var n := |events| - 1;
      RunSettles(s0, events[..n]);
      if events[n].Visits? {
        SyncSettles(Apply(s0, events[..n]), events[n].tenant, events[n].visit);
      }
    }
  }

  /** A report left out was not needed: after any sync that kept the copy, read the counts and was not
  refused its report, the register has accepted exactly those counts, sent now or before. */
  lemma {:induction false} SuppressedReportIsKnown(s0: State, events: seq<Event>, tenant: Tenant, v: Visit)
    requires Fresh(s0) && v.versionRead && !v.reply.Unreachable? && v.fate.Written? && v.counts.Some?
    requires SyncAt(Apply(s0, events), tenant, v).error != Some(ReportRefused)
    ensures var s := SyncAt(Apply(s0, events), tenant, v).state;
      tenant in s.accepted && s.accepted[tenant] == v.counts.value
  {
    RunSettles(s0, events);
  }

  /** The sync kept its copy and read these counts. */
  predicate Counted(v: Visit, counts: Counts) {
    v.versionRead && !v.reply.Unreachable? && v.fate.Written? && v.counts == Some(counts)
  }

  /** Counts are sent exactly when they changed: after a sync whose report was accepted or not needed, a
  sync with the same counts succeeds whatever became of a report, and one with other counts depends on
  its own. */
  lemma {:induction false} SentWhenChanged(s: State, tenant: Tenant, first: Visit, counts: Counts, second: Visit,
    others: Counts)
    requires Counted(first, counts) && SyncAt(s, tenant, first).error != Some(ReportRefused)
    requires Counted(second, others)
    ensures var s' := SyncAt(s, tenant, first).state;
      SyncAt(s', tenant, second).error ==
      if others == counts then None
      else match second.report
        case ReportFails => Some(ReportRefused)
        case ReportAccepted(unknown) => if unknown == [] then None else Some(RolesGone(unknown))
  {
  }

  /** How a sync that does not get to its report fails, and that its copy and confirmation then stay,
  unless the write was made and its answer lost. */
  lemma FailedSyncKeeps(s: State, tenant: Tenant, v: Visit)
    requires !v.versionRead || v.reply.Unreachable? || !v.fate.Written?
    ensures var r := SyncAt(s, tenant, v);
      && r.error == Some(if !v.versionRead then VersionUnread else if v.reply.Unreachable? then RolesUnread
                         else CopyNotKept)
      && r.state.confirmed == s.confirmed && r.state.reported == s.reported && r.state.accepted == s.accepted
      && (!v.versionRead || v.reply.Unreachable? || v.fate.NotWritten? ==> r.state.copies == s.copies)
  {
  }
}
