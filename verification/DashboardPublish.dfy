// Publishing dashboard data: one database transaction with an idempotency key,
// window reservations and delta accounting of the latest-data usage.
module DashboardPublish {
  import opened Common
  import opened MapSum

  datatype Name = Name(text: string)
  type Agent = Name
  type Revision = nat
  type Key = (Agent, Name)

  datatype Mode = Latest | Temporal
  datatype Path = Path(agent: Agent, dashboard: Name, widget: Name)
  datatype Widget = Widget(path: Path, mode: Mode)

  datatype Quota = Quota(
    recordsPerRequest: nat, requestsPerMinute: nat, acceptedBytesPerDay: nat, temporalRecordsPerDay: nat,
    retainedTemporalRecords: nat, latestBytesPerAgent: nat)

  // A UTC instant: the day, the minute within it and the nanoseconds after that.
  datatype Time = Time(day: int, minute: nat, rest: nat)

  datatype Window = Minute(agent: Agent, day: int, minute: nat) | Day(agent: Agent, day: int)
  datatype Counters = Counters(calls: int, records: int, bytes: int)

  datatype Replay = Replay(hash: Name, receivedAt: Time, accepted: nat)

  // One tenant's rows. `latest` holds a widget's rows by ordinal with their
  // sizes, `temporal` a widget's number of appended rows.
  datatype Database = Database(
    widgets: map<Revision, Widget>,
    latest: map<Revision, map<nat, nat>>,
    temporal: map<Revision, nat>,
    usage: map<Agent, int>,
    retained: int,
    windows: map<Window, Counters>,
    replays: map<Key, Replay>)

  // `sizes` holds the encoded size of each record, `valid` the verdict on the
  // records and `hash` the digest of the body.
  datatype Request = Request(
    path: Path, dataRevision: Revision, key: Name, hash: Name, sizes: seq<nat>, valid: bool, receivedAt: Time)
  {
    function Key(): Key { (path.agent, key) }
    function Minute(): Window { Window.Minute(path.agent, receivedAt.day, receivedAt.minute) }
    function Day(): Window { Window.Day(path.agent, receivedAt.day) }
  }

  datatype Reason =
    | BadCount | NoWidget | Stale | Invalid | KeyConflict
    | RateLimit | DayBytes | DayRecords | Retained | LatestBytes | KeyTaken
  datatype Outcome = Accepted(count: nat, receivedAt: Time) | Replayed(count: nat, receivedAt: Time) | Refused(reason: Reason)

  const MaxInt64 := 0x7fff_ffff_ffff_ffff

  function Total(sizes: seq<nat>): nat {
    if sizes == [] then 0 else Total(sizes[..|sizes| - 1]) + sizes[|sizes| - 1]
  }

  // ---- Replacing a widget's latest rows ----

  function Rows(sizes: seq<nat>): map<nat, nat> { map i: nat | i < |sizes| :: sizes[i] }

  // The upsert writes ordinals 0.., then rows of the old snapshot beyond go.
  function Replaced(rows: map<nat, nat>, sizes: seq<nat>): map<nat, nat> {
    var upserted := rows + Rows(sizes);
    map i | i in upserted && !(sizes != [] && i in rows && i >= |sizes|) :: upserted[i]
  }

  // Whatever was stored before, exactly the new records remain.
  lemma ReplaceExact(rows: map<nat, nat>, sizes: seq<nat>)
    requires sizes != []
    ensures Replaced(rows, sizes) == Rows(sizes)
  {
  }

  lemma {:induction false} RowsTotal(sizes: seq<nat>)
    ensures Sum(Rows(sizes)) == Total(sizes)
  {
    if sizes == [] {
      assert Rows(sizes) == map[];
    } else {
      var n: nat := |sizes| - 1;
      RowsTotal(sizes[..n]);
      var rest := Rows(sizes[..n]);
      assert n !in rest && Rows(sizes) == rest[n := sizes[n]];
      SumUpdate(rest, n, sizes[n]);
      assert Total(sizes) == Total(sizes[..n]) + sizes[n];
    }
  }

  // The aggregate the old rows are read with.
  method SumRows(rows: map<nat, nat>) returns (n: nat)
    ensures n == Sum(rows)
  {
    n := 0;
    var rest := rows;
    while rest != map[]
      invariant n + Sum(rest) == Sum(rows)
      decreases |rest|
    {
      var k :| k in rest;
      SumPick(rest, k);
      n, rest := n + rest[k], rest - {k};
    }
  }

  function RowsOf(latest: map<Revision, map<nat, nat>>, rev: Revision): map<nat, nat> { if rev in latest then latest[rev] else map[] }

  function TemporalOf(temporal: map<Revision, nat>, rev: Revision): nat { if rev in temporal then temporal[rev] else 0 }

  function UsageOf(usage: map<Agent, int>, agent: Agent): int { if agent in usage then usage[agent] else 0 }

  function CountersOf(windows: map<Window, Counters>, w: Window): Counters { if w in windows then windows[w] else Counters(0, 0, 0) }

  // ---- Reservations: added atomically, only within the maximum ----

  function Added(windows: map<Window, Counters>, w: Window, add: Counters): map<Window, Counters> {
    var c := CountersOf(windows, w);
    windows[w := Counters(c.calls + add.calls, c.records + add.records, c.bytes + add.bytes)]
  }

  predicate SumTo(a: Counters, b: Counters, c: Counters) {
    c.calls == a.calls + b.calls && c.records == a.records + b.records && c.bytes == a.bytes + b.bytes
  }

  // Such a map is the reserved one.
  lemma AddedExact(windows: map<Window, Counters>, w: Window, add: Counters, after: map<Window, Counters>)
    requires after.Keys == windows.Keys + {w} && after - {w} == windows - {w}
    requires SumTo(CountersOf(windows, w), add, CountersOf(after, w))
    ensures after == Added(windows, w, add)
  {
    forall v | v in after && v != w ensures v in windows && after[v] == windows[v] {
      assert v in after - {w} && (after - {w})[v] == (windows - {w})[v];
    }
  }

  predicate Fits(c: Counters, add: Counters, max: Counters) {
    c.calls + add.calls <= max.calls && c.records + add.records <= max.records && c.bytes + add.bytes <= max.bytes
  }

  method ReserveWindow(db: Database, w: Window, add: Counters, max: Counters) returns (ok: bool, db': Database)
    ensures ok <==> Fits(CountersOf(db.windows, w), add, max)
    ensures !ok ==> db' == db
    ensures ok ==> db' == db.(windows := db'.windows) && SumTo(CountersOf(db.windows, w), add, CountersOf(db'.windows, w))
    ensures ok ==> Fits(CountersOf(db'.windows, w), Counters(0, 0, 0), max)
    ensures ok ==> db'.windows.Keys == db.windows.Keys + {w} && db'.windows - {w} == db.windows - {w}
  {
    if !Fits(CountersOf(db.windows, w), add, max) {
      return false, db;
    }
    return true, db.(windows := Added(db.windows, w, add));
  }

  // An absent row starts from the positive part of the delta.
  predicate LatestFits(usage: map<Agent, int>, agent: Agent, delta: int, max: int) {
    if agent in usage then 0 <= usage[agent] + delta <= max else delta <= max
  }

  function NextUsage(usage: map<Agent, int>, agent: Agent, delta: int): int {
    if agent in usage then usage[agent] + delta else if delta > 0 then delta else 0
  }

  method ReserveLatest(db: Database, agent: Agent, delta: int, max: int) returns (ok: bool, db': Database)
    ensures ok <==> LatestFits(db.usage, agent, delta, max)
    ensures db' == if ok then db.(usage := db.usage[agent := NextUsage(db.usage, agent, delta)]) else db
  {
    if agent !in db.usage {
      if delta > max {
        return false, db;
      }
      return true, db.(usage := db.usage[agent := if delta > 0 then delta else 0]);
    }
    var next := db.usage[agent] + delta;
    if next < 0 || next > max {
      return false, db;
    }
    return true, db.(usage := db.usage[agent := next]);
  }

  // ---- What a publish decides, and what an accepted one changes ----

  predicate Names(db: Database, rev: Revision, path: Path) { rev in db.widgets && db.widgets[rev].path == path }

  // The unique constraint on a dashboard's widget names.
  ghost predicate UniquePaths(db: Database) {
    forall a, b | a in db.widgets && b in db.widgets && db.widgets[a].path == db.widgets[b].path :: a == b
  }

  function Records(mode: Mode, r: Request): nat { if mode == Temporal then |r.sizes| else 0 }

  // The counters one accepted publish adds to a window.
  function Charge(mode: Mode, r: Request, w: Window): Counters {
    if w == r.Minute() then Counters(1, 0, 0)
    else if w == r.Day() then Counters(0, Records(mode, r), Total(r.sizes))
    else Counters(0, 0, 0)
  }

  ghost function Delta(latest: map<Revision, map<nat, nat>>, r: Request): int { Total(r.sizes) - Sum(RowsOf(latest, r.dataRevision)) }

  predicate MinuteFits(windows: map<Window, Counters>, q: Quota, r: Request) {
    Fits(CountersOf(windows, r.Minute()), Counters(1, 0, 0), Counters(q.requestsPerMinute, MaxInt64, MaxInt64))
  }

  predicate DayBytesFit(windows: map<Window, Counters>, q: Quota, r: Request) {
    Fits(
      CountersOf(windows, r.Day()),
      Counters(0, 0, Total(r.sizes)),
      Counters(MaxInt64, MaxInt64, q.acceptedBytesPerDay))
  }

  predicate DayRecordsFit(windows: map<Window, Counters>, q: Quota, mode: Mode, r: Request) {
    Fits(
      CountersOf(windows, r.Day()),
      Counters(0, Records(mode, r), Total(r.sizes)),
      Counters(MaxInt64, q.temporalRecordsPerDay, MaxInt64))
  }

  // The first condition that fails decides; `visible` holds the idempotency
  // rows committed before this transaction looked.
  ghost function Verdict(db: Database, q: Quota, r: Request, visible: set<Key>): Outcome {
    if !(1 <= |r.sizes| <= q.recordsPerRequest) then Refused(BadCount)
    else if !exists rev :: Names(db, rev, r.path) then Refused(NoWidget)
    else if !Names(db, r.dataRevision, r.path) then Refused(Stale)
    else if !r.valid then Refused(Invalid)
    else if r.Key() in visible && r.Key() in db.replays then Replaying(db.replays[r.Key()], r)
    else Reserving(db, q, r)
  }

  function Replaying(p: Replay, r: Request): Outcome {
    if p.hash == r.hash then Replayed(p.accepted, p.receivedAt) else Refused(KeyConflict)
  }

  ghost function Reserving(db: Database, q: Quota, r: Request): Outcome
    requires r.dataRevision in db.widgets
  {
    var mode := db.widgets[r.dataRevision].mode;
    if !MinuteFits(db.windows, q, r) then Refused(RateLimit)
    else if !DayBytesFit(db.windows, q, r) then Refused(DayBytes)
    else if !DayRecordsFit(db.windows, q, mode, r) then Refused(DayRecords)
    else if mode == Temporal && db.retained + |r.sizes| > q.retainedTemporalRecords then Refused(Retained)
    else if mode == Latest && !LatestFits(db.usage, r.path.agent, Delta(db.latest, r), q.latestBytesPerAgent) then Refused(LatestBytes)
    else if r.Key() in db.replays then Refused(KeyTaken)
    else Accepted(|r.sizes|, r.receivedAt)
  }

  function Charged(windows: map<Window, Counters>, mode: Mode, r: Request): map<Window, Counters> {
    Added(Added(windows, r.Minute(), Counters(1, 0, 0)), r.Day(), Counters(0, Records(mode, r), Total(r.sizes)))
  }

  // The records in their table, with the usage they are accounted under.
  ghost function Placed(db: Database, r: Request): Database
    requires r.dataRevision in db.widgets
  {
    var rev := r.dataRevision;
    if db.widgets[rev].mode == Temporal then db.(
      retained := db.retained + |r.sizes|,
      temporal := db.temporal[rev := TemporalOf(db.temporal, rev) + |r.sizes|])
    else db.(
      usage := db.usage[r.path.agent := NextUsage(db.usage, r.path.agent, Delta(db.latest, r))],
      latest := db.latest[rev := Rows(r.sizes)])
  }

  // Everything an accepted publish changes, at once.
  ghost function Effect(db: Database, r: Request): Database
    requires r.dataRevision in db.widgets
  {
    Placed(db, r).(
      windows := Charged(db.windows, db.widgets[r.dataRevision].mode, r),
      replays := db.replays[r.Key() := Replay(r.hash, r.receivedAt, |r.sizes|)])
  }

  ghost function Published(db: Database, q: Quota, r: Request, visible: set<Key>): Database
  {
    if Verdict(db, q, r, visible).Accepted? then Effect(db, r) else db
  }

  // The transaction, statement by statement: whichever statement refuses, the
  // rollback leaves the database as it was, and one that commits made the whole
  // effect on the tables.
  method Publish(db: Database, q: Quota, r: Request, visible: set<Key>) returns (db': Database, outcome: Outcome)
    requires UniquePaths(db)
    ensures outcome == Verdict(db, q, r, visible)
    ensures db' == Published(db, q, r, visible)
  {
    if |r.sizes| == 0 || |r.sizes| > q.recordsPerRequest {
      return db, Refused(BadCount);
    }
    if !exists rev | rev in db.widgets :: Names(db, rev, r.path) {
      return db, Refused(NoWidget);
    }
    var rev :| rev in db.widgets && Names(db, rev, r.path);
    if rev != r.dataRevision {
      return db, Refused(Stale);
    }
    if !r.valid {
      return db, Refused(Invalid);
    }
    if r.Key() in visible && r.Key() in db.replays {
      return db, Replaying(db.replays[r.Key()], r);
    }
    db', outcome := Reserve(db, q, r);
  }

  // From the first reservation to the commit.
  method Reserve(db: Database, q: Quota, r: Request) returns (db': Database, outcome: Outcome)
    requires r.dataRevision in db.widgets && r.sizes != []
    ensures outcome == Reserving(db, q, r)
    ensures db' == if outcome.Accepted? then Effect(db, r) else db
  {
    var reason, tx := ReserveWindows(db, q, db.widgets[r.dataRevision].mode, r);
    if reason.Some? {
      return db, Refused(reason.value);
    }
    reason, tx := Store(tx, q, r);
    if reason.Some? {
      return db, Refused(reason.value);
    }
    if r.Key() in tx.replays {
      return db, Refused(KeyTaken);
    }
    tx := tx.(replays := tx.replays[r.Key() := Replay(r.hash, r.receivedAt, |r.sizes|)]);
    return tx, Accepted(|r.sizes|, r.receivedAt);
  }

  method ReserveWindows(db: Database, q: Quota, mode: Mode, r: Request) returns (reason: Option<Reason>, tx: Database)
    ensures reason == if !MinuteFits(db.windows, q, r) then Some(RateLimit)
                      else if !DayBytesFit(db.windows, q, r) then Some(DayBytes)
                      else if !DayRecordsFit(db.windows, q, mode, r) then Some(DayRecords)
                      else None
    ensures reason.None? ==> tx == db.(windows := Charged(db.windows, mode, r))
  {
    var ok;
    ok, tx := ReserveMinute(db, q, r);
    if !ok {
      return Some(RateLimit), tx;
    }
    MinuteLeavesDay(db.windows, q, mode, r);
    reason, tx := ReserveDay(tx, q, mode, r);
  }

  method ReserveMinute(db: Database, q: Quota, r: Request) returns (ok: bool, tx: Database)
    ensures ok <==> MinuteFits(db.windows, q, r)
    ensures ok ==> tx == db.(windows := Added(db.windows, r.Minute(), Counters(1, 0, 0)))
  {
    ok, tx := ReserveWindow(db, r.Minute(), Counters(1, 0, 0), Counters(q.requestsPerMinute, MaxInt64, MaxInt64));
    if ok {
      AddedExact(db.windows, r.Minute(), Counters(1, 0, 0), tx.windows);
    }
  }

  lemma MinuteLeavesDay(windows: map<Window, Counters>, q: Quota, mode: Mode, r: Request)
    ensures var after := Added(windows, r.Minute(), Counters(1, 0, 0));
      && (DayBytesFit(after, q, r) <==> DayBytesFit(windows, q, r))
      && (DayRecordsFit(after, q, mode, r) <==> DayRecordsFit(windows, q, mode, r))
  {
    assert CountersOf(Added(windows, r.Minute(), Counters(1, 0, 0)), r.Day()) == CountersOf(windows, r.Day());
  }

  // The day's bytes, then its temporal records.
  method ReserveDay(db: Database, q: Quota, mode: Mode, r: Request) returns (reason: Option<Reason>, tx: Database)
    ensures reason == if !DayBytesFit(db.windows, q, r) then Some(DayBytes)
                      else if !DayRecordsFit(db.windows, q, mode, r) then Some(DayRecords)
                      else None
    ensures reason.None? ==> tx == db.(windows := Added(db.windows, r.Day(), Counters(0, Records(mode, r), Total(r.sizes))))
  {
    var ok;
    ok, tx := ReserveWindow(db, r.Day(), Counters(0, 0, Total(r.sizes)), Counters(MaxInt64, MaxInt64, q.acceptedBytesPerDay));
    if !ok {
      return Some(DayBytes), tx;
    }
    ghost var day := tx.windows;
    AddedExact(db.windows, r.Day(), Counters(0, 0, Total(r.sizes)), day);
    ok, tx := ReserveWindow(tx, r.Day(), Counters(0, Records(mode, r), 0), Counters(MaxInt64, q.temporalRecordsPerDay, MaxInt64));
    if !ok {
      return Some(DayRecords), tx;
    }
    AddedExact(day, r.Day(), Counters(0, Records(mode, r), 0), tx.windows);
    AddedTwice(db.windows, r.Day(), Records(mode, r), Total(r.sizes));
    return None, tx;
  }

  lemma AddedTwice(windows: map<Window, Counters>, w: Window, records: int, bytes: int)
    ensures Added(Added(windows, w, Counters(0, 0, bytes)), w, Counters(0, records, 0)) == Added(windows, w, Counters(0, records, bytes))
  {
  }

  method Store(db: Database, q: Quota, r: Request) returns (reason: Option<Reason>, tx: Database)
    requires r.dataRevision in db.widgets && r.sizes != []
    ensures reason == if db.widgets[r.dataRevision].mode == Temporal
                      then (if db.retained + |r.sizes| > q.retainedTemporalRecords then Some(Retained) else None)
                      else (if !LatestFits(db.usage, r.path.agent, Delta(db.latest, r), q.latestBytesPerAgent) then Some(LatestBytes) else None)
    ensures reason.None? ==> tx == Placed(db, r)
  {
    var rev := r.dataRevision;
    match db.widgets[rev].mode
    case Temporal =>
      if db.retained + |r.sizes| > q.retainedTemporalRecords {
        return Some(Retained), db;
      }
      tx := db.(retained := db.retained + |r.sizes|);
      tx := tx.(temporal := tx.temporal[rev := TemporalOf(tx.temporal, rev) + |r.sizes|]);
      return None, tx;
    case Latest =>
      var oldBytes := SumRows(RowsOf(db.latest, rev));
      var ok;
      ok, tx := ReserveLatest(db, r.path.agent, Total(r.sizes) - oldBytes, q.latestBytesPerAgent);
      if !ok {
        return Some(LatestBytes), tx;
      }
      ReplaceExact(RowsOf(tx.latest, rev), r.sizes);
      return None, tx.(latest := tx.latest[rev := Replaced(RowsOf(tx.latest, rev), r.sizes)]);
  }

  // ---- Deleting a dashboard: the trigger gives its data back ----

  function Owned(db: Database, agent: Agent, dashboard: Name): set<Revision> {
    set rev | rev in db.widgets && db.widgets[rev].path.agent == agent && db.widgets[rev].path.dashboard == dashboard
  }

  ghost function Bytes(latest: map<Revision, map<nat, nat>>): map<Revision, nat> { map rev | rev in latest :: Sum(latest[rev]) }

  function Within<V>(m: map<Revision, V>, revs: set<Revision>): map<Revision, V> { map rev | rev in m && rev in revs :: m[rev] }

  function Floored(n: int): int { if n < 0 then 0 else n }

  ghost function Released(latest: map<Revision, map<nat, nat>>, usage: map<Agent, int>, agent: Agent, gone: set<Revision>): map<Agent, int> {
    if agent !in usage then usage else usage[agent := Floored(usage[agent] - Sum(Within(Bytes(latest), gone)))]
  }

  ghost function Deleted(db: Database, agent: Agent, dashboard: Name): Database {
    var gone := Owned(db, agent, dashboard);
    db.(
      usage := Released(db.latest, db.usage, agent, gone),
      retained := Floored(db.retained - Sum(Within(db.temporal, gone))),
      widgets := db.widgets - gone,
      latest := db.latest - gone,
      temporal := db.temporal - gone)
  }

  // ---- Runs ----

  datatype Event =
    | PublishData(request: Request, visible: set<Key>)
    | CreateDashboard(agent: Agent, dashboard: Name, widgets: map<Revision, Widget>)
    | DeleteDashboard(agent: Agent, dashboard: Name)
    | ExpireRecords(expired: map<Revision, nat>)
    | ExpireKeys(keys: set<Key>)

  datatype Receipt = Receipt(mode: Mode, request: Request)

  // Idempotency rows removed when the first `at` publishes had taken effect.
  datatype Cleanup = Cleanup(at: nat, keys: set<Key>)

  // `log` is the history of publishes that took effect.
  datatype State = State(db: Database, log: seq<Receipt>, cleanups: seq<Cleanup>)

  // Retention removes some of a widget's rows, at most what it has.
  predicate Expirable(db: Database, expired: map<Revision, nat>) {
    forall rev | rev in expired :: rev in db.temporal && expired[rev] <= db.temporal[rev]
  }

  function Remaining(temporal: map<Revision, nat>, expired: map<Revision, nat>): map<Revision, nat>
    requires forall rev | rev in expired :: rev in temporal && expired[rev] <= temporal[rev]
  {
    map rev | rev in temporal :: temporal[rev] - if rev in expired then expired[rev] else 0
  }

  ghost function Expired(db: Database, expired: map<Revision, nat>): Database
    requires Expirable(db, expired)
  {
    db.(temporal := Remaining(db.temporal, expired), retained := Floored(db.retained - Sum(expired)))
  }

  // A new dashboard has widgets of its own names under revisions never used.
  ghost predicate Creatable(db: Database, agent: Agent, dashboard: Name, widgets: map<Revision, Widget>) {
    && Owned(db, agent, dashboard) == {}
    && widgets.Keys !! db.widgets.Keys
    && (forall rev | rev in widgets :: widgets[rev].path.agent == agent && widgets[rev].path.dashboard == dashboard)
    && (forall a, b | a in widgets && b in widgets && widgets[a].path == widgets[b].path :: a == b)
  }

  ghost function Apply(q: Quota, s: State, e: Event): State {
    match e
    case PublishData(r, visible) =>
      if Verdict(s.db, q, r, visible).Accepted?
      then s.(db := Effect(s.db, r), log := s.log + [Receipt(s.db.widgets[r.dataRevision].mode, r)])
      else s
    case CreateDashboard(agent, dashboard, widgets) =>
      if Creatable(s.db, agent, dashboard, widgets) then s.(db := s.db.(widgets := s.db.widgets + widgets)) else s
    case DeleteDashboard(agent, dashboard) => s.(db := Deleted(s.db, agent, dashboard))
    case ExpireRecords(expired) => if Expirable(s.db, expired) then s.(db := Expired(s.db, expired)) else s
    case ExpireKeys(keys) => s.(db := s.db.(replays := s.db.replays - keys), cleanups := s.cleanups + [Cleanup(|s.log|, keys)])
  }

  ghost function Run(q: Quota, s: State, events: seq<Event>): State {
    if events == [] then s else Apply(q, Run(q, s, events[..|events| - 1]), events[|events| - 1])
  }

  const Initial := State(Database(map[], map[], map[], map[], 0, map[], map[]), [], [])

  // ---- The invariant ----

  // The stored size of each of an agent's latest widgets.
  ghost function Stored(widgets: map<Revision, Widget>, latest: map<Revision, map<nat, nat>>, agent: Agent): map<Revision, nat> {
    map rev | rev in latest && rev in widgets && widgets[rev].path.agent == agent :: Sum(latest[rev])
  }

  ghost predicate UsageExact(widgets: map<Revision, Widget>, latest: map<Revision, map<nat, nat>>, usage: map<Agent, int>) {
    forall agent :: UsageOf(usage, agent) == Sum(Stored(widgets, latest, agent))
  }

  ghost predicate UsageBounded(usage: map<Agent, int>, q: Quota) {
    forall agent | agent in usage :: usage[agent] <= q.latestBytesPerAgent
  }

  function LogCharge(log: seq<Receipt>, w: Window): Counters {
    if log == [] then Counters(0, 0, 0)
    else
      var before, last := LogCharge(log[..|log| - 1], w), Charge(log[|log| - 1].mode, log[|log| - 1].request, w);
      Counters(before.calls + last.calls, before.records + last.records, before.bytes + last.bytes)
  }

  predicate WithinQuota(c: Counters, w: Window, q: Quota) {
    match w
    case Minute(_, _, _) => c.calls <= q.requestsPerMinute
    case Day(_, _) => c.bytes <= q.acceptedBytesPerDay && c.records <= q.temporalRecordsPerDay
  }

  ghost predicate WindowsExact(windows: map<Window, Counters>, log: seq<Receipt>, q: Quota) {
    forall w :: CountersOf(windows, w) == LogCharge(log, w) && WithinQuota(CountersOf(windows, w), w, q)
  }

  predicate Recorded(replays: map<Key, Replay>, r: Request) {
    r.Key() in replays && replays[r.Key()] == Replay(r.hash, r.receivedAt, |r.sizes|)
  }

  // Some clean-up removed the key after publish i and before publish j.
  ghost predicate Cleared(cleanups: seq<Cleanup>, key: Key, i: nat, j: nat) {
    exists c :: c in cleanups && i < c.at <= j && key in c.keys
  }

  // What took effect is on record until it is cleaned up, and a key takes
  // effect again only after that.
  ghost predicate ReplaysExact(replays: map<Key, Replay>, log: seq<Receipt>, cleanups: seq<Cleanup>) {
    && (forall c :: c in cleanups ==> c.at <= |log|)
    && (forall i | 0 <= i < |log| :: Cleared(cleanups, log[i].request.Key(), i, |log|) || Recorded(replays, log[i].request))
    && (forall i, j | 0 <= i < j < |log| && log[i].request.Key() == log[j].request.Key() :: Cleared(cleanups, log[i].request.Key(), i, j))
  }

  ghost predicate TablesLinked(db: Database) {
    && UniquePaths(db)
    && db.latest.Keys <= db.widgets.Keys
    && db.temporal.Keys <= db.widgets.Keys
  }

  ghost predicate TablesExact(db: Database, q: Quota) {
    && TablesLinked(db)
    && UsageExact(db.widgets, db.latest, db.usage)
    && UsageBounded(db.usage, q)
    && db.retained == Sum(db.temporal) <= q.retainedTemporalRecords
  }

  ghost predicate Inv(q: Quota, s: State) {
    && TablesExact(s.db, q)
    && WindowsExact(s.db.windows, s.log, q)
    && ReplaysExact(s.db.replays, s.log, s.cleanups)
  }

  // ---- Each part is kept ----

  lemma StoredAfterReplace(widgets: map<Revision, Widget>, latest: map<Revision, map<nat, nat>>, rev: Revision, sizes: seq<nat>, agent: Agent)
    requires rev in widgets
    ensures Sum(Stored(widgets, latest[rev := Rows(sizes)], agent))
         == Sum(Stored(widgets, latest, agent))
          + if widgets[rev].path.agent == agent then Total(sizes) - Sum(RowsOf(latest, rev)) else 0
  {
    var before := Stored(widgets, latest, agent);
    var after := Stored(widgets, latest[rev := Rows(sizes)], agent);
    if agent == widgets[rev].path.agent {
      RowsTotal(sizes);
      SumUpdate<Revision>(before, rev, Total(sizes));
      assert after == before[rev := Total(sizes)];
      assert Sum(RowsOf(latest, rev)) == if rev in before then before[rev] else 0;
    } else {
      assert after == before;
    }
  }

  lemma ReplacedKeepsUsage(widgets: map<Revision, Widget>, latest: map<Revision, map<nat, nat>>, usage: map<Agent, int>, r: Request, delta: int)
    requires UsageExact(widgets, latest, usage)
    requires r.dataRevision in widgets && widgets[r.dataRevision].path == r.path
    requires delta == Delta(latest, r)
    ensures UsageExact(widgets, latest[r.dataRevision := Rows(r.sizes)], usage[r.path.agent := NextUsage(usage, r.path.agent, delta)])
  {
    var latest' := latest[r.dataRevision := Rows(r.sizes)];
    var usage' := usage[r.path.agent := NextUsage(usage, r.path.agent, delta)];
    forall agent ensures UsageOf(usage', agent) == Sum(Stored(widgets, latest', agent)) {
      assert UsageOf(usage, agent) == Sum(Stored(widgets, latest, agent));
      StoredAfterReplace(widgets, latest, r.dataRevision, r.sizes, agent);
    }
  }

  // The trigger's floor at zero is never what decides.
  lemma DeletedKeepsUsage(db: Database, agent: Agent, dashboard: Name)
    requires db.latest.Keys <= db.widgets.Keys
    requires UsageExact(db.widgets, db.latest, db.usage)
    ensures var gone := Owned(db, agent, dashboard);
      UsageExact(db.widgets - gone, db.latest - gone, Released(db.latest, db.usage, agent, gone))
  {
    var gone := Owned(db, agent, dashboard);
    var usage' := Released(db.latest, db.usage, agent, gone);
    forall a ensures UsageOf(usage', a) == Sum(Stored(db.widgets - gone, db.latest - gone, a)) {
      var before := Stored(db.widgets, db.latest, a);
      assert UsageOf(db.usage, a) == Sum(before);
      SumSplit(before, gone);
      assert Stored(db.widgets - gone, db.latest - gone, a) == before - gone;
      if a == agent {
        assert Within(Bytes(db.latest), gone) == map k | k in before && k in gone :: before[k];
      } else {
        assert before - gone == before;
      }
    }
  }

  lemma CreatedKeepsUsage(db: Database, agent: Agent, dashboard: Name, widgets: map<Revision, Widget>)
    requires db.latest.Keys <= db.widgets.Keys
    requires UsageExact(db.widgets, db.latest, db.usage)
    requires widgets.Keys !! db.widgets.Keys
    ensures UsageExact(db.widgets + widgets, db.latest, db.usage)
  {
    forall a ensures UsageOf(db.usage, a) == Sum(Stored(db.widgets + widgets, db.latest, a)) {
      assert UsageOf(db.usage, a) == Sum(Stored(db.widgets, db.latest, a));
      assert Stored(db.widgets + widgets, db.latest, a) == Stored(db.widgets, db.latest, a);
    }
  }

  lemma CreatedKeepsPaths(db: Database, agent: Agent, dashboard: Name, widgets: map<Revision, Widget>)
    requires UniquePaths(db)
    requires Creatable(db, agent, dashboard, widgets)
    ensures UniquePaths(db.(widgets := db.widgets + widgets))
  {
    var all := db.widgets + widgets;
    forall a, b | a in all && b in all && all[a].path == all[b].path ensures a == b {
      assert a in db.widgets && b in widgets ==> a in Owned(db, agent, dashboard);
      assert b in db.widgets && a in widgets ==> b in Owned(db, agent, dashboard);
    }
  }

  lemma ChargedKeepsWindows(windows: map<Window, Counters>, log: seq<Receipt>, q: Quota, mode: Mode, r: Request)
    requires WindowsExact(windows, log, q)
    requires MinuteFits(windows, q, r) && DayBytesFit(windows, q, r) && DayRecordsFit(windows, q, mode, r)
    ensures WindowsExact(Charged(windows, mode, r), log + [Receipt(mode, r)], q)
  {
    var log' := log + [Receipt(mode, r)];
    forall w ensures CountersOf(Charged(windows, mode, r), w) == LogCharge(log', w) && WithinQuota(LogCharge(log', w), w, q) {
      assert CountersOf(windows, w) == LogCharge(log, w) && WithinQuota(CountersOf(windows, w), w, q);
      ChargedAt(windows, log, q, mode, r, w);
    }
  }

  lemma ChargedAt(windows: map<Window, Counters>, log: seq<Receipt>, q: Quota, mode: Mode, r: Request, w: Window)
    requires CountersOf(windows, w) == LogCharge(log, w) && WithinQuota(CountersOf(windows, w), w, q)
    requires MinuteFits(windows, q, r) && DayBytesFit(windows, q, r) && DayRecordsFit(windows, q, mode, r)
    ensures CountersOf(Charged(windows, mode, r), w) == LogCharge(log + [Receipt(mode, r)], w)
    ensures WithinQuota(CountersOf(Charged(windows, mode, r), w), w, q)
  {
    assert (log + [Receipt(mode, r)])[..|log|] == log;
  }

  lemma ClearedGrows(cleanups: seq<Cleanup>, more: seq<Cleanup>, key: Key, i: nat, j: nat, k: nat)
    requires Cleared(cleanups, key, i, j) && j <= k
    ensures Cleared(cleanups + more, key, i, k)
  {
    var c :| c in cleanups && i < c.at <= j && key in c.keys;
    assert c in cleanups + more;
  }

  lemma SavedKeepsReplays(replays: map<Key, Replay>, log: seq<Receipt>, cleanups: seq<Cleanup>, mode: Mode, r: Request)
    requires ReplaysExact(replays, log, cleanups)
    requires r.Key() !in replays
    ensures ReplaysExact(replays[r.Key() := Replay(r.hash, r.receivedAt, |r.sizes|)], log + [Receipt(mode, r)], cleanups)
  {
    var n, replays', log' := |log|, replays[r.Key() := Replay(r.hash, r.receivedAt, |r.sizes|)], log + [Receipt(mode, r)];
    assert cleanups + [] == cleanups;
    forall i | 0 <= i < n
      ensures Cleared(cleanups, log[i].request.Key(), i, n + 1) || Recorded(replays', log[i].request)
      ensures log[i].request.Key() == r.Key() ==> Cleared(cleanups, r.Key(), i, n)
    {
      if Cleared(cleanups, log[i].request.Key(), i, n) {
        ClearedGrows(cleanups, [], log[i].request.Key(), i, n, n + 1);
      } else {
        assert Recorded(replays, log[i].request);
      }
    }
    assert Recorded(replays', log'[n].request);
  }

  lemma CleanedKeepsReplays(replays: map<Key, Replay>, log: seq<Receipt>, cleanups: seq<Cleanup>, keys: set<Key>)
    requires ReplaysExact(replays, log, cleanups)
    ensures ReplaysExact(replays - keys, log, cleanups + [Cleanup(|log|, keys)])
  {
    var more := [Cleanup(|log|, keys)];
    forall i | 0 <= i < |log|
      ensures Cleared(cleanups + more, log[i].request.Key(), i, |log|) || Recorded(replays - keys, log[i].request)
    {
      if Cleared(cleanups, log[i].request.Key(), i, |log|) {
        ClearedGrows(cleanups, more, log[i].request.Key(), i, |log|, |log|);
      } else if log[i].request.Key() in keys {
        assert Cleanup(|log|, keys) in cleanups + more;
      }
    }
    forall i, j | 0 <= i < j < |log| && log[i].request.Key() == log[j].request.Key()
      ensures Cleared(cleanups + more, log[i].request.Key(), i, j)
    {
      ClearedGrows(cleanups, more, log[i].request.Key(), i, j, j);
    }
  }

  // Retention gives back exactly the rows it removed; the floor never decides.
  lemma ExpiredTotal(temporal: map<Revision, nat>, expired: map<Revision, nat>)
    requires forall rev | rev in expired :: rev in temporal && expired[rev] <= temporal[rev]
    ensures Sum(Remaining(temporal, expired)) == Sum(temporal) - Sum(expired)
  {
    SumAdd<Revision>(Remaining(temporal, expired), expired, temporal);
  }

  lemma ExpiredKeeps(q: Quota, s: State, expired: map<Revision, nat>)
    requires Inv(q, s) && Expirable(s.db, expired)
    ensures Inv(q, s.(db := Expired(s.db, expired)))
  {
    ExpiredTotal(s.db.temporal, expired);
  }

  lemma LatestKeepsTables(db: Database, q: Quota, r: Request)
    requires TablesExact(db, q)
    requires Names(db, r.dataRevision, r.path) && db.widgets[r.dataRevision].mode == Latest
    requires LatestFits(db.usage, r.path.agent, Delta(db.latest, r), q.latestBytesPerAgent)
    ensures TablesExact(Placed(db, r), q)
  {
    var delta := Delta(db.latest, r);
    ReplacedKeepsUsage(db.widgets, db.latest, db.usage, r, delta);
    assert UsageBounded(db.usage[r.path.agent := NextUsage(db.usage, r.path.agent, delta)], q);
  }

  lemma AppendedTotal(temporal: map<Revision, nat>, rev: Revision, n: nat)
    ensures Sum(temporal[rev := TemporalOf(temporal, rev) + n]) == Sum(temporal) + n
  {
    SumUpdate<Revision>(temporal, rev, TemporalOf(temporal, rev) + n);
  }

  lemma TemporalKeepsTables(db: Database, q: Quota, r: Request)
    requires TablesExact(db, q)
    requires Names(db, r.dataRevision, r.path) && db.widgets[r.dataRevision].mode == Temporal
    requires db.retained + |r.sizes| <= q.retainedTemporalRecords
    ensures TablesExact(Placed(db, r), q)
  {
    var db' := Placed(db, r);
    AppendedTotal(db.temporal, r.dataRevision, |r.sizes|);
    assert db'.temporal == db.temporal[r.dataRevision := TemporalOf(db.temporal, r.dataRevision) + |r.sizes|];
    assert UsageExact(db'.widgets, db'.latest, db'.usage);
  }

  lemma AcceptedKeeps(q: Quota, s: State, r: Request)
    requires Inv(q, s)
    requires Names(s.db, r.dataRevision, r.path)
    requires Reserving(s.db, q, r).Accepted?
    ensures Inv(q, s.(db := Effect(s.db, r), log := s.log + [Receipt(s.db.widgets[r.dataRevision].mode, r)]))
  {
    var mode := s.db.widgets[r.dataRevision].mode;
    if mode == Latest {
      LatestKeepsTables(s.db, q, r);
    } else {
      TemporalKeepsTables(s.db, q, r);
    }
    ChargedKeepsWindows(s.db.windows, s.log, q, mode, r);
    SavedKeepsReplays(s.db.replays, s.log, s.cleanups, mode, r);
    assert TablesExact(Effect(s.db, r), q);
  }

  lemma DeletedKeeps(q: Quota, s: State, agent: Agent, dashboard: Name)
    requires Inv(q, s)
    ensures Inv(q, s.(db := Deleted(s.db, agent, dashboard)))
  {
    DeletedKeepsUsage(s.db, agent, dashboard);
    SumSplit(s.db.temporal, Owned(s.db, agent, dashboard));
  }

  lemma ApplyKeeps(q: Quota, s: State, e: Event)
    requires Inv(q, s)
    ensures Inv(q, Apply(q, s, e))
  {
    match e
    case PublishData(r, visible) =>
      if Verdict(s.db, q, r, visible).Accepted? {
        AcceptedKeeps(q, s, r);
      }
    case CreateDashboard(agent, dashboard, widgets) =>
      if Creatable(s.db, agent, dashboard, widgets) {
        CreatedKeepsUsage(s.db, agent, dashboard, widgets);
        CreatedKeepsPaths(s.db, agent, dashboard, widgets);
      }
    case DeleteDashboard(agent, dashboard) =>
      DeletedKeeps(q, s, agent, dashboard);
    case ExpireRecords(expired) =>
      if Expirable(s.db, expired) {
        ExpiredKeeps(q, s, expired);
      }
    case ExpireKeys(keys) =>
      CleanedKeepsReplays(s.db.replays, s.log, s.cleanups, keys);
  }

  lemma {:induction false} RunKeeps(q: Quota, s: State, events: seq<Event>)
    requires Inv(q, s)
    ensures Inv(q, Run(q, s, events))
  {
    if events != [] {
      RunKeeps(q, s, events[..|events| - 1]);
      ApplyKeeps(q, Run(q, s, events[..|events| - 1]), events[|events| - 1]);
    }
  }

  lemma InitialInv(q: Quota)
    ensures Inv(q, Initial)
  {
    forall agent ensures Sum(Stored(map[], map[], agent)) == 0 {
      assert Stored(map[], map[], agent) == map[];
    }
  }

  // ---- What holds after every run ----

  // Usage counters equal what is stored, and stay within the quota.
  lemma UsageEqualsStored(q: Quota, events: seq<Event>, agent: Agent)
    ensures var db := Run(q, Initial, events).db;
      && UsageOf(db.usage, agent) == Sum(Stored(db.widgets, db.latest, agent)) <= q.latestBytesPerAgent
      && db.retained == Sum(db.temporal) <= q.retainedTemporalRecords
  {
    InitialInv(q);
    RunKeeps(q, Initial, events);
    var db := Run(q, Initial, events).db;
    assert UsageOf(db.usage, agent) == Sum(Stored(db.widgets, db.latest, agent));
  }

  // What the accepted publishes of a window add up to stays within the quota.
  lemma WindowsWithinQuota(q: Quota, events: seq<Event>, w: Window)
    ensures WithinQuota(LogCharge(Run(q, Initial, events).log, w), w, q)
  {
    InitialInv(q);
    RunKeeps(q, Initial, events);
    assert CountersOf(Run(q, Initial, events).db.windows, w) == LogCharge(Run(q, Initial, events).log, w);
  }

  // What an accepted publish stores: a temporal widget gains its records, a
  // latest widget has exactly them, and no other widget's rows change.
  lemma AcceptedStores(db: Database, r: Request, rev: Revision)
    requires r.dataRevision in db.widgets
    ensures Effect(db, r).widgets == db.widgets
    ensures rev != r.dataRevision ==> SameRows(db, Effect(db, r), rev)
    ensures rev == r.dataRevision && db.widgets[rev].mode.Temporal? ==>
      TemporalOf(Effect(db, r).temporal, rev) == TemporalOf(db.temporal, rev) + |r.sizes|
    ensures rev == r.dataRevision && db.widgets[rev].mode.Latest? ==> Lists(RowsOf(Effect(db, r).latest, rev), r.sizes)
  {
  }

  predicate SameRows(a: Database, b: Database, rev: Revision) {
    TemporalOf(b.temporal, rev) == TemporalOf(a.temporal, rev) && RowsOf(b.latest, rev) == RowsOf(a.latest, rev)
  }

  ghost predicate Lists(rows: map<nat, nat>, sizes: seq<nat>) {
    forall i: nat :: (i in rows <==> i < |sizes|) && (i in rows ==> rows[i] == sizes[i])
  }

  // A deleted dashboard is gone with its rows, and nothing else is.
  lemma DeletedExact(db: Database, agent: Agent, dashboard: Name, rev: Revision)
    requires TablesLinked(db)
    ensures var db' := Deleted(db, agent, dashboard);
      && (rev in db'.widgets <==> rev in db.widgets && !(db.widgets[rev].path.agent == agent && db.widgets[rev].path.dashboard == dashboard))
      && (rev in db'.widgets ==> db'.widgets[rev] == db.widgets[rev] && SameRows(db, db', rev))
      && (rev !in db'.widgets ==> RowsOf(db'.latest, rev) == map[] && TemporalOf(db'.temporal, rev) == 0)
      && db'.replays == db.replays && db'.windows == db.windows
  {
  }

  // ---- The same on the history alone ----

  // The records an agent appended to temporal widgets on a day.
  function TemporalOn(log: seq<Receipt>, agent: Agent, day: int): nat {
    if log == [] then 0
    else
      var e := log[|log| - 1];
      TemporalOn(log[..|log| - 1], agent, day)
        + if e.mode.Temporal? && e.request.path.agent == agent && e.request.receivedAt.day == day then |e.request.sizes| else 0
  }

  // The bytes of all its accepted records of a day, in either mode.
  function BytesOn(log: seq<Receipt>, agent: Agent, day: int): nat {
    if log == [] then 0
    else
      var e := log[|log| - 1];
      BytesOn(log[..|log| - 1], agent, day)
        + if e.request.path.agent == agent && e.request.receivedAt.day == day then Total(e.request.sizes) else 0
  }

  // The publishes of a minute.
  function PublishesIn(log: seq<Receipt>, agent: Agent, day: int, minute: nat): nat {
    if log == [] then 0
    else
      var e := log[|log| - 1];
      PublishesIn(log[..|log| - 1], agent, day, minute)
        + if e.request.path.agent == agent && e.request.receivedAt.day == day && e.request.receivedAt.minute == minute then 1 else 0
  }

  lemma {:induction false} DayCharge(log: seq<Receipt>, agent: Agent, day: int)
    ensures LogCharge(log, Day(agent, day)) == Counters(0, TemporalOn(log, agent, day), BytesOn(log, agent, day))
  {
    if log != [] { DayCharge(log[..|log| - 1], agent, day); }
  }

  lemma {:induction false} MinuteCharge(log: seq<Receipt>, agent: Agent, day: int, minute: nat)
    ensures LogCharge(log, Minute(agent, day, minute)) == Counters(PublishesIn(log, agent, day, minute), 0, 0)
  {
    if log != [] { MinuteCharge(log[..|log| - 1], agent, day, minute); }
  }

  // After any run every day's temporal records and bytes and every minute's
  // publishes are within the quota, and the stored counters are exactly those.
  lemma HistoryWithinQuota(q: Quota, events: seq<Event>, agent: Agent, day: int, minute: nat)
    ensures var s := Run(q, Initial, events);
      && TemporalOn(s.log, agent, day) <= q.temporalRecordsPerDay
      && BytesOn(s.log, agent, day) <= q.acceptedBytesPerDay
      && PublishesIn(s.log, agent, day, minute) <= q.requestsPerMinute
      && CountersOf(s.db.windows, Day(agent, day)) == Counters(0, TemporalOn(s.log, agent, day), BytesOn(s.log, agent, day))
      && CountersOf(s.db.windows, Minute(agent, day, minute)) == Counters(PublishesIn(s.log, agent, day, minute), 0, 0)
  {
    var s := Run(q, Initial, events);
    InitialInv(q);
    RunKeeps(q, Initial, events);
    DayCharge(s.log, agent, day);
    MinuteCharge(s.log, agent, day, minute);
    assert CountersOf(s.db.windows, Day(agent, day)) == LogCharge(s.log, Day(agent, day));
    assert CountersOf(s.db.windows, Minute(agent, day, minute)) == LogCharge(s.log, Minute(agent, day, minute));
    assert WithinQuota(CountersOf(s.db.windows, Day(agent, day)), Day(agent, day), q);
    assert WithinQuota(CountersOf(s.db.windows, Minute(agent, day, minute)), Minute(agent, day, minute), q);
  }

  // Quotas are 64-bit integers.
  predicate Quota64(q: Quota) {
    q.requestsPerMinute <= MaxInt64 && q.acceptedBytesPerDay <= MaxInt64 && q.temporalRecordsPerDay <= MaxInt64
  }

  // The day has room for the request's bytes and, if temporal, its records.
  predicate RoomInDay(q: Quota, log: seq<Receipt>, mode: Mode, r: Request) {
    && BytesOn(log, r.path.agent, r.receivedAt.day) + Total(r.sizes) <= q.acceptedBytesPerDay
    && (mode.Temporal? ==> TemporalOn(log, r.path.agent, r.receivedAt.day) + |r.sizes| <= q.temporalRecordsPerDay)
  }

  ghost predicate RoomInStore(q: Quota, db: Database, r: Request)
    requires r.dataRevision in db.widgets
  {
    if db.widgets[r.dataRevision].mode.Temporal? then Sum(db.temporal) + |r.sizes| <= q.retainedTemporalRecords
    else Sum(Stored(db.widgets, db.latest, r.path.agent)) - Sum(RowsOf(db.latest, r.dataRevision)) + Total(r.sizes) <= q.latestBytesPerAgent
  }

  lemma WindowRoom(q: Quota, windows: map<Window, Counters>, log: seq<Receipt>, mode: Mode, r: Request)
    requires Quota64(q) && WindowsExact(windows, log, q)
    ensures MinuteFits(windows, q, r) && DayBytesFit(windows, q, r) && DayRecordsFit(windows, q, mode, r) <==>
      && PublishesIn(log, r.path.agent, r.receivedAt.day, r.receivedAt.minute) < q.requestsPerMinute
      && RoomInDay(q, log, mode, r)
  {
    DayCharge(log, r.path.agent, r.receivedAt.day);
    MinuteCharge(log, r.path.agent, r.receivedAt.day, r.receivedAt.minute);
    assert CountersOf(windows, r.Day()) == LogCharge(log, r.Day()) && WithinQuota(CountersOf(windows, r.Day()), r.Day(), q);
    assert CountersOf(windows, r.Minute()) == LogCharge(log, r.Minute());
  }

  lemma StoreRoom(q: Quota, db: Database, r: Request)
    requires TablesExact(db, q) && Names(db, r.dataRevision, r.path)
    ensures RoomInStore(q, db, r) <==>
      if db.widgets[r.dataRevision].mode == Temporal then db.retained + |r.sizes| <= q.retainedTemporalRecords
      else LatestFits(db.usage, r.path.agent, Delta(db.latest, r), q.latestBytesPerAgent)
  {
    var stored := Stored(db.widgets, db.latest, r.path.agent);
    assert UsageOf(db.usage, r.path.agent) == Sum(stored);
    RowsWithin(db, r.dataRevision, r.path.agent);
  }

  lemma RowsWithin(db: Database, rev: Revision, agent: Agent)
    requires rev in db.widgets && db.widgets[rev].path.agent == agent
    ensures Sum(RowsOf(db.latest, rev)) <= Sum(Stored(db.widgets, db.latest, agent))
  {
    if rev in db.latest { SumPick<Revision>(Stored(db.widgets, db.latest, agent), rev); }
  }

  // After any run a publish is accepted exactly when its checks pass, its key is
  // not on record, and the history and the stored rows leave room for it.
  lemma AcceptedIff(q: Quota, events: seq<Event>, r: Request, visible: set<Key>)
    requires Quota64(q)
    ensures var s := Run(q, Initial, events);
      Verdict(s.db, q, r, visible).Accepted? <==>
        && Reaches(s.db, q, r) && r.Key() !in s.db.replays
        && PublishesIn(s.log, r.path.agent, r.receivedAt.day, r.receivedAt.minute) < q.requestsPerMinute
        && RoomInDay(q, s.log, s.db.widgets[r.dataRevision].mode, r)
        && RoomInStore(q, s.db, r)
  {
    var s := Run(q, Initial, events);
    InitialInv(q);
    RunKeeps(q, Initial, events);
    if Reaches(s.db, q, r) {
      WindowRoom(q, s.db.windows, s.log, s.db.widgets[r.dataRevision].mode, r);
      StoreRoom(q, s.db, r);
      ReachesReserving(s.db, q, r, visible);
    }
  }

  lemma ReachesReserving(db: Database, q: Quota, r: Request, visible: set<Key>)
    requires Reaches(db, q, r)
    ensures Verdict(db, q, r, visible).Accepted? <==> Reserving(db, q, r).Accepted?
  {
  }

  // A key takes effect at most once between two clean-ups of it.
  lemma KeyTakesEffectOnce(q: Quota, events: seq<Event>, i: nat, j: nat)
    requires i < j < |Run(q, Initial, events).log|
    requires var a, b := Run(q, Initial, events).log[i].request, Run(q, Initial, events).log[j].request;
      a.path.agent == b.path.agent && a.key == b.key
    ensures var a := Run(q, Initial, events).log[i].request;
      exists c :: c in Run(q, Initial, events).cleanups && i < c.at <= j && (a.path.agent, a.key) in c.keys
  {
    InitialInv(q);
    RunKeeps(q, Initial, events);
    var s := Run(q, Initial, events);
    assert Cleared(s.cleanups, s.log[i].request.Key(), i, j);
  }

  lemma {:induction false} LogGrows(q: Quota, s: State, events: seq<Event>)
    ensures |s.log| <= |Run(q, s, events).log| && Run(q, s, events).log[..|s.log|] == s.log
  {
    if events != [] {
      LogGrows(q, s, events[..|events| - 1]);
    }
  }

  // A key on record is answered from the record, and nothing is charged.
  lemma RecordedVerdict(q: Quota, s: State, first: Request, retry: Request, visible: set<Key>)
    requires Recorded(s.db.replays, first) && retry.Key() == first.Key()
    ensures var outcome := Verdict(s.db, q, retry, visible);
      && Apply(q, s, PublishData(retry, visible)) == s
      && (outcome.Replayed? ==> outcome == Replayed(|first.sizes|, first.receivedAt) && retry.hash == first.hash)
      && (Reaches(s.db, q, retry) && retry.Key() in visible ==> if retry.hash == first.hash then outcome.Replayed? else outcome == Refused(KeyConflict))
  {
  }

  // The request passes every check that comes before the idempotency key.
  predicate Reaches(db: Database, q: Quota, r: Request) {
    1 <= |r.sizes| <= q.recordsPerRequest && Names(db, r.dataRevision, r.path) && r.valid
  }

  // A retry of a publish that took effect never takes effect again while its
  // record is kept, whatever else happened in between: it returns the original
  // result, unless the key now comes with another body or an earlier check
  // refuses it.
  lemma RetryReturnsOriginal(q: Quota, s: State, i: nat, events: seq<Event>, retry: Request, visible: set<Key>)
    requires Inv(q, s) && i < |s.log| && !Cleared(Run(q, s, events).cleanups, retry.Key(), i, |Run(q, s, events).log|)
    requires retry.path.agent == s.log[i].request.path.agent && retry.key == s.log[i].request.key
    ensures var s' := Run(q, s, events);
      var first, outcome := s.log[i].request, Verdict(s'.db, q, retry, visible);
      && Apply(q, s', PublishData(retry, visible)) == s'
      && (outcome.Replayed? ==> outcome == Replayed(|first.sizes|, first.receivedAt) && retry.hash == first.hash)
      && (Reaches(s'.db, q, retry) && retry.Key() in visible ==> if retry.hash == first.hash then outcome.Replayed? else outcome == Refused(KeyConflict))
  {
    var s' := Run(q, s, events);
    LogRecorded(q, s, i, events);
    RecordedVerdict(q, s', s.log[i].request, retry, visible);
  }

  lemma LogRecorded(q: Quota, s: State, i: nat, events: seq<Event>)
    requires Inv(q, s) && i < |s.log|
    requires !Cleared(Run(q, s, events).cleanups, s.log[i].request.Key(), i, |Run(q, s, events).log|)
    ensures Recorded(Run(q, s, events).db.replays, s.log[i].request)
  {
    var s' := Run(q, s, events);
    RunKeeps(q, s, events);
    LogGrows(q, s, events);
    assert s'.log[i] == s'.log[..|s.log|][i];
    assert s'.log[i] == s.log[i];
  }
}
