/** Billing: hourly ticks while sessions run and a final charge when one ends, into one cost table. */
module CostTracker {
  import opened Wrappers
  import opened Clock
  import opened Sessions
  import opened CostStorage

  /** A session as billing reads it. Time zero stands for a time that was never set. */
  datatype BilledSession = BilledSession(id: string, consumerID: string, provider: string, gpuType: string,
                                         price: real, status: SessionStatus, createdAt: Time, stoppedAt: Option<Time>)
  {
    function EndTime(now: Time): Time {
      if stoppedAt.Some? then stoppedAt.value else now
    }

    function RecordFor(hour: Time): CostRecord {
      CostRecord(id, consumerID, provider, gpuType, hour, price)
    }

    /** Whether a final charge records anything. */
    predicate Chargeable(now: Time) {
      price > 0.0 && createdAt != 0 && EndTime(now) > createdAt
    }
  }

  function Truncate(t: Time): Time {
    t - t % HOUR
  }

  /** How many clock hours an interval touches. */
  function HoursTouched(start: Time, end: Time): nat
    requires start <= end
  {
    (Truncate(end) - Truncate(start)) / HOUR + 1
  }

  /** The table after charging some consecutive hours. */
  function Charged(rows: seq<CostRecord>, s: BilledSession, first: Time, n: nat): seq<CostRecord> {
    if n == 0 then rows else Upsert(Charged(rows, s, first, n - 1), s.RecordFor(first + (n - 1) * HOUR))
  }

  function Finalized(rows: seq<CostRecord>, s: BilledSession, now: Time): seq<CostRecord> {
    if s.Chargeable(now) then Charged(rows, s, Truncate(s.createdAt), HoursTouched(s.createdAt, s.EndTime(now))) else rows
  }

  /** The table after one tick over a list of sessions. */
  function Ticked(rows: seq<CostRecord>, sessions: seq<BilledSession>, now: Time): seq<CostRecord> {
    if sessions == [] then rows
    else
      var before, s := Ticked(rows, sessions[..|sessions| - 1], now), sessions[|sessions| - 1];
      if s.status == Running then Upsert(before, s.RecordFor(Truncate(now))) else before
  }

  /** What billing does: a tick over the listed sessions, or the final charge of one. */
  datatype Event = Tick(sessions: seq<BilledSession>, now: Time) | Final(session: BilledSession, now: Time)
  {
    /** Whether it charges a session for a clock hour: a tick for the present one while the session runs, a final
        charge for each one from the creation to the end. */
    ghost predicate ChargesHour(id: string, hour: Time) {
      match this
      case Tick(sessions, now) => hour == now - now % HOUR && exists s <- sessions :: s.id == id && s.status == Running
      case Final(s, now) =>
        var end := if s.stoppedAt.Some? then s.stoppedAt.value else now;
        && s.id == id && s.price > 0.0 && s.createdAt != 0 && s.createdAt < end
        && hour % HOUR == 0 && s.createdAt - HOUR < hour <= end
    }

    /** The rows it writes. */
    ghost predicate Charges(r: CostRecord) {
      match this
      case Tick(sessions, now) =>
        exists s <- sessions :: s.status == Running && r == CostRecord(s.id, s.consumerID, s.provider, s.gpuType, now - now % HOUR, s.price)
      case Final(s, _) =>
        ChargesHour(s.id, r.hour) && r == CostRecord(s.id, s.consumerID, s.provider, s.gpuType, r.hour, s.price)
    }

    /** The table before and after: the rows it writes, and those of other sessions and hours. */
    ghost predicate Leads(before: seq<CostRecord>, after: seq<CostRecord>) {
      forall r :: r in after <==> Charges(r) || (r in before && !ChargesHour(r.sessionID, r.hour))
    }

    ghost predicate ListsOnce() {
      Tick? ==> forall i, j :: 0 <= i < j < |sessions| ==> sessions[i].id != sessions[j].id
    }
  }

  /** Each active session once, in some order. */
  ghost predicate ListsActive(rows: map<string, BilledSession>, list: seq<BilledSession>) {
    && (forall i, j :: 0 <= i < j < |list| ==> list[i].id != list[j].id)
    && (forall s :: s in list <==> s.id in rows && rows[s.id] == s && (s.status == Pending || s.status == Provisioning || s.status == Running))
  }

  /** The session table as billing reads it. */
  class SessionTable {
    var rows: map<string, BilledSession>

    ghost predicate Filed()
      reads this
    {
      forall id <- rows :: rows[id].id == id
    }

    constructor ()
      ensures rows == map[]
    {
      rows := map[];
    }

    method GetActiveSessions() returns (list: seq<BilledSession>)
      requires Filed()
      ensures ListsActive(rows, list)
    {
      list := [];
      var todo := rows.Keys;
      while todo != {}
        invariant todo <= rows.Keys
        invariant forall i, j :: 0 <= i < j < |list| ==> list[i].id != list[j].id
        invariant forall s :: s in list <==> s.id in rows && s.id !in todo && rows[s.id] == s
                                             && (s.status == Pending || s.status == Provisioning || s.status == Running)
      {
        var id :| id in todo;
        var s := rows[id];
        if s.status == Pending || s.status == Provisioning || s.status == Running {
          list := list + [s];
        }
        todo := todo - {id};
      }
    }
  }

  class Tracker {
    const store: CostStore
    const sessions: SessionTable

    constructor (store: CostStore, sessions: SessionTable)
      ensures this.store == store && this.sessions == sessions
    {
      this.store, this.sessions := store, sessions;
    }

    /** Charges every clock hour from creation to the end. */
    method RecordFinalCost(s: BilledSession, now: Time)
      requires store.Valid()
      modifies store
      ensures store.Valid() && store.rows == Finalized(old(store.rows), s, now)
      ensures Final(s, now).Leads(old(store.rows), store.rows)
    {
      hide Upsert, OncePerHour, Event.Leads;
      FinalLeads(store.rows, s, now);
      if s.price <= 0.0 {
        return;
      }
      var endTime := if s.stoppedAt.Some? then s.stoppedAt.value else now;
      if s.createdAt == 0 || endTime <= s.createdAt {
        return;
      }
      var currentHour := Truncate(s.createdAt);
      ghost var n: nat := 0;
      TruncatedTimes(s.createdAt, endTime);
      while currentHour <= endTime
        invariant store.Valid() && n <= HoursTouched(s.createdAt, endTime)
        invariant currentHour == Truncate(s.createdAt) + n * HOUR
        invariant store.rows == Charged(old(store.rows), s, Truncate(s.createdAt), n)
        decreases endTime + HOUR - currentHour
      {
        HourReached(s.createdAt, endTime, n);
        store.Record(s.RecordFor(currentHour));
        currentHour := currentHour + HOUR;
        n := n + 1;
      }
      HourReached(s.createdAt, endTime, n);
    }

    /** Charges the present clock hour of every running session in the table, in the order they are listed. */
    method RecordCostsForRunningSessions(now: Time) returns (ghost list: seq<BilledSession>)
      requires store.Valid() && sessions.Filed()
      modifies store
      ensures store.Valid() && store.rows == Ticked(old(store.rows), list, now)
      ensures ListsActive(sessions.rows, list)
      ensures Tick(list, now).Leads(old(store.rows), store.rows)
      ensures forall id <- sessions.rows :: var s := sessions.rows[id];
                s.status == Running ==> CostRecord(id, s.consumerID, s.provider, s.gpuType, now - now % HOUR, s.price) in store.rows
    {
      hide Upsert, OncePerHour, Event.Leads;
      var active := sessions.GetActiveSessions();
      for i := 0 to |active|
        invariant store.Valid() && store.rows == Ticked(old(store.rows), active[..i], now)
      {
        assert active[..i + 1][..i] == active[..i];
        if active[i].status == Running {
          store.Record(active[i].RecordFor(Truncate(now)));
        }
      }
      assert active[..|active|] == active;
      list := active;
      TickLeads(old(store.rows), active, now);
      RunningCharged(old(store.rows), store.rows, sessions.rows, active, now);
    }
  }

  // ---- One event, in the fields of the rows ----

  lemma {:induction false} TickLeads(rows: seq<CostRecord>, sessions: seq<BilledSession>, now: Time)
    requires OncePerHour(rows) && Tick(sessions, now).ListsOnce()
    ensures OncePerHour(Ticked(rows, sessions, now)) && Tick(sessions, now).Leads(rows, Ticked(rows, sessions, now))
  {
    hide Upsert, OncePerHour, Event.Charges, Event.ChargesHour;
    if sessions == [] {
      NothingListed(now);
    } else {
      var init, s := sessions[..|sessions| - 1], sessions[|sessions| - 1];
      assert sessions == init + [s];
      TickLeads(rows, init, now);
      OneMoreListed(init, s, now);
      if s.status == Running {
        UpsertedRows(Ticked(rows, init, now), s.RecordFor(Truncate(now)));
      }
    }
  }

  lemma NothingListed(now: Time)
    ensures forall r: CostRecord :: !Tick([], now).Charges(r) && !Tick([], now).ChargesHour(r.sessionID, r.hour)
  {
  }

  lemma OneMoreListed(init: seq<BilledSession>, s: BilledSession, now: Time)
    requires Tick(init + [s], now).ListsOnce()
    ensures forall r: CostRecord :: Tick(init + [s], now).Charges(r)
              <==> Tick(init, now).Charges(r) || (s.status == Running && r == s.RecordFor(Truncate(now)))
    ensures forall r: CostRecord :: Tick(init + [s], now).ChargesHour(r.sessionID, r.hour)
              <==> Tick(init, now).ChargesHour(r.sessionID, r.hour) || (s.status == Running && r.SameHour(s.RecordFor(Truncate(now))))
    ensures forall r: CostRecord :: Tick(init, now).Charges(r) ==> r.sessionID != s.id
  {
    var sessions := init + [s];
    assert forall x :: x in sessions <==> x in init || x == s;
    forall x | x in init
      ensures x.id != s.id
    {
      var i :| 0 <= i < |init| && init[i] == x;
      assert sessions[i] == x && sessions[|init|] == s;
    }
  }

  lemma {:induction false} ChargedRows(rows: seq<CostRecord>, s: BilledSession, first: Time, n: nat)
    requires OncePerHour(rows)
    ensures OncePerHour(Charged(rows, s, first, n))
    ensures forall r :: r in Charged(rows, s, first, n)
              <==> (r == s.RecordFor(r.hour) && r.hour in HoursFrom(first, n))
                   || (r in rows && !(r.sessionID == s.id && r.hour in HoursFrom(first, n)))
  {
    hide Upsert, OncePerHour;
    if n > 0 {
      ChargedRows(rows, s, first, n - 1);
      UpsertedRows(Charged(rows, s, first, n - 1), s.RecordFor(first + (n - 1) * HOUR));
    }
  }

  /** The hours touched are the full hours later than one hour before the start, up to the end. */
  lemma HoursAreFull(start: Time, end: Time, h: Time)
    requires start <= end
    ensures h in BilledHours(start, end) <==> h % HOUR == 0 && start - HOUR < h <= end
  {
    var first, n := Truncate(start), HoursTouched(start, end);
    TruncatedTimes(start, end);
    TruncatedTimes(end, end);
    if h in BilledHours(start, end) {
      HourIsNth(first, n, h);
    } else if h % HOUR == 0 && start - HOUR < h <= end {
      FullHour(start, h);
      var k := (h - first) / HOUR;
      HourReached(start, end, k);
      HourIsOneOf(first, n, k);
    }
  }

  lemma FullHour(start: Time, h: Time)
    requires h % HOUR == 0 && start - HOUR < h
    ensures Truncate(start) <= h && h == Truncate(start) + (h - Truncate(start)) / HOUR * HOUR
  {
  }

  lemma {:induction false} HourIsNth(first: Time, n: nat, h: Time)
    requires h in HoursFrom(first, n) && first % HOUR == 0
    ensures h % HOUR == 0 && first <= h <= first + (n - 1) * HOUR
  {
    if h != first + (n - 1) * HOUR {
      HourIsNth(first, n - 1, h);
    }
  }

  lemma FinalLeads(rows: seq<CostRecord>, s: BilledSession, now: Time)
    requires OncePerHour(rows)
    ensures OncePerHour(Finalized(rows, s, now)) && Final(s, now).Leads(rows, Finalized(rows, s, now))
  {
    hide Charged, OncePerHour, Truncate, HoursTouched, HoursFrom;
    if s.Chargeable(now) {
      ChargedRows(rows, s, Truncate(s.createdAt), HoursTouched(s.createdAt, s.EndTime(now)));
      forall h: Time
        ensures h in BilledHours(s.createdAt, s.EndTime(now)) <==> Final(s, now).ChargesHour(s.id, h)
      {
        HoursAreFull(s.createdAt, s.EndTime(now), h);
      }
    }
  }

  lemma RunningCharged(before: seq<CostRecord>, after: seq<CostRecord>, sessions: map<string, BilledSession>, list: seq<BilledSession>, now: Time)
    requires (forall id <- sessions :: sessions[id].id == id) && ListsActive(sessions, list) && Tick(list, now).Leads(before, after)
    ensures forall id <- sessions :: var s := sessions[id];
              s.status == Running ==> CostRecord(id, s.consumerID, s.provider, s.gpuType, now - now % HOUR, s.price) in after
  {
    forall id | id in sessions && sessions[id].status == Running
      ensures Tick(list, now).Charges(CostRecord(id, sessions[id].consumerID, sessions[id].provider, sessions[id].gpuType, now - now % HOUR, sessions[id].price))
    {
      assert sessions[id] in list;
    }
  }

  // ---- Clock hours ----

  lemma TruncatedTimes(start: Time, end: Time)
    requires start <= end
    ensures Truncate(start) <= start < Truncate(start) + HOUR
    ensures Truncate(start) <= Truncate(end)
    ensures Truncate(end) == Truncate(start) + (HoursTouched(start, end) - 1) * HOUR
  {
    var a, b := start / HOUR, end / HOUR;
    assert Truncate(start) == a * HOUR && Truncate(end) == b * HOUR;
    assert (b - a) * HOUR / HOUR == b - a;
  }

  /** The n-th hour starts by the end exactly when it is one of the hours touched. */
  lemma HourReached(start: Time, end: Time, n: nat)
    requires start <= end
    ensures Truncate(start) + n * HOUR <= end <==> n < HoursTouched(start, end)
  {
    TruncatedTimes(start, end);
    TruncatedTimes(end, end);
  }

  /** More than the duration is paid for, and less than two hours more. */
  lemma PaidHours(start: Time, end: Time)
    requires start < end
    ensures end - start < HoursTouched(start, end) * HOUR < end - start + 2 * HOUR
  {
    TruncatedTimes(start, end);
    TruncatedTimes(end, end);
  }

  function HoursFrom(first: Time, n: nat): set<Time> {
    if n == 0 then {} else HoursFrom(first, n - 1) + {first + (n - 1) * HOUR}
  }

  lemma {:induction false} HoursFromAre(first: Time, n: nat)
    ensures |HoursFrom(first, n)| == n
    ensures forall h <- HoursFrom(first, n) :: first <= h < first + n * HOUR
  {
    if n > 0 {
      HoursFromAre(first, n - 1);
      var before, hour := HoursFrom(first, n - 1), first + (n - 1) * HOUR;
      assert hour == first + (n - 1) * HOUR && hour + HOUR == first + n * HOUR;
      assert hour !in before;
      assert |before + {hour}| == |before| + 1;
    }
  }

  lemma {:induction false} HourIsOneOf(first: Time, n: nat, k: nat)
    requires k < n
    ensures first + k * HOUR in HoursFrom(first, n)
  {
    if k < n - 1 {
      HourIsOneOf(first, n - 1, k);
    }
  }

  /** The clock hours a session is billed for. */
  function BilledHours(created: Time, stopped: Time): set<Time>
    requires created <= stopped
  {
    HoursFrom(Truncate(created), HoursTouched(created, stopped))
  }

  lemma HourIsBilled(created: Time, stopped: Time, t: Time)
    requires created <= t <= stopped
    ensures Truncate(t) in BilledHours(created, stopped)
  {
    TruncatedTimes(created, t);
    TruncatedTimes(t, stopped);
    TruncatedTimes(created, stopped);
    var k: nat := HoursTouched(created, t) - 1;
    assert k < HoursTouched(created, stopped);
    HourIsOneOf(Truncate(created), HoursTouched(created, stopped), k);
    assert Truncate(t) == Truncate(created) + k * HOUR;
  }

  // ---- Whole runs ----

  function After(rows: seq<CostRecord>, e: Event): seq<CostRecord> {
    match e
    case Tick(sessions, now) => Ticked(rows, sessions, now)
    case Final(session, now) => Finalized(rows, session, now)
  }

  function Run(rows: seq<CostRecord>, events: seq<Event>): seq<CostRecord> {
    if events == [] then rows else After(Run(rows, events[..|events| - 1]), events[|events| - 1])
  }

  lemma ChargedHourHasRow(e: Event, id: string, h: Time)
    requires e.ChargesHour(id, h)
    ensures exists r :: e.Charges(r) && r.sessionID == id && r.hour == h
  {
    match e
    case Tick(sessions, now) =>
      var s :| s in sessions && s.id == id && s.status == Running;
      assert e.Charges(CostRecord(s.id, s.consumerID, s.provider, s.gpuType, now - now % HOUR, s.price));
    case Final(s, now) =>
      assert e.Charges(CostRecord(s.id, s.consumerID, s.provider, s.gpuType, h, s.price));
  }

  lemma ChargesItsHour(e: Event, r: CostRecord)
    requires e.Charges(r)
    ensures e.ChargesHour(r.sessionID, r.hour)
  {
  }

  lemma LeadsHours(e: Event, before: seq<CostRecord>, after: seq<CostRecord>, id: string, h: Time)
    requires e.Leads(before, after)
    ensures h in Hours(after, id) <==> h in Hours(before, id) || e.ChargesHour(id, h)
  {
    hide Event.Charges, Event.ChargesHour;
    if e.ChargesHour(id, h) {
      ChargedHourHasRow(e, id, h);
    }
    if h in Hours(after, id) {
      var r :| r in after && r.sessionID == id && r.hour == h;
      if e.Charges(r) {
        ChargesItsHour(e, r);
      }
    }
    if h in Hours(before, id) && !e.ChargesHour(id, h) {
      var r :| r in before && r.sessionID == id && r.hour == h;
      assert r in after;
    }
  }

  lemma EventLeads(rows: seq<CostRecord>, e: Event)
    requires OncePerHour(rows) && e.ListsOnce()
    ensures OncePerHour(After(rows, e)) && e.Leads(rows, After(rows, e))
  {
    hide Event.Leads, Event.ListsOnce, Ticked, Finalized, OncePerHour;
    match e
    case Tick(sessions, now) => TickLeads(rows, sessions, now);
    case Final(s, now) => FinalLeads(rows, s, now);
  }

  /** In every run, settled or not, a session is charged for exactly the hours some tick found it running in and
      those of its final charges. */
  lemma {:induction false} HoursOfRun(events: seq<Event>, id: string, h: Time)
    requires forall e <- events :: e.ListsOnce()
    ensures OncePerHour(Run([], events))
    ensures h in Hours(Run([], events), id) <==> exists e <- events :: e.ChargesHour(id, h)
  {
    hide Hours, After, Event.ChargesHour, Event.Leads, Event.ListsOnce;
    if events == [] {
      NoHours(id);
    } else {
      var init, last := events[..|events| - 1], events[|events| - 1];
      assert events == init + [last];
      HoursOfRun(init, id, h);
      hide OncePerHour;
      EventLeads(Run([], init), last);
      LeadsHours(last, Run([], init), Run([], events), id, h);
      assert forall e :: e in events <==> e in init || e == last;
    }
  }

  /** A session's life: its price, and when it was created and stopped. */
  datatype Life = Life(id: string, price: real, created: Time, stopped: Time)
  {
    ghost predicate Valid() {
      price > 0.0 && 0 < created < stopped
    }

    /** What a listed version of any session may say at a time: of this one, that it has its price and is
        alive if it is running. */
    predicate Alive(s: BilledSession, now: Time) {
      s.id == id && s.status == Running ==> s.price == price && created <= now <= stopped
    }

    predicate Ends(s: BilledSession, now: Time) {
      s.id == id && s.price == price && s.createdAt == created && s.EndTime(now) == stopped
    }

    ghost predicate Admits(e: Event) {
      match e
      case Tick(sessions, now) => forall s <- sessions :: Alive(s, now)
      case Final(session, now) => session.id == id ==> Ends(session, now)
    }

    predicate IsEndedBy(e: Event) {
      e.Final? && e.session.id == id
    }
  }

  ghost predicate Billed(rows: seq<CostRecord>, life: Life) {
    life.created <= life.stopped && OncePerHour(rows) && Priced(rows, life.id, life.price)
    && Hours(rows, life.id) <= BilledHours(life.created, life.stopped)
  }

  lemma RecordKeepsBilled(rows: seq<CostRecord>, r: CostRecord, life: Life)
    requires Billed(rows, life)
    requires r.sessionID == life.id ==> r.amount == life.price && r.hour in BilledHours(life.created, life.stopped)
    ensures Billed(Upsert(rows, r), life)
    ensures Hours(Upsert(rows, r), life.id) == Hours(rows, life.id) + if r.sessionID == life.id then {r.hour} else {}
  {
    hide Upsert, Hours, BilledHours, OncePerHour, Priced;
    UpsertedHours(rows, r, life.id);
    UpsertedRows(rows, r);
  }

  lemma {:induction false} TickKeepsBilled(rows: seq<CostRecord>, sessions: seq<BilledSession>, now: Time, life: Life)
    requires Billed(rows, life) && forall s <- sessions :: life.Alive(s, now)
    ensures Billed(Ticked(rows, sessions, now), life)
    ensures Hours(rows, life.id) <= Hours(Ticked(rows, sessions, now), life.id)
  {
    hide Upsert, Hours, BilledHours, OncePerHour, Priced, Truncate;
    if sessions != [] {
      var init, s := sessions[..|sessions| - 1], sessions[|sessions| - 1];
      TickKeepsBilled(rows, init, now, life);
      assert s in sessions && life.Alive(s, now);
      if s.status == Running {
        if s.id == life.id {
          HourIsBilled(life.created, life.stopped, now);
        }
        RecordKeepsBilled(Ticked(rows, init, now), s.RecordFor(Truncate(now)), life);
      }
    }
  }

  lemma {:induction false} ChargeKeepsBilled(rows: seq<CostRecord>, s: BilledSession, first: Time, n: nat, life: Life)
    requires Billed(rows, life)
    requires s.id == life.id ==> s.price == life.price && first == Truncate(life.created) && n <= HoursTouched(life.created, life.stopped)
    ensures Billed(Charged(rows, s, first, n), life)
    ensures Hours(Charged(rows, s, first, n), life.id) == Hours(rows, life.id) + if s.id == life.id then HoursFrom(first, n) else {}
  {
    hide Upsert, Hours, OncePerHour, Priced, Truncate, HoursTouched;
    if n > 0 {
      ChargeKeepsBilled(rows, s, first, n - 1, life);
      if s.id == life.id {
        HourIsOneOf(Truncate(life.created), HoursTouched(life.created, life.stopped), n - 1);
      }
      hide BilledHours;
      RecordKeepsBilled(Charged(rows, s, first, n - 1), s.RecordFor(first + (n - 1) * HOUR), life);
    }
  }

  lemma EventKeepsBilled(rows: seq<CostRecord>, e: Event, life: Life)
    requires Billed(rows, life) && life.Valid() && life.Admits(e)
    ensures Billed(After(rows, e), life)
    ensures Hours(rows, life.id) <= Hours(After(rows, e), life.id)
    ensures life.IsEndedBy(e) ==> Hours(After(rows, e), life.id) == BilledHours(life.created, life.stopped)
  {
    hide Hours, OncePerHour, Priced, Truncate, HoursTouched;
    match e
    case Tick(sessions, now) => TickKeepsBilled(rows, sessions, now, life);
    case Final(s, now) =>
      if s.Chargeable(now) {
        ChargeKeepsBilled(rows, s, Truncate(s.createdAt), HoursTouched(s.createdAt, s.EndTime(now)), life);
      }
  }

  lemma {:induction false} RunBills(events: seq<Event>, life: Life)
    requires life.Valid() && forall e <- events :: life.Admits(e)
    ensures Billed(Run([], events), life)
    ensures (exists e <- events :: life.IsEndedBy(e)) ==> Hours(Run([], events), life.id) == BilledHours(life.created, life.stopped)
  {
    hide Hours, BilledHours, After, Life.Admits, Life.IsEndedBy;
    if events == [] {
      assert Billed([], life) by { NothingBilled(life); }
    } else {
      var init, last := events[..|events| - 1], events[|events| - 1];
      assert events == init + [last];
      RunBills(init, life);
      EventKeepsBilled(Run([], init), last, life);
      if !life.IsEndedBy(last) {
        assert forall e <- events :: life.IsEndedBy(e) ==> e in init;
      }
    }
  }

  lemma NothingBilled(life: Life)
    requires life.Valid()
    ensures Billed([], life)
  {
    assert Hours([], life.id) == {};
  }

  /** Exact billing: after any mix of ticks while the session runs and final charges, at least one of them
      its own, whatever is billed for other sessions in between, the session's total is its price times
      the number of clock hours it touched; that is more than its duration and less than two hours more. */
  lemma ExactBilling(events: seq<Event>, life: Life)
    requires life.Valid() && (forall e <- events :: life.Admits(e)) && (exists e <- events :: life.IsEndedBy(e))
    ensures var n := HoursTouched(life.created, life.stopped);
            && SessionCost(Run([], events), life.id) == Cost(life.price, n)
            && life.stopped - life.created < n * HOUR < life.stopped - life.created + 2 * HOUR
  {
    hide Hours, Life.Admits, Life.IsEndedBy, Cost, Run, HoursTouched;
    RunBills(events, life);
    PaidHours(life.created, life.stopped);
    HoursFromAre(Truncate(life.created), HoursTouched(life.created, life.stopped));
    TotalIsPriceTimesHours(Run([], events), life.id, life.price);
  }

  /** So charging again, by tick or final charge, changes nothing once a session is settled. */
  lemma ChargingAgainChangesNothing(events: seq<Event>, more: seq<Event>, life: Life)
    requires life.Valid() && (forall e <- events + more :: life.Admits(e)) && (exists e <- events :: life.IsEndedBy(e))
    ensures SessionCost(Run([], events + more), life.id) == SessionCost(Run([], events), life.id)
  {
    hide Life.Admits, Life.IsEndedBy, Run, SessionCost;
    assert forall e <- events :: e in events + more;
    ExactBilling(events, life);
    ExactBilling(events + more, life);
  }
}
