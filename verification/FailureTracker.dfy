/** The offer failure tracker as the inventory service keeps it: pruned on every failure.
    Its answers are those of the log that never forgets (FailureLog). */
module FailureTracker {
  import opened Wrappers
  import opened Clock
  import opened FailureLog
  import opened FailureStorage

  datatype OfferRecord = OfferRecord(provider: string, gpuType: string,
                                     failures: seq<FailureEvent>, suppressedAt: Option<Time>)

  type FailedOffers = map<string, Time>

  /** The value of a tracker: its two maps. */
  datatype Tracker = Tracker(offers: map<string, OfferRecord>, gpuTypes: map<string, FailedOffers>)
  {
    function EventsOf(offerID: string): seq<FailureEvent> {
      if offerID in offers then offers[offerID].failures else []
    }

    function SinceOf(offerID: string): Option<Time> {
      if offerID in offers then offers[offerID].suppressedAt else None
    }

    function FailedAt(key: string, offerID: string): Option<Time> {
      if key in gpuTypes && offerID in gpuTypes[key] then Some(gpuTypes[key][offerID]) else None
    }
  }

  // ---- What the operations do to the value ----

  predicate IsEmpty(record: OfferRecord) {
    record.failures == [] && record.suppressedAt.None?
  }

  function UnlessExpired(since: Option<Time>, now: Time): Option<Time> {
    if since.Some? && Expired(since.value, now) then None else since
  }

  function Prune(record: OfferRecord, now: Time): OfferRecord {
    record.(failures := Kept(record.failures, now - FAILURE_DECAY_PERIOD),
            suppressedAt := UnlessExpired(record.suppressedAt, now))
  }

  function CleanOffers(offers: map<string, OfferRecord>, now: Time): map<string, OfferRecord> {
    map o | o in offers && !IsEmpty(Prune(offers[o], now)) :: Prune(offers[o], now)
  }

  function PruneTimes(failed: FailedOffers, now: Time): FailedOffers {
    map o | o in failed && failed[o] >= now - FAILURE_DECAY_PERIOD :: failed[o]
  }

  function CleanGpuTypes(gpuTypes: map<string, FailedOffers>, now: Time): map<string, FailedOffers> {
    map k | k in gpuTypes && PruneTimes(gpuTypes[k], now) != map[] :: PruneTimes(gpuTypes[k], now)
  }

  function Clean(t: Tracker, now: Time): Tracker {
    Tracker(CleanOffers(t.offers, now), CleanGpuTypes(t.gpuTypes, now))
  }

  /** The offers whose suppression a cleanup at `now` closes. */
  function ExpiredOffers(offers: map<string, OfferRecord>, now: Time): set<string> {
    set o | o in offers && offers[o].suppressedAt.Some? && Expired(offers[o].suppressedAt.value, now)
  }

  function RecordOf(t: Tracker, f: Failure): OfferRecord {
    if f.offerID in t.offers then t.offers[f.offerID] else OfferRecord(f.provider, f.gpuType, [], None)
  }

  predicate OpensSuppression(t: Tracker, f: Failure) {
    && RecordOf(t, f).suppressedAt.None?
    && CountAfter(RecordOf(t, f).failures + [f.event], f.event.timestamp - SUPPRESSION_WINDOW) >= SUPPRESSION_THRESHOLD
  }

  function Stamp(gpuTypes: map<string, FailedOffers>, key: string, offerID: string, at: Time): map<string, FailedOffers> {
    gpuTypes[key := (if key in gpuTypes then gpuTypes[key] else map[])[offerID := at]]
  }

  /** The tracker after a failure, before the cleanup. */
  function Append(t: Tracker, f: Failure): Tracker {
    var record := RecordOf(t, f);
    var appended := record.(failures := record.failures + [f.event],
                            suppressedAt := if OpensSuppression(t, f) then Some(f.event.timestamp) else record.suppressedAt);
    Tracker(t.offers[f.offerID := appended], Stamp(t.gpuTypes, f.GpuKey(), f.offerID, f.event.timestamp))
  }

  function Record(t: Tracker, f: Failure): Tracker {
    Clean(Append(t, f), f.event.timestamp)
  }

  // ---- Agreement with the log ----

  function IfSince(at: Option<Time>, cutoff: Time): Option<Time> {
    if at.Some? && at.value >= cutoff then at else None
  }

  function IfAfter(at: Option<Time>, cutoff: Time): Option<Time> {
    if at.Some? && at.value > cutoff then at else None
  }

  /** What happened so far: every failure, and since when each offer is suppressed. The log alone tells that
      until the first restart. */
  datatype Past = Past(log: Log, since: string -> Option<Time>)

  function PastOf(log: Log): Past {
    Past(log, o => SuppressedSince(log, o))
  }

  function AfterFailure(p: Past, f: Failure): Past {
    var now := f.event.timestamp;
    Past(p.log + [f], o => Advance(p.since(o), now, f.offerID == o, RecentFailures(p.log + [f], o, now)))
  }

  /** A restart keeps the suppressions whose cooldown is running when they are loaded and when they are pruned. */
  function Reloaded(since: Option<Time>, later: Time, now: Time): Option<Time> {
    UnlessExpired(IfAfter(since, later - SUPPRESSION_COOLDOWN), now)
  }

  function AfterRestart(p: Past, later: Time, now: Time): Past {
    Past(p.log, o => Reloaded(p.since(o), later, now))
  }

  ghost predicate SamePast(p: Past, q: Past) {
    p.log == q.log && forall o :: p.since(o) == q.since(o)
  }

  // Agreement about one offer, and about one offer under one GPU type.

  ghost predicate OfferCouples(t: Tracker, p: Past, now: Time, o: string) {
    && t.EventsOf(o) == Kept(History(p.log, o), now - FAILURE_DECAY_PERIOD)
    && t.SinceOf(o) == p.since(o)
  }

  ghost predicate TimeCouples(t: Tracker, p: Past, now: Time, k: string, o: string) {
    IfAfter(t.FailedAt(k, o), now - FAILURE_DECAY_PERIOD) == IfAfter(LastFailure(p.log, k, o), now - FAILURE_DECAY_PERIOD)
  }

  /** A tracker holds exactly the part of the past that is at most one decay period old, and no empty records. */
  ghost predicate Couples(t: Tracker, p: Past, now: Time) {
    && Chronological(p.log, now)
    && (forall o :: OfferCouples(t, p, now, o))
    && (forall k, o :: TimeCouples(t, p, now, k, o))
    && (forall o <- t.offers :: !IsEmpty(t.offers[o]))
    && (forall k <- t.gpuTypes :: t.gpuTypes[k] != map[])
  }

  // What a query reads off the past.

  predicate SuppressedBy(p: Past, offerID: string, now: Time) {
    InCooldown(p.since(offerID), now)
  }

  function MultiplierBy(p: Past, offerID: string, gpuType: string, provider: string, now: Time): real {
    Confidence(SuppressedBy(p, offerID, now), RecentFailures(p.log, offerID, now),
               |FailingOffers(p.log, MakeGpuKey(provider, gpuType), now)|)
  }

  // What a query reads off the value of a tracker.

  function CountRecent(t: Tracker, offerID: string, now: Time): nat {
    CountAfter(t.EventsOf(offerID), now - SUPPRESSION_WINDOW)
  }

  predicate SuppressedIn(t: Tracker, offerID: string, now: Time) {
    InCooldown(t.SinceOf(offerID), now)
  }

  function FailingIn(t: Tracker, key: string, now: Time): set<string> {
    if key in t.gpuTypes then set o | o in t.gpuTypes[key] && t.gpuTypes[key][o] > now - FAILURE_DECAY_PERIOD
    else {}
  }

  function MultiplierIn(t: Tracker, offerID: string, gpuType: string, provider: string, now: Time): real {
    Confidence(SuppressedIn(t, offerID, now), CountRecent(t, offerID, now),
               |FailingIn(t, MakeGpuKey(provider, gpuType), now)|)
  }

  lemma NewTrackerCouples(now: Time)
    ensures Couples(Tracker(map[], map[]), PastOf([]), now)
  {
    forall o
      ensures OfferCouples(Tracker(map[], map[]), PastOf([]), now, o)
    {
      assert History([], o) == [];
    }
  }

  lemma CleanedOffer(t: Tracker, now: Time, o: string)
    ensures Clean(t, now).EventsOf(o) == Kept(t.EventsOf(o), now - FAILURE_DECAY_PERIOD)
    ensures Clean(t, now).SinceOf(o) == UnlessExpired(t.SinceOf(o), now)
  {
  }

  lemma CleanedTime(t: Tracker, now: Time, k: string, o: string)
    ensures Clean(t, now).FailedAt(k, o) == IfSince(t.FailedAt(k, o), now - FAILURE_DECAY_PERIOD)
  {
    if k in t.gpuTypes && o in t.gpuTypes[k] && t.gpuTypes[k][o] >= now - FAILURE_DECAY_PERIOD {
      assert o in PruneTimes(t.gpuTypes[k], now);
    }
  }

  lemma AppendedOffer(t: Tracker, f: Failure, o: string)
    ensures o == f.offerID ==> Append(t, f).EventsOf(o) == t.EventsOf(o) + [f.event]
    ensures o == f.offerID && OpensSuppression(t, f) ==> Append(t, f).SinceOf(o) == Some(f.event.timestamp)
    ensures o == f.offerID && !OpensSuppression(t, f) ==> Append(t, f).SinceOf(o) == t.SinceOf(o)
    ensures o != f.offerID ==> Append(t, f).EventsOf(o) == t.EventsOf(o) && Append(t, f).SinceOf(o) == t.SinceOf(o)
  {
  }

  lemma AppendedTime(t: Tracker, f: Failure, k: string, o: string)
    ensures Append(t, f).FailedAt(k, o)
            == if k == f.GpuKey() && o == f.offerID then Some(f.event.timestamp) else t.FailedAt(k, o)
  {
    hide OpensSuppression;
  }

  function With(events: seq<FailureEvent>, e: FailureEvent, failed: bool): seq<FailureEvent> {
    if failed then events + [e] else events
  }

  lemma KeptWith(history: seq<FailureEvent>, earlier: Time, cutoff: Time, e: FailureEvent, failed: bool)
    requires earlier <= cutoff
    ensures Kept(With(Kept(history, earlier), e, failed), cutoff) == Kept(With(history, e, failed), cutoff)
  {
    hide Kept;
    KeptTwice(history, earlier, cutoff);
    KeptSnoc(Kept(history, earlier), e, cutoff);
    KeptSnoc(history, e, cutoff);
  }

  lemma EventsAfterRecord(t: Tracker, p: Past, asOf: Time, f: Failure, o: string)
    requires OfferCouples(t, p, asOf, o) && asOf <= f.event.timestamp
    ensures Record(t, f).EventsOf(o) == Kept(History(p.log + [f], o), f.event.timestamp - FAILURE_DECAY_PERIOD)
  {
    hide Kept, History, Append, Clean, Tracker.EventsOf, Tracker.SinceOf;
    CleanedOffer(Append(t, f), f.event.timestamp, o);
    AppendedOffer(t, f, o);
    HistorySnoc(p.log, f, o);
    KeptWith(History(p.log, o), asOf - FAILURE_DECAY_PERIOD, f.event.timestamp - FAILURE_DECAY_PERIOD, f.event, f.offerID == o);
  }

  /** The count that opens a suppression is not changed by pruning. */
  lemma SameThreshold(t: Tracker, p: Past, asOf: Time, f: Failure)
    requires OfferCouples(t, p, asOf, f.offerID) && asOf <= f.event.timestamp
    ensures OpensSuppression(t, f)
            <==> p.since(f.offerID).None? && RecentFailures(p.log + [f], f.offerID, f.event.timestamp) >= SUPPRESSION_THRESHOLD
  {
    hide Kept, History, CountAfter;
    var now, o := f.event.timestamp, f.offerID;
    assert RecordOf(t, f).failures == t.EventsOf(o) && RecordOf(t, f).suppressedAt == t.SinceOf(o);
    HistorySnoc(p.log, f, o);
    CountKeptSnoc(History(p.log, o), f.event, asOf - FAILURE_DECAY_PERIOD, now - SUPPRESSION_WINDOW);
  }

  lemma SinceAfterRecord(t: Tracker, p: Past, asOf: Time, f: Failure, o: string)
    requires OfferCouples(t, p, asOf, o) && asOf <= f.event.timestamp
    ensures Record(t, f).SinceOf(o) == AfterFailure(p, f).since(o)
  {
    hide Clean, Append, Tracker.EventsOf, Tracker.SinceOf, RecentFailures, Kept, History, OfferCouples;
    CleanedOffer(Append(t, f), f.event.timestamp, o);
    AppendedOffer(t, f, o);
    SinceOfCoupled(t, p, asOf, o);
    if o == f.offerID {
      SameThreshold(t, p, asOf, f);
    }
  }

  lemma SinceOfCoupled(t: Tracker, p: Past, asOf: Time, o: string)
    requires OfferCouples(t, p, asOf, o)
    ensures t.SinceOf(o) == p.since(o)
  {
  }

  lemma OfferAfterRecord(t: Tracker, p: Past, asOf: Time, f: Failure, o: string)
    requires OfferCouples(t, p, asOf, o) && asOf <= f.event.timestamp
    ensures OfferCouples(Record(t, f), AfterFailure(p, f), f.event.timestamp, o)
  {
    hide Record, Kept, History, Advance, RecentFailures, Tracker.EventsOf, Tracker.SinceOf;
    EventsAfterRecord(t, p, asOf, f, o);
    SinceAfterRecord(t, p, asOf, f, o);
  }

  /** A cleanup leaves no empty record. */
  lemma CleanIsTight(t: Tracker, now: Time)
    ensures forall o <- Clean(t, now).offers :: !IsEmpty(Clean(t, now).offers[o])
    ensures forall k <- Clean(t, now).gpuTypes :: Clean(t, now).gpuTypes[k] != map[]
  {
    hide Prune, PruneTimes, IsEmpty;
  }

  lemma TimeAfterRecord(t: Tracker, p: Past, asOf: Time, f: Failure, k: string, o: string)
    requires TimeCouples(t, p, asOf, k, o) && asOf <= f.event.timestamp
    ensures TimeCouples(Record(t, f), AfterFailure(p, f), f.event.timestamp, k, o)
  {
    hide Append, Clean;
    assert (p.log + [f])[..|p.log|] == p.log;
    CleanedTime(Append(t, f), f.event.timestamp, k, o);
    AppendedTime(t, f, k, o);
  }

  /** One more failure keeps the pruned tracker in step with the past. */
  lemma RecordKeepsCoupling(t: Tracker, p: Past, asOf: Time, f: Failure)
    requires Couples(t, p, asOf) && asOf <= f.event.timestamp
    ensures Couples(Record(t, f), AfterFailure(p, f), f.event.timestamp)
  {
    hide OfferCouples, TimeCouples, Append;
    ChronologicalSnoc(p.log, f, asOf);
    CleanIsTight(Append(t, f), f.event.timestamp);
    forall o
      ensures OfferCouples(Record(t, f), AfterFailure(p, f), f.event.timestamp, o)
    {
      assert OfferCouples(t, p, asOf, o);
      OfferAfterRecord(t, p, asOf, f, o);
    }
    forall k, o
      ensures TimeCouples(Record(t, f), AfterFailure(p, f), f.event.timestamp, k, o)
    {
      assert TimeCouples(t, p, asOf, k, o);
      TimeAfterRecord(t, p, asOf, f, k, o);
    }
  }

  lemma RecordStep(t: Tracker, p: Past, asOf: Time, f: Failure)
    requires asOf <= f.event.timestamp
    ensures Couples(t, p, asOf) ==> Couples(Record(t, f), AfterFailure(p, f), f.event.timestamp)
  {
    if Couples(t, p, asOf) {
      RecordKeepsCoupling(t, p, asOf, f);
    }
  }

  lemma CouplesSame(t: Tracker, p: Past, q: Past, now: Time)
    requires Couples(t, p, now) && SamePast(p, q)
    ensures Couples(t, q, now)
  {
    forall o
      ensures OfferCouples(t, q, now, o)
    {
      assert OfferCouples(t, p, now, o);
    }
    forall k, o
      ensures TimeCouples(t, q, now, k, o)
    {
      assert TimeCouples(t, p, now, k, o);
    }
  }

  /** Without restarts the log alone tells since when an offer is suppressed. */
  lemma PastGrows(log: Log, f: Failure)
    ensures SamePast(AfterFailure(PastOf(log), f), PastOf(log + [f]))
  {
    hide Advance, RecentFailures, SuppressedSince;
    forall o
      ensures AfterFailure(PastOf(log), f).since(o) == PastOf(log + [f]).since(o)
    {
      SuppressedSnoc(log, f, o);
    }
  }

  /** Refinement: a tracker in step with the past answers every query, at any later time, exactly as the log
      that never discards an event and the suppressions open in the past. */
  lemma SameAnswers(t: Tracker, p: Past, asOf: Time, now: Time, offerID: string, gpuType: string, provider: string)
    requires Couples(t, p, asOf) && asOf <= now
    ensures CountRecent(t, offerID, now) == RecentFailures(p.log, offerID, now)
    ensures SuppressedIn(t, offerID, now) == SuppressedBy(p, offerID, now)
    ensures FailingIn(t, MakeGpuKey(provider, gpuType), now) == FailingOffers(p.log, MakeGpuKey(provider, gpuType), now)
    ensures MultiplierIn(t, offerID, gpuType, provider, now) == MultiplierBy(p, offerID, gpuType, provider, now)
  {
    hide Kept, History, FailingOffers, FailingIn, Confidence;
    assert OfferCouples(t, p, asOf, offerID);
    CountKept(History(p.log, offerID), asOf - FAILURE_DECAY_PERIOD, now - SUPPRESSION_WINDOW);
    SameFailing(t, p, asOf, now, MakeGpuKey(provider, gpuType));
  }

  lemma SameFailing(t: Tracker, p: Past, asOf: Time, now: Time, key: string)
    requires Couples(t, p, asOf) && asOf <= now
    ensures FailingIn(t, key, now) == FailingOffers(p.log, key, now)
  {
    forall o
      ensures o in FailingIn(t, key, now) <==> o in FailingOffers(p.log, key, now)
    {
      FailingByLastFailure(p.log, asOf, key, now, o);
      assert TimeCouples(t, p, asOf, key, o);
    }
  }

  /** Whenever an offer is suppressed, the pruned record itself still holds the failures that justify
      it: window + cooldown never exceeds the decay period. */
  lemma PrunedRecordJustifies(t: Tracker, p: Past, asOf: Time, now: Time, offerID: string)
    requires Couples(t, p, asOf) && asOf <= now && Justified(p.since(offerID), History(p.log, offerID))
    requires SuppressedIn(t, offerID, now)
    ensures Justified(t.SinceOf(offerID), t.EventsOf(offerID))
  {
    hide Kept, History;
    assert OfferCouples(t, p, asOf, offerID);
    var since := p.since(offerID).value;
    CountKept(History(p.log, offerID), asOf - FAILURE_DECAY_PERIOD, since - SUPPRESSION_WINDOW);
    CountKept(History(p.log, offerID), asOf - FAILURE_DECAY_PERIOD, since);
  }

  // ---- Whole runs ----

  /** The pruned tracker after a run of RecordFailure calls. */
  function TrackerOf(log: Log): Tracker {
    if log == [] then Tracker(map[], map[]) else Record(TrackerOf(log[..|log| - 1]), log[|log| - 1])
  }

  lemma {:induction false} RunCouples(log: Log, now: Time)
    requires Chronological(log, now)
    ensures log == [] ==> Couples(TrackerOf(log), PastOf(log), now)
    ensures log != [] ==> Couples(TrackerOf(log), PastOf(log), log[|log| - 1].event.timestamp)
  {
    hide Record, Couples, SamePast;
    if log == [] {
      NewTrackerCouples(now);
    } else {
      var init, last := log[..|log| - 1], log[|log| - 1];
      var at := last.event.timestamp;
      assert log == init + [last];
      RunCouples(init, at);
      RecordKeepsCoupling(TrackerOf(init), PastOf(init), if init == [] then at else init[|init| - 1].event.timestamp, last);
      PastGrows(init, last);
      CouplesSame(TrackerOf(log), AfterFailure(PastOf(init), last), PastOf(log), at);
    }
  }

  /** For every run of failures under a clock that never goes back, and every later query: the pruned
      tracker and the log that keeps everything agree on counts, suppression, degradation and multiplier. */
  lemma PrunedRunAnswersAsLog(log: Log, now: Time, offerID: string, gpuType: string, provider: string)
    requires Chronological(log, now)
    ensures var t, key := TrackerOf(log), MakeGpuKey(provider, gpuType);
            && CountRecent(t, offerID, now) == RecentFailures(log, offerID, now)
            && SuppressedIn(t, offerID, now) == Suppressed(log, offerID, now)
            && FailingIn(t, key, now) == FailingOffers(log, key, now)
            && MultiplierIn(t, offerID, gpuType, provider, now) == Multiplier(log, offerID, gpuType, provider, now)
  {
    hide Couples, TrackerOf;
    RunCouples(log, now);
    SameAnswers(TrackerOf(log), PastOf(log), if log == [] then now else log[|log| - 1].event.timestamp, now, offerID, gpuType, provider);
  }

  /** For every such run: an offer hidden at `now` still has, in its pruned record, the failures that
      justify hiding it. */
  lemma HiddenOffersAreJustified(log: Log, now: Time, offerID: string)
    requires Chronological(log, now) && SuppressedIn(TrackerOf(log), offerID, now)
    ensures Justified(TrackerOf(log).SinceOf(offerID), TrackerOf(log).EventsOf(offerID))
  {
    hide Couples, TrackerOf;
    RunCouples(log, now);
    SuppressionIsJustified(log, now, offerID);
    PrunedRecordJustifies(TrackerOf(log), PastOf(log), if log == [] then now else log[|log| - 1].event.timestamp, now, offerID);
  }

  // ---- The tracker object ----

  class OfferFailureTracker {
    var offers: map<string, OfferRecord>
    var gpuTypes: map<string, FailedOffers>
    const store: OfferFailureStore?
    /** Every failure since the tracker, or the first one it was reloaded from, was new. */
    ghost var past: Past
    /** When the tracker last changed. */
    ghost var asOf: Time

    function Contents(): Tracker
      reads this
    {
      Tracker(offers, gpuTypes)
    }

    /** The tracker is in step with its past. */
    ghost predicate Valid()
      reads this
    {
      Couples(Contents(), past, asOf)
    }

    constructor (store: OfferFailureStore?, ghost now: Time)
      ensures Valid() && past == PastOf([]) && asOf == now && this.store == store
      ensures Contents() == Tracker(map[], map[])
    {
      offers, gpuTypes, this.store := map[], map[], store;
      past, asOf := PastOf([]), now;
      new;
      NewTrackerCouples(now);
    }

    /** Prunes events, suppressions, records and GPU-type entries, and passes the closed suppressions
        and the event cutoff on to the store. */
    method CleanupLocked(now: Time)
      modifies this`offers, this`gpuTypes, store
      ensures Contents() == Clean(old(Contents()), now)
      ensures store != null ==> store.Table() == StoreCleanup(old(store.Table()), ExpiredOffers(old(offers), now), now - FAILURE_DECAY_PERIOD)
    {
      var expired := CleanupOffers(now);
      CleanupGpuTypes(now);
      assert Contents() == Clean(old(Contents()), now);
      if store != null {
        var cleared: set<string> := {};
        var todo := expired;
        while todo != {}
          invariant cleared !! todo && cleared + todo == expired
          invariant Contents() == Clean(old(Contents()), now)
          invariant store.failures == old(store.failures)
          invariant store.suppressions == old(store.suppressions) - cleared
        {
          var offerID :| offerID in todo;
          store.ClearSuppression(offerID);
          cleared, todo := cleared + {offerID}, todo - {offerID};
        }
        store.CleanupOldFailures(now - FAILURE_DECAY_PERIOD);
      }
    }

    method CleanupOffers(now: Time) returns (expired: set<string>)
      modifies this`offers
      ensures offers == CleanOffers(old(offers), now)
      ensures expired == ExpiredOffers(old(offers), now)
    {
      ghost var before := offers;
      var todo := offers.Keys;
      expired := {};
      while todo != {}
        invariant todo <= before.Keys
        invariant expired == set o | o in ExpiredOffers(before, now) && o !in todo
        invariant forall o :: o in offers <==> o in before && (o in todo || !IsEmpty(Prune(before[o], now)))
        invariant forall o <- offers :: offers[o] == if o in todo then before[o] else Prune(before[o], now)
      {
        var offerID :| offerID in todo;
        var record := offers[offerID];
        var kept := PruneEvents(record.failures, now - FAILURE_DECAY_PERIOD);
        record := record.(failures := kept);
        if record.suppressedAt.Some? && now > record.suppressedAt.value + SUPPRESSION_COOLDOWN {
          record := record.(suppressedAt := None);
          expired := expired + {offerID};
        }
        if record.failures == [] && record.suppressedAt.None? {
          offers := offers - {offerID};
        } else {
          offers := offers[offerID := record];
        }
        todo := todo - {offerID};
      }
    }

    method CleanupGpuTypes(now: Time)
      modifies this`gpuTypes
      ensures gpuTypes == CleanGpuTypes(old(gpuTypes), now)
    {
      ghost var before := gpuTypes;
      var todo := gpuTypes.Keys;
      while todo != {}
        invariant todo <= before.Keys
        invariant forall k :: k in gpuTypes <==> k in before && (k in todo || PruneTimes(before[k], now) != map[])
        invariant forall k <- gpuTypes :: gpuTypes[k] == if k in todo then before[k] else PruneTimes(before[k], now)
      {
        var key :| key in todo;
        var failed := gpuTypes[key];
        var pending := failed.Keys;
        while pending != {}
          invariant pending <= before[key].Keys
          invariant failed == map o | o in before[key] && (o in pending || before[key][o] >= now - FAILURE_DECAY_PERIOD) :: before[key][o]
        {
          var offerID :| offerID in pending;
          if failed[offerID] < now - FAILURE_DECAY_PERIOD {
            failed := failed - {offerID};
          }
          pending := pending - {offerID};
        }
        assert failed == PruneTimes(before[key], now);
        if failed == map[] {
          gpuTypes := gpuTypes - {key};
        } else {
          gpuTypes := gpuTypes[key := failed];
        }
        todo := todo - {key};
      }
    }

    /** Appends a failure and opens a suppression when the offer reaches the threshold. */
    method AppendFailure(f: Failure) returns (newSuppression: bool)
      modifies this`offers, this`gpuTypes
      ensures Contents() == Append(old(Contents()), f)
      ensures newSuppression == OpensSuppression(old(Contents()), f)
    {
      var now := f.event.timestamp;
      var record := if f.offerID in offers then offers[f.offerID] else OfferRecord(f.provider, f.gpuType, [], None);
      record := record.(failures := record.failures + [f.event]);
      var recentCount := CountEvents(record.failures, now - SUPPRESSION_WINDOW);
      newSuppression := false;
      if recentCount >= SUPPRESSION_THRESHOLD && record.suppressedAt.None? {
        record := record.(suppressedAt := Some(now));
        newSuppression := true;
      }
      offers := offers[f.offerID := record];
      var gpuKey := f.provider + ":" + f.gpuType;
      var failed: FailedOffers := if gpuKey in gpuTypes then gpuTypes[gpuKey] else map[];
      gpuTypes := gpuTypes[gpuKey := failed[f.offerID := now]];
    }

    /** Records a failure at `now`, prunes, and writes both through to the store. */
    method RecordFailure(now: Time, offerID: string, provider: string, gpuType: string, kind: string, reason: string)
      requires asOf <= now
      modifies this, store
      ensures var f := Failure(offerID, provider, gpuType, FailureEvent(kind, now, reason));
              && Contents() == Record(old(Contents()), f)
              && past == AfterFailure(old(past), f) && asOf == now
      ensures old(Valid()) ==> Valid()
      ensures store != null && old(Valid()) && old(Mirrors(store.Table(), past, asOf)) ==> Mirrors(store.Table(), past, asOf)
    {
      var f := Failure(offerID, provider, gpuType, FailureEvent(kind, now, reason));
      hide Couples, Mirrors, Record, WriteThrough, AfterFailure;
      ghost var before, rows := Contents(), if store != null then store.Table() else Rows([], map[]);
      RecordStep(before, past, asOf, f);
      WriteThroughStep(before, rows, past, asOf, f);
      RecordAndPersist(f);
      past, asOf := AfterFailure(past, f), now;
    }

    method RecordAndPersist(f: Failure)
      modifies this`offers, this`gpuTypes, store
      ensures Contents() == Record(old(Contents()), f)
      ensures store != null ==> store.Table() == WriteThrough(old(store.Table()), old(Contents()), f)
    {
      hide Clean, Append, OpensSuppression, StoreCleanup, Persisted, ExpiredOffers;
      ghost var before := Contents();
      var newSuppression := AppendFailure(f);
      assert Contents() == Append(before, f);
      CleanupLocked(f.event.timestamp);
      assert Contents() == Record(before, f);
      if store != null {
        Persist(store, f, newSuppression);
      }
    }

    /** Whether queries may see the offer: the answer of the whole past. */
    method IsSuppressed(offerID: string, now: Time) returns (suppressed: bool)
      requires Valid() && asOf <= now
      ensures suppressed == SuppressedBy(past, offerID, now)
      ensures suppressed <==> past.since(offerID).Some? && now < past.since(offerID).value + 30 * MINUTE
    {
      SameAnswers(Contents(), past, asOf, now, offerID, "", "");
      if offerID !in offers {
        return false;
      }
      var record := offers[offerID];
      if record.suppressedAt.None? {
        return false;
      }
      suppressed := now < record.suppressedAt.value + SUPPRESSION_COOLDOWN;
    }

    /** The confidence multiplier of an offer: the one the whole past gives, read off its failures. */
    method GetConfidenceMultiplier(offerID: string, gpuType: string, provider: string, now: Time) returns (result: real)
      requires Valid() && asOf <= now
      ensures result == MultiplierBy(past, offerID, gpuType, provider, now)
      ensures result == 0.0 <==> SuppressedBy(past, offerID, now)
      ensures result == 0.0 || 0.05 <= result <= 1.0
      ensures IsMultiplier(result, SuppressedBy(past, offerID, now), past.log, offerID, gpuType, provider, now)
    {
      hide Couples, IsMultiplier;
      SameAnswers(Contents(), past, asOf, now, offerID, gpuType, provider);
      ConfidenceIsMultiplier(SuppressedBy(past, offerID, now), past.log, offerID, gpuType, provider, now);
      ConfidenceRange(SuppressedBy(past, offerID, now), RecentFailures(past.log, offerID, now),
                      |FailingOffers(past.log, MakeGpuKey(provider, gpuType), now)|);
      if offerID in offers {
        var record := offers[offerID];
        if record.suppressedAt.Some? && now < record.suppressedAt.value + SUPPRESSION_COOLDOWN {
          return 0.0;
        }
      }
      var offerMultiplier := 1.0;
      if offerID in offers {
        var recentCount := CountEvents(offers[offerID].failures, now - SUPPRESSION_WINDOW);
        if recentCount > 0 {
          offerMultiplier := Power(0.7, recentCount);
        }
      }
      var gpuMultiplier := 1.0;
      var gpuKey := provider + ":" + gpuType;
      if gpuKey in gpuTypes {
        var activeCount := CountFailing(gpuTypes[gpuKey], now - FAILURE_DECAY_PERIOD);
        if activeCount >= GPU_TYPE_FAILURE_THRESHOLD {
          gpuMultiplier := 0.3;
        }
      }
      result := offerMultiplier * gpuMultiplier;
      if result < 0.05 && result > 0.0 {
        result := 0.05;
      }
    }

    /** Replays stored failures and suppressions into a new tracker and prunes it. */
    method LoadFromStore(failures: seq<Failure>, suppressions: seq<StoredSuppression>, now: Time,
                         ghost lost: Past, ghost rows: Rows, ghost since: Time, ghost cooldownExpiry: Time)
      requires Contents() == Tracker(map[], map[])
      requires Mirrors(rows, lost, since + FAILURE_DECAY_PERIOD)
      requires since + FAILURE_DECAY_PERIOD <= cooldownExpiry + SUPPRESSION_COOLDOWN <= now
      requires failures == RecentRows(rows.failures, since)
      requires ActiveSuppressions(rows.suppressions, cooldownExpiry, suppressions)
      modifies this, store
      ensures past == AfterRestart(lost, cooldownExpiry + SUPPRESSION_COOLDOWN, now) && asOf == now && Valid()
      ensures store != null && old(store.Table()) == rows ==> Mirrors(store.Table(), past, asOf)
    {
      hide LoadFailures, LoadSuppressions, Clean, Couples, Mirrors, ActiveSuppressions, RecentRows, StoreCleanup, ExpiredOffers, AfterRestart;
      ReplayFailures(failures);
      ReplaySuppressions(suppressions);
      CleanupLocked(now);
      past, asOf := AfterRestart(lost, cooldownExpiry + SUPPRESSION_COOLDOWN, now), now;
      ReloadKeepsCoupling(rows, lost, since, cooldownExpiry, now, suppressions);
    }

    method ReplayFailures(failures: seq<Failure>)
      requires Contents() == Tracker(map[], map[])
      modifies this`offers, this`gpuTypes
      ensures Contents() == LoadFailures(failures)
    {
      for i := 0 to |failures|
        invariant Contents() == LoadFailures(failures[..i])
      {
        ReplayFailure(failures[i]);
        assert failures[..i + 1][..i] == failures[..i];
      }
      assert failures[..|failures|] == failures;
    }

    method ReplayFailure(f: Failure)
      modifies this`offers, this`gpuTypes
      ensures Contents() == LoadFailure(old(Contents()), f)
    {
      var record := if f.offerID in offers then offers[f.offerID] else OfferRecord(f.provider, f.gpuType, [], None);
      offers := offers[f.offerID := record.(failures := record.failures + [f.event])];
      var gpuKey := f.provider + ":" + f.gpuType;
      if gpuKey !in gpuTypes {
        gpuTypes := gpuTypes[gpuKey := map[]];
      }
      var failed := gpuTypes[gpuKey];
      if f.offerID !in failed || f.event.timestamp > failed[f.offerID] {
        gpuTypes := gpuTypes[gpuKey := failed[f.offerID := f.event.timestamp]];
      }
    }

    method ReplaySuppressions(suppressions: seq<StoredSuppression>)
      modifies this`offers
      ensures Contents() == LoadSuppressions(old(Contents()), suppressions)
    {
      for i := 0 to |suppressions|
        invariant Contents() == LoadSuppressions(old(Contents()), suppressions[..i])
      {
        var s := suppressions[i];
        var record := if s.offerID in offers then offers[s.offerID] else OfferRecord(s.provider, s.gpuType, [], None);
        offers := offers[s.offerID := record.(suppressedAt := Some(s.suppressedAt))];
        assert suppressions[..i + 1][..i] == suppressions[..i];
      }
      assert suppressions[..|suppressions|] == suppressions;
    }
  }

  method Persist(store: OfferFailureStore, f: Failure, newSuppression: bool)
    modifies store
    ensures store.Table() == Persisted(old(store.Table()), f, newSuppression)
  {
    store.RecordFailure(f.offerID, f.provider, f.gpuType, f.event.kind, f.event.reason, f.event.timestamp);
    if newSuppression {
      store.SetSuppression(f.offerID, f.provider, f.gpuType, f.event.timestamp);
    }
  }

  /** The events later than a cutoff, in order. */
  method PruneEvents(events: seq<FailureEvent>, cutoff: Time) returns (kept: seq<FailureEvent>)
    ensures kept == Kept(events, cutoff)
  {
    kept := [];
    for i := 0 to |events|
      invariant kept == Kept(events[..i], cutoff)
    {
      assert events[..i + 1][..i] == events[..i];
      if events[i].timestamp > cutoff {
        kept := kept + [events[i]];
      }
    }
    assert events[..|events|] == events;
  }

  method CountEvents(events: seq<FailureEvent>, cutoff: Time) returns (count: nat)
    ensures count == CountAfter(events, cutoff)
  {
    count := 0;
    for i := 0 to |events|
      invariant count == CountAfter(events[..i], cutoff)
    {
      assert events[..i + 1][..i] == events[..i];
      if events[i].timestamp > cutoff {
        count := count + 1;
      }
    }
    assert events[..|events|] == events;
  }

  /** How many offers of a GPU-type record failed after a cutoff. */
  method CountFailing(failed: FailedOffers, cutoff: Time) returns (count: nat)
    ensures count == |set o | o in failed && failed[o] > cutoff|
  {
    count := 0;
    var todo := failed.Keys;
    ghost var done: set<string> := {};
    while todo != {}
      invariant done == failed.Keys - todo && todo <= failed.Keys
      invariant count == |set o | o in done && failed[o] > cutoff|
    {
      var offerID :| offerID in todo;
      ghost var counted := set o | o in done && failed[o] > cutoff;
      if failed[offerID] > cutoff {
        count := count + 1;
        assert (set o | o in done + {offerID} && failed[o] > cutoff) == counted + {offerID};
      } else {
        assert (set o | o in done + {offerID} && failed[o] > cutoff) == counted;
      }
      todo := todo - {offerID};
      done := done + {offerID};
    }
    assert (set o | o in failed && failed[o] > cutoff) == set o | o in done && failed[o] > cutoff;
  }

  // ---- The store mirrors the past, and a reload is in step with it ----

  /** The stored rows are the log of the last decay period and the suppressions whose cooldown is running. */
  ghost predicate Mirrors(rows: Rows, p: Past, now: Time) {
    && Chronological(p.log, now)
    && rows.Filed()
    && RecentRows(rows.failures, now - FAILURE_DECAY_PERIOD) == RecentRows(p.log, now - FAILURE_DECAY_PERIOD)
    && (forall o :: SuppressionMirrors(rows, p, now, o))
  }

  ghost predicate SuppressionMirrors(rows: Rows, p: Past, now: Time, o: string) {
    IfAfter(rows.SinceOf(o), now - SUPPRESSION_COOLDOWN) == IfAfter(p.since(o), now - SUPPRESSION_COOLDOWN)
  }

  lemma NewTableMirrors(now: Time)
    ensures Mirrors(Rows([], map[]), PastOf([]), now)
  {
  }

  lemma {:induction false} RecentTwice(rows: seq<Failure>, earlier: Time, later: Time)
    requires earlier <= later
    ensures RecentRows(RecentRows(rows, earlier), later) == RecentRows(rows, later)
  {
    if rows != [] {
      var init, last := rows[..|rows| - 1], rows[|rows| - 1];
      RecentTwice(init, earlier, later);
      if last.event.timestamp > earlier {
        assert (RecentRows(init, earlier) + [last])[..|RecentRows(init, earlier)|] == RecentRows(init, earlier);
      }
    }
  }

  /** The mirror stays a mirror as time passes. */
  lemma MirrorAges(rows: Rows, p: Past, earlier: Time, later: Time)
    requires Mirrors(rows, p, earlier) && earlier <= later
    ensures Mirrors(rows, p, later)
  {
    RecentTwice(rows.failures, earlier - FAILURE_DECAY_PERIOD, later - FAILURE_DECAY_PERIOD);
    RecentTwice(p.log, earlier - FAILURE_DECAY_PERIOD, later - FAILURE_DECAY_PERIOD);
    forall o
      ensures SuppressionMirrors(rows, p, later, o)
    {
      assert SuppressionMirrors(rows, p, earlier, o);
    }
  }

  lemma RecentSnoc(rows: seq<Failure>, f: Failure, cutoff: Time)
    ensures RecentRows(rows + [f], cutoff)
            == if f.event.timestamp > cutoff then RecentRows(rows, cutoff) + [f] else RecentRows(rows, cutoff)
  {
    assert (rows + [f])[..|rows|] == rows;
  }

  /** Deleting rows older than a cutoff leaves the later ones. */
  lemma {:induction false} DeletedRowsWereOld(rows: seq<Failure>, before: Time)
    ensures RecentRows(RowsSince(rows, before), before) == RecentRows(rows, before)
  {
    if rows != [] {
      var init, last := rows[..|rows| - 1], rows[|rows| - 1];
      DeletedRowsWereOld(init, before);
      if last.event.timestamp >= before {
        RecentSnoc(RowsSince(init, before), last, before);
      }
    }
  }

  /** The rows after one failure is stored. */
  function Persisted(rows: Rows, f: Failure, newSuppression: bool): Rows {
    var added := rows.(failures := rows.failures + [f]);
    if newSuppression
    then added.(suppressions := Upsert(added.suppressions, f.offerID, f.provider, f.gpuType, f.event.timestamp))
    else added
  }

  /** The rows after one write-through: the cleanup, then the failure. */
  function WriteThrough(rows: Rows, t: Tracker, f: Failure): Rows {
    var now := f.event.timestamp;
    var cleaned := StoreCleanup(rows, ExpiredOffers(Append(t, f).offers, now), now - FAILURE_DECAY_PERIOD);
    Persisted(cleaned, f, OpensSuppression(t, f))
  }

  lemma WriteThroughMirrors(t: Tracker, rows: Rows, p: Past, asOf: Time, f: Failure)
    requires Couples(t, p, asOf) && Mirrors(rows, p, asOf) && asOf <= f.event.timestamp
    ensures Mirrors(WriteThrough(rows, t, f), AfterFailure(p, f), f.event.timestamp)
  {
    hide OfferCouples, SuppressionMirrors, RecentRows, RowsSince, OpensSuppression, ExpiredOffers, Append, Advance, RecentFailures, Upsert;
    ChronologicalSnoc(p.log, f, asOf);
    WriteThroughFiled(rows, t, f);
    FailureRowsMirror(rows.failures, p.log, asOf, f);
    forall o
      ensures SuppressionMirrors(WriteThrough(rows, t, f), AfterFailure(p, f), f.event.timestamp, o)
    {
      assert SuppressionMirrors(rows, p, asOf, o) && OfferCouples(t, p, asOf, o);
      SuppressionRowsMirror(rows, t, p, asOf, f, o);
    }
  }

  lemma WriteThroughFiled(rows: Rows, t: Tracker, f: Failure)
    requires rows.Filed()
    ensures WriteThrough(rows, t, f).Filed()
  {
    hide RowsSince, OpensSuppression, ExpiredOffers, Append;
  }

  lemma WriteThroughStep(t: Tracker, rows: Rows, p: Past, asOf: Time, f: Failure)
    requires asOf <= f.event.timestamp
    ensures Couples(t, p, asOf) && Mirrors(rows, p, asOf)
            ==> Mirrors(WriteThrough(rows, t, f), AfterFailure(p, f), f.event.timestamp)
  {
    if Couples(t, p, asOf) && Mirrors(rows, p, asOf) {
      WriteThroughMirrors(t, rows, p, asOf, f);
    }
  }

  lemma FailureRowsMirror(stored: seq<Failure>, log: Log, asOf: Time, f: Failure)
    requires RecentRows(stored, asOf - FAILURE_DECAY_PERIOD) == RecentRows(log, asOf - FAILURE_DECAY_PERIOD)
    requires asOf <= f.event.timestamp
    ensures var cutoff := f.event.timestamp - FAILURE_DECAY_PERIOD;
            RecentRows(RowsSince(stored, cutoff) + [f], cutoff) == RecentRows(log + [f], cutoff)
  {
    var cutoff := f.event.timestamp - FAILURE_DECAY_PERIOD;
    RecentTwice(stored, asOf - FAILURE_DECAY_PERIOD, cutoff);
    RecentTwice(log, asOf - FAILURE_DECAY_PERIOD, cutoff);
    DeletedRowsWereOld(stored, cutoff);
    RecentSnoc(RowsSince(stored, cutoff), f, cutoff);
    RecentSnoc(log, f, cutoff);
  }

  lemma SuppressionRowsMirror(rows: Rows, t: Tracker, p: Past, asOf: Time, f: Failure, o: string)
    requires SuppressionMirrors(rows, p, asOf, o) && OfferCouples(t, p, asOf, o) && asOf <= f.event.timestamp
    ensures SuppressionMirrors(WriteThrough(rows, t, f), AfterFailure(p, f), f.event.timestamp, o)
  {
    hide RecentFailures, Kept, History, RowsSince;
    var now := f.event.timestamp;
    AppendedOffer(t, f, o);
    assert o in ExpiredOffers(Append(t, f).offers, now)
      <==> Append(t, f).SinceOf(o).Some? && Expired(Append(t, f).SinceOf(o).value, now);
    if o == f.offerID {
      SameThreshold(t, p, asOf, f);
    }
  }

  /** Replaying rows: append each event, keep the latest time per GPU type and offer. */
  function LoadFailures(rows: seq<Failure>): Tracker {
    if rows == [] then Tracker(map[], map[])
    else
      LoadFailure(LoadFailures(rows[..|rows| - 1]), rows[|rows| - 1])
  }

  function LoadFailure(t: Tracker, f: Failure): Tracker {
    var record := RecordOf(t, f);
    var offers := t.offers[f.offerID := record.(failures := record.failures + [f.event])];
    var at := t.FailedAt(f.GpuKey(), f.offerID);
    Tracker(offers, if at.Some? && f.event.timestamp <= at.value then t.gpuTypes
                    else Stamp(t.gpuTypes, f.GpuKey(), f.offerID, f.event.timestamp))
  }

  function LoadSuppressions(t: Tracker, suppressions: seq<StoredSuppression>): Tracker {
    if suppressions == [] then t
    else
      var loaded, s := LoadSuppressions(t, suppressions[..|suppressions| - 1]), suppressions[|suppressions| - 1];
      var record := if s.offerID in loaded.offers then loaded.offers[s.offerID]
                    else OfferRecord(s.provider, s.gpuType, [], None);
      loaded.(offers := loaded.offers[s.offerID := record.(suppressedAt := Some(s.suppressedAt))])
  }

  lemma LoadKeepsSince(t: Tracker, f: Failure, o: string)
    ensures LoadFailure(t, f).SinceOf(o) == t.SinceOf(o)
  {
  }

  lemma {:induction false} LoadedFailures(rows: seq<Failure>, now: Time)
    requires Chronological(rows, now)
    ensures forall o :: LoadFailures(rows).EventsOf(o) == History(rows, o)
    ensures forall o :: LoadFailures(rows).SinceOf(o) == None
    ensures forall k, o :: LoadFailures(rows).FailedAt(k, o) == LastFailure(rows, k, o)
  {
    if rows != [] {
      var init, last := rows[..|rows| - 1], rows[|rows| - 1];
      LoadedFailures(init, last.event.timestamp);
      LastFailureIsPast(init, last.event.timestamp, last.GpuKey(), last.offerID);
      var t := LoadFailures(init);
      assert t.FailedAt(last.GpuKey(), last.offerID) == LastFailure(init, last.GpuKey(), last.offerID);
      assert LoadFailures(rows) == LoadFailure(t, last);
      forall o
        ensures LoadFailures(rows).SinceOf(o) == None
      {
        LoadKeepsSince(t, last, o);
        assert t.SinceOf(o) == None;
      }
    }
  }

  /** The time a list of suppressions gives an offer. */
  function FoundSince(suppressions: seq<StoredSuppression>, offerID: string): Option<Time> {
    if suppressions == [] then None
    else
      var last := suppressions[|suppressions| - 1];
      if last.offerID == offerID then Some(last.suppressedAt)
      else FoundSince(suppressions[..|suppressions| - 1], offerID)
  }

  lemma {:induction false} LoadedSuppression(t: Tracker, suppressions: seq<StoredSuppression>, o: string)
    ensures var loaded, found := LoadSuppressions(t, suppressions), FoundSince(suppressions, o);
            && loaded.gpuTypes == t.gpuTypes
            && loaded.EventsOf(o) == t.EventsOf(o)
            && loaded.SinceOf(o) == if found.Some? then found else t.SinceOf(o)
  {
    if suppressions != [] {
      LoadedSuppression(t, suppressions[..|suppressions| - 1], o);
    }
  }

  lemma {:induction false} FoundIsMember(suppressions: seq<StoredSuppression>, o: string)
    ensures var found := FoundSince(suppressions, o);
            if found.None? then forall s <- suppressions :: s.offerID != o
            else exists s <- suppressions :: s.offerID == o && s.suppressedAt == found.value
  {
    if suppressions != [] {
      var init, last := suppressions[..|suppressions| - 1], suppressions[|suppressions| - 1];
      FoundIsMember(init, o);
      assert last in suppressions;
      assert forall s :: s in suppressions <==> s in init || s == last;
    }
  }

  lemma FoundIsActive(stored: map<string, StoredSuppression>, cutoff: Time, suppressions: seq<StoredSuppression>, o: string)
    requires forall x <- stored :: stored[x].offerID == x
    requires ActiveSuppressions(stored, cutoff, suppressions)
    ensures FoundSince(suppressions, o) == IfAfter(StoredSince(stored, o), cutoff)
  {
    FoundIsMember(suppressions, o);
    if o in stored {
      assert stored[o].offerID == o;
    }
  }

  lemma {:induction false} RecentIsChronological(log: Log, now: Time, cutoff: Time)
    requires Chronological(log, now)
    ensures Chronological(RecentRows(log, cutoff), now)
  {
    if log != [] {
      RecentIsChronological(log[..|log| - 1], log[|log| - 1].event.timestamp, cutoff);
    }
  }

  /** Recent rows have the recent history. */
  lemma {:induction false} HistoryOfRecent(log: Log, cutoff: Time, offerID: string)
    ensures History(RecentRows(log, cutoff), offerID) == Kept(History(log, offerID), cutoff)
  {
    if log != [] {
      var init, last := log[..|log| - 1], log[|log| - 1];
      HistoryOfRecent(init, cutoff, offerID);
      KeptSnoc(History(init, offerID), last.event, cutoff);
      HistorySnoc(RecentRows(init, cutoff), last, offerID);
    }
  }

  lemma LastFailureSnoc(log: Log, f: Failure, key: string, offerID: string)
    ensures LastFailure(log + [f], key, offerID)
            == if f.offerID == offerID && f.GpuKey() == key then Some(f.event.timestamp) else LastFailure(log, key, offerID)
  {
    assert (log + [f])[..|log|] == log;
  }

  lemma {:induction false} LastFailureOfRecent(log: Log, now: Time, cutoff: Time, key: string, offerID: string)
    requires Chronological(log, now)
    ensures LastFailure(RecentRows(log, cutoff), key, offerID) == IfAfter(LastFailure(log, key, offerID), cutoff)
  {
    if log != [] {
      var init, last := log[..|log| - 1], log[|log| - 1];
      assert log == init + [last];
      LastFailureOfRecent(init, last.event.timestamp, cutoff, key, offerID);
      LastFailureIsPast(init, last.event.timestamp, key, offerID);
      hide RecentRows, LastFailure, Chronological;
      RecentSnoc(init, last, cutoff);
      LastFailureSnoc(init, last, key, offerID);
      LastFailureSnoc(RecentRows(init, cutoff), last, key, offerID);
    }
  }

  /** The tracker reloaded from rows, before it is pruned. */
  function Replayed(rows: Rows, since: Time, suppressions: seq<StoredSuppression>): Tracker {
    LoadSuppressions(LoadFailures(RecentRows(rows.failures, since)), suppressions)
  }

  /** Replay: the tracker reloaded from the rows is in step with the past, less the suppressions that have run
      out, and the rows still mirror it. So runs go on after a restart as if it had not been. */
  lemma ReloadKeepsCoupling(rows: Rows, p: Past, since: Time, cooldownExpiry: Time, now: Time,
                            suppressions: seq<StoredSuppression>)
    requires Mirrors(rows, p, since + FAILURE_DECAY_PERIOD)
    requires since + FAILURE_DECAY_PERIOD <= cooldownExpiry + SUPPRESSION_COOLDOWN <= now
    requires ActiveSuppressions(rows.suppressions, cooldownExpiry, suppressions)
    ensures var loaded, next := Replayed(rows, since, suppressions), AfterRestart(p, cooldownExpiry + SUPPRESSION_COOLDOWN, now);
            && Couples(Clean(loaded, now), next, now)
            && Mirrors(StoreCleanup(rows, ExpiredOffers(loaded.offers, now), now - FAILURE_DECAY_PERIOD), next, now)
  {
    hide LoadFailures, LoadSuppressions, Clean, AfterRestart, OfferCouples, TimeCouples, SuppressionMirrors, RecentRows, StoreCleanup, ExpiredOffers;
    var recent := RecentRows(p.log, since);
    var loaded, next := Replayed(rows, since, suppressions), AfterRestart(p, cooldownExpiry + SUPPRESSION_COOLDOWN, now);
    assert next.log == p.log by { RestartKeepsLog(p, cooldownExpiry + SUPPRESSION_COOLDOWN, now); }
    ChronologicalLater(p.log, since + FAILURE_DECAY_PERIOD, now);
    CleanIsTight(loaded, now);
    var cleaned := StoreCleanup(rows, ExpiredOffers(loaded.offers, now), now - FAILURE_DECAY_PERIOD);
    forall o
      ensures OfferCouples(Clean(loaded, now), next, now, o)
    {
      assert SuppressionMirrors(rows, p, since + FAILURE_DECAY_PERIOD, o);
      OfferReloaded(rows, p, since, cooldownExpiry, now, suppressions, o);
    }
    forall o
      ensures SuppressionMirrors(cleaned, next, now, o)
    {
      assert SuppressionMirrors(rows, p, since + FAILURE_DECAY_PERIOD, o);
      OfferReloaded(rows, p, since, cooldownExpiry, now, suppressions, o);
    }
    forall k, o
      ensures TimeCouples(Clean(loaded, now), next, now, k, o)
    {
      TimeReloaded(rows, p, since, cooldownExpiry, now, suppressions, k, o);
    }
    CleanedRowsMirror(rows, p.log, ExpiredOffers(loaded.offers, now), since + FAILURE_DECAY_PERIOD, now);
  }

  lemma RestartKeepsLog(p: Past, later: Time, now: Time)
    ensures AfterRestart(p, later, now).log == p.log
  {
  }

  lemma ChronologicalLater(log: Log, earlier: Time, later: Time)
    requires Chronological(log, earlier) && earlier <= later
    ensures Chronological(log, later)
  {
  }

  lemma CleanedRowsMirror(rows: Rows, log: Log, cleared: set<string>, earlier: Time, now: Time)
    requires rows.Filed() && earlier <= now
    requires RecentRows(rows.failures, earlier - FAILURE_DECAY_PERIOD) == RecentRows(log, earlier - FAILURE_DECAY_PERIOD)
    ensures var cleaned, cutoff := StoreCleanup(rows, cleared, now - FAILURE_DECAY_PERIOD), now - FAILURE_DECAY_PERIOD;
            cleaned.Filed() && RecentRows(cleaned.failures, cutoff) == RecentRows(log, cutoff)
  {
    hide RecentRows, RowsSince;
    var cutoff := now - FAILURE_DECAY_PERIOD;
    RecentTwice(rows.failures, earlier - FAILURE_DECAY_PERIOD, cutoff);
    RecentTwice(log, earlier - FAILURE_DECAY_PERIOD, cutoff);
    DeletedRowsWereOld(rows.failures, cutoff);
  }

  lemma TimeReloaded(rows: Rows, p: Past, since: Time, cooldownExpiry: Time, now: Time,
                     suppressions: seq<StoredSuppression>, k: string, o: string)
    requires Chronological(p.log, since + FAILURE_DECAY_PERIOD) && since + FAILURE_DECAY_PERIOD <= now
    requires RecentRows(rows.failures, since) == RecentRows(p.log, since)
    ensures TimeCouples(Clean(Replayed(rows, since, suppressions), now), AfterRestart(p, cooldownExpiry + SUPPRESSION_COOLDOWN, now), now, k, o)
  {
    hide LoadFailures, LoadSuppressions, Clean, RecentRows, LastFailure;
    var recent, loaded := RecentRows(p.log, since), Replayed(rows, since, suppressions);
    ChronologicalLater(p.log, since + FAILURE_DECAY_PERIOD, now);
    RecentIsChronological(p.log, now, since);
    LoadedFailures(recent, now);
    LastFailureOfRecent(p.log, now, since, k, o);
    LoadedSuppression(LoadFailures(recent), suppressions, o);
    assert loaded.FailedAt(k, o) == LoadFailures(recent).FailedAt(k, o) == LastFailure(recent, k, o);
    CleanedTime(loaded, now, k, o);
  }

  lemma OfferReloaded(rows: Rows, p: Past, since: Time, cooldownExpiry: Time, now: Time,
                      suppressions: seq<StoredSuppression>, o: string)
    requires Chronological(p.log, since + FAILURE_DECAY_PERIOD) && rows.Filed()
    requires SuppressionMirrors(rows, p, since + FAILURE_DECAY_PERIOD, o)
    requires RecentRows(rows.failures, since) == RecentRows(p.log, since)
    requires since + FAILURE_DECAY_PERIOD <= cooldownExpiry + SUPPRESSION_COOLDOWN <= now
    requires ActiveSuppressions(rows.suppressions, cooldownExpiry, suppressions)
    ensures var loaded, next := Replayed(rows, since, suppressions), AfterRestart(p, cooldownExpiry + SUPPRESSION_COOLDOWN, now);
            && OfferCouples(Clean(loaded, now), next, now, o)
            && SuppressionMirrors(StoreCleanup(rows, ExpiredOffers(loaded.offers, now), now - FAILURE_DECAY_PERIOD), next, now, o)
  {
    hide LoadFailures, LoadSuppressions, Clean, RecentRows, RowsSince, Kept, History, ActiveSuppressions;
    var recent, decayed := RecentRows(p.log, since), now - FAILURE_DECAY_PERIOD;
    var loaded := Replayed(rows, since, suppressions);
    ChronologicalLater(p.log, since + FAILURE_DECAY_PERIOD, now);
    RecentIsChronological(p.log, now, since);
    LoadedFailures(recent, now);
    assert LoadFailures(recent).EventsOf(o) == History(recent, o) && LoadFailures(recent).SinceOf(o) == None;
    HistoryOfRecent(p.log, since, o);
    KeptTwice(History(p.log, o), since, decayed);
    CleanedOffer(loaded, now, o);
    LoadedSuppression(LoadFailures(recent), suppressions, o);
    FoundIsActive(rows.suppressions, cooldownExpiry, suppressions, o);
    assert loaded.SinceOf(o) == IfAfter(p.since(o), cooldownExpiry);
    assert o in ExpiredOffers(loaded.offers, now) <==> loaded.SinceOf(o).Some? && Expired(loaded.SinceOf(o).value, now);
  }

  /** A restart: load what the store kept into a new tracker. The three clock readings never go back. */
  method LoadFailureData(store: OfferFailureStore, started: Time, later: Time, now: Time, ghost lost: Past)
      returns (tracker: OfferFailureTracker)
    requires started <= later <= now
    requires Mirrors(store.Table(), lost, started)
    modifies store
    ensures fresh(tracker) && tracker.store == store && tracker.Valid()
    ensures tracker.past == AfterRestart(lost, later, now) && tracker.asOf == now
    ensures Mirrors(store.Table(), tracker.past, now)
  {
    hide Mirrors, Couples, AfterRestart;
    tracker := new OfferFailureTracker(store, started);
    ghost var rows := store.Table();
    assert rows.Filed() by { MirrorsFiled(rows, lost, started); }
    var failures := store.LoadRecentFailures(started - FAILURE_DECAY_PERIOD);
    var suppressions := store.LoadActiveSuppressions(later - SUPPRESSION_COOLDOWN);
    tracker.LoadFromStore(failures, suppressions, now, lost, rows,
                          started - FAILURE_DECAY_PERIOD, later - SUPPRESSION_COOLDOWN);
  }

  lemma MirrorsFiled(rows: Rows, p: Past, now: Time)
    requires Mirrors(rows, p, now)
    ensures rows.Filed()
  {
  }

  // ---- Runs with restarts ----

  /** A restart reads the clock before each of the two loads and when it prunes. */
  datatype Event = Fails(failure: Failure) | Restarts(started: Time, later: Time, now: Time)
  {
    function Begins(): Time {
      if Fails? then failure.event.timestamp else started
    }

    function Ends(): Time {
      if Fails? then failure.event.timestamp else now
    }

    ghost predicate Proper() {
      Restarts? ==> started <= later <= now
    }
  }

  /** The tracker in memory and the tables behind it. */
  datatype Service = Service(tracker: Tracker, rows: Rows)

  ghost predicate Becomes(s: Service, e: Event, next: Service) {
    match e
    case Fails(f) => next == Service(Record(s.tracker, f), WriteThrough(s.rows, s.tracker, f))
    case Restarts(started, later, now) =>
      exists suppressions :: Restarted(s, started, later, now, suppressions, next)
  }

  ghost predicate Restarted(s: Service, started: Time, later: Time, now: Time, suppressions: seq<StoredSuppression>, next: Service) {
    var loaded := Replayed(s.rows, started - FAILURE_DECAY_PERIOD, suppressions);
    && ActiveSuppressions(s.rows.suppressions, later - SUPPRESSION_COOLDOWN, suppressions)
    && next == Service(Clean(loaded, now), StoreCleanup(s.rows, ExpiredOffers(loaded.offers, now), now - FAILURE_DECAY_PERIOD))
  }

  /** A run from an empty tracker and empty tables: all states it goes through. */
  ghost predicate IsRun(states: seq<Service>, events: seq<Event>) {
    && |states| == |events| + 1 && states[0] == Service(Tracker(map[], map[]), Rows([], map[]))
    && (forall i :: 0 <= i < |events| ==> Becomes(states[i], events[i], states[i + 1]))
  }

  ghost predicate InOrder(events: seq<Event>, now: Time) {
    && (forall i :: 0 <= i < |events| ==> events[i].Proper() && events[i].Ends() <= now)
    && (forall i, j :: 0 <= i < j < |events| ==> events[i].Ends() <= events[j].Begins())
  }

  /** The past of a run: the log is all its failures; a restart costs the suppressions that have run out. */
  function PastAfter(events: seq<Event>): Past {
    if events == [] then PastOf([])
    else
      var p := PastAfter(events[..|events| - 1]);
      match events[|events| - 1]
      case Fails(f) => AfterFailure(p, f)
      case Restarts(_, later, now) => AfterRestart(p, later, now)
  }

  lemma EventKeepsCoupling(s: Service, p: Past, asOf: Time, e: Event, next: Service)
    requires Couples(s.tracker, p, asOf) && Mirrors(s.rows, p, asOf) && asOf <= e.Begins() && e.Proper() && Becomes(s, e, next)
    ensures var q := if e.Fails? then AfterFailure(p, e.failure) else AfterRestart(p, e.later, e.now);
            Couples(next.tracker, q, e.Ends()) && Mirrors(next.rows, q, e.Ends())
  {
    hide Couples, Mirrors, Record, WriteThrough, Replayed, Clean, StoreCleanup, ExpiredOffers, ActiveSuppressions;
    match e
    case Fails(f) =>
      RecordKeepsCoupling(s.tracker, p, asOf, f);
      WriteThroughMirrors(s.tracker, s.rows, p, asOf, f);
    case Restarts(started, later, now) =>
      var suppressions :| Restarted(s, started, later, now, suppressions, next);
      MirrorAges(s.rows, p, asOf, started);
      ReloadKeepsCoupling(s.rows, p, started - FAILURE_DECAY_PERIOD, later - SUPPRESSION_COOLDOWN, now, suppressions);
  }

  lemma {:induction false} RunWithRestartsCouples(states: seq<Service>, events: seq<Event>, now: Time)
    requires IsRun(states, events) && InOrder(events, now)
    ensures var last, asOf := states[|events|], if events == [] then now else events[|events| - 1].Ends();
            Couples(last.tracker, PastAfter(events), asOf) && Mirrors(last.rows, PastAfter(events), asOf)
    decreases |events|
  {
    hide Couples, Mirrors, Becomes, AfterFailure, AfterRestart;
    if events == [] {
      NewTrackerCouples(now);
      NewTableMirrors(now);
    } else {
      var n := |events| - 1;
      var init, e := events[..n], events[n];
      RunWithRestartsCouples(states[..n + 1], init, e.Begins());
      EventKeepsCoupling(states[n], PastAfter(init), if init == [] then e.Begins() else init[n - 1].Ends(), e, states[n + 1]);
    }
  }

  /** For every run of failures and restarts: the tracker answers every later query as the log of all failures
      and the suppressions of the past do. */
  lemma RunWithRestartsAnswers(states: seq<Service>, events: seq<Event>, now: Time, offerID: string, gpuType: string, provider: string)
    requires IsRun(states, events) && InOrder(events, now)
    ensures var t, p, key := states[|events|].tracker, PastAfter(events), MakeGpuKey(provider, gpuType);
            && CountRecent(t, offerID, now) == RecentFailures(p.log, offerID, now)
            && SuppressedIn(t, offerID, now) == SuppressedBy(p, offerID, now)
            && FailingIn(t, key, now) == FailingOffers(p.log, key, now)
            && MultiplierIn(t, offerID, gpuType, provider, now) == MultiplierBy(p, offerID, gpuType, provider, now)
  {
    hide Couples, Mirrors, Becomes, PastAfter, SuppressedIn, SuppressedBy, MultiplierIn, MultiplierBy;
    RunWithRestartsCouples(states, events, now);
    assert events != [] ==> events[|events| - 1].Ends() <= now;
    SameAnswers(states[|events|].tracker, PastAfter(events), if events == [] then now else events[|events| - 1].Ends(), now,
                offerID, gpuType, provider);
  }

  /** A restart changes no answer until the next failure. */
  lemma RestartIsInvisible(p: Past, later: Time, now: Time, at: Time, offerID: string)
    requires later <= now <= at
    ensures SuppressedBy(AfterRestart(p, later, now), offerID, at) == SuppressedBy(p, offerID, at)
  {
  }

  /** And the next failure is answered alike after it, with one exception: the offer's suppression had run out
      without being cleared, the restart dropped it, and this failure reaches the threshold. Then the offer is
      suppressed again, which it is not without the restart. */
  lemma RestartMattersExactlyWhen(p: Past, later: Time, now: Time, f: Failure, offerID: string)
    requires later <= now <= f.event.timestamp
    ensures var at := f.event.timestamp;
            var with, without := AfterFailure(AfterRestart(p, later, now), f), AfterFailure(p, f);
            && (SuppressedBy(with, offerID, at) != SuppressedBy(without, offerID, at)
                <==> p.since(offerID).Some? && Reloaded(p.since(offerID), later, now).None? && f.offerID == offerID
                     && RecentFailures(p.log + [f], offerID, at) >= SUPPRESSION_THRESHOLD)
            && (SuppressedBy(with, offerID, at) != SuppressedBy(without, offerID, at) ==> SuppressedBy(with, offerID, at))
  {
    var at, recent := f.event.timestamp, RecentFailures(p.log + [f], offerID, f.event.timestamp);
    var restarted := AfterRestart(p, later, now);
    assert restarted.log == p.log && restarted.since(offerID) == Reloaded(p.since(offerID), later, now);
    assert AfterFailure(p, f).since(offerID) == Advance(p.since(offerID), at, f.offerID == offerID, recent);
    assert AfterFailure(restarted, f).since(offerID) == Advance(restarted.since(offerID), at, f.offerID == offerID, recent);
    hide RecentFailures;
  }

  /** In runs with restarts, too, an offer is hidden only while its record holds the failures that justify it. */
  lemma HiddenIsJustifiedAcrossRestarts(states: seq<Service>, events: seq<Event>, now: Time, offerID: string)
    requires IsRun(states, events) && InOrder(events, now) && SuppressedIn(states[|events|].tracker, offerID, now)
    ensures Justified(states[|events|].tracker.SinceOf(offerID), states[|events|].tracker.EventsOf(offerID))
  {
    hide Couples, Mirrors, Becomes, PastAfter, SuppressedIn, Justified;
    RunWithRestartsCouples(states, events, now);
    PastIsJustified(events, now, offerID);
    assert events != [] ==> events[|events| - 1].Ends() <= now;
    PrunedRecordJustifies(states[|events|].tracker, PastAfter(events), if events == [] then now else events[|events| - 1].Ends(), now, offerID);
  }

  lemma {:induction false} PastIsJustified(events: seq<Event>, now: Time, offerID: string)
    requires InOrder(events, now)
    ensures var p := PastAfter(events);
            Chronological(p.log, if events == [] then now else events[|events| - 1].Ends()) && Justified(p.since(offerID), History(p.log, offerID))
  {
    if events != [] {
      var n := |events| - 1;
      var init, e := events[..n], events[n];
      PastIsJustified(init, e.Begins(), offerID);
      var p := PastAfter(init);
      if n > 0 {
        ChronologicalLater(p.log, init[n - 1].Ends(), e.Begins());
      }
      if e.Fails? {
        FailureJustified(p, e.failure, offerID);
      } else {
        ChronologicalLater(p.log, e.Begins(), e.Ends());
      }
    }
  }

  lemma FailureJustified(p: Past, f: Failure, offerID: string)
    requires Chronological(p.log, f.event.timestamp) && Justified(p.since(offerID), History(p.log, offerID))
    ensures Chronological(p.log + [f], f.event.timestamp)
    ensures Justified(AfterFailure(p, f).since(offerID), History(p.log + [f], offerID))
  {
    hide Chronological, History, Justified, Advance;
    ChronologicalSnoc(p.log, f, f.event.timestamp);
    HistorySnoc(p.log, f, offerID);
    HistoryIsPast(p.log + [f], f.event.timestamp, offerID);
    AdvanceKeepsJustified(p.since(offerID), History(p.log, offerID), f.event, f.offerID == offerID, History(p.log + [f], offerID));
  }
}
