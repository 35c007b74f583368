/** The reference for the offer failure tracker: a log that keeps every failure for ever,
    and the answers read off the whole log. */
module FailureLog {
  import opened Wrappers
  import opened Clock

  const SUPPRESSION_THRESHOLD: nat := 3
  const SUPPRESSION_WINDOW: Duration := 30 * MINUTE
  const SUPPRESSION_COOLDOWN: Duration := 30 * MINUTE
  const FAILURE_DECAY_PERIOD: Duration := 1 * HOUR
  const GPU_TYPE_FAILURE_THRESHOLD: nat := 3

  datatype FailureEvent = FailureEvent(kind: string, timestamp: Time, reason: string)

  /** One RecordFailure call. */
  datatype Failure = Failure(offerID: string, provider: string, gpuType: string, event: FailureEvent)
  {
    function GpuKey(): string {
      MakeGpuKey(provider, gpuType)
    }
  }

  type Log = seq<Failure>

  function MakeGpuKey(provider: string, gpuType: string): string {
    provider + ":" + gpuType
  }

  /** The clock never runs backwards, and nothing in the log is later than `now`. */
  ghost predicate Chronological(log: Log, now: Time) {
    log == [] ||
    (var at := log[|log| - 1].event.timestamp;
     at <= now && Chronological(log[..|log| - 1], at))
  }

  /** The events of a list later than `cutoff`, in order. */
  function Kept(events: seq<FailureEvent>, cutoff: Time): seq<FailureEvent> {
    if events == [] then []
    else
      var last := events[|events| - 1];
      var kept := Kept(events[..|events| - 1], cutoff);
      if last.timestamp > cutoff then kept + [last] else kept
  }

  /** How many events of a list are later than `cutoff`. */
  function CountAfter(events: seq<FailureEvent>, cutoff: Time): nat {
    if events == [] then 0
    else
      CountAfter(events[..|events| - 1], cutoff)
      + if events[|events| - 1].timestamp > cutoff then 1 else 0
  }

  /** Every event the log ever saw for one offer. */
  function History(log: Log, offerID: string): seq<FailureEvent> {
    if log == [] then []
    else
      var last := log[|log| - 1];
      var history := History(log[..|log| - 1], offerID);
      if last.offerID == offerID then history + [last.event] else history
  }

  /** The last time an offer failed under a GPU-type key, over the whole log. */
  function LastFailure(log: Log, key: string, offerID: string): Option<Time> {
    if log == [] then None
    else
      var last := log[|log| - 1];
      if last.offerID == offerID && last.GpuKey() == key then Some(last.event.timestamp)
      else LastFailure(log[..|log| - 1], key, offerID)
  }

  /** Whether a suppression is past its cooldown when the next failure (of any offer) arrives. */
  predicate Expired(since: Time, now: Time) {
    now > since + SUPPRESSION_COOLDOWN
  }

  /** One step of a suppression: a failure opens one when its offer reaches the threshold and has none
      open; the first failure of any offer after the cooldown closes it. */
  function Advance(before: Option<Time>, now: Time, failed: bool, recent: nat): Option<Time> {
    var current := if failed && before.None? && recent >= SUPPRESSION_THRESHOLD then Some(now) else before;
    if current.Some? && Expired(current.value, now) then None else current
  }

  /** When the current suppression of an offer began, replayed from the whole log. */
  function SuppressedSince(log: Log, offerID: string): Option<Time> {
    if log == [] then None
    else
      var last := log[|log| - 1];
      Advance(SuppressedSince(log[..|log| - 1], offerID), last.event.timestamp, last.offerID == offerID,
              RecentFailures(log, offerID, last.event.timestamp))
  }

  /** Failures of an offer in the suppression window ending at `now`. */
  function RecentFailures(log: Log, offerID: string, now: Time): nat {
    CountAfter(History(log, offerID), now - SUPPRESSION_WINDOW)
  }

  predicate InCooldown(since: Option<Time>, now: Time) {
    since.Some? && now < since.value + SUPPRESSION_COOLDOWN
  }

  predicate Suppressed(log: Log, offerID: string, now: Time) {
    InCooldown(SuppressedSince(log, offerID), now)
  }

  /** The distinct offers of a GPU type that failed in the last decay period. */
  function FailingOffers(log: Log, key: string, now: Time): set<string> {
    set f | f in log && f.GpuKey() == key && f.event.timestamp > now - FAILURE_DECAY_PERIOD :: f.offerID
  }

  function Power(base: real, n: nat): real {
    if n == 0 then 1.0 else base * Power(base, n - 1)
  }

  /** The confidence formula: 0 when suppressed, else 0.7 per recent failure, 0.3 more when the GPU
      type is degraded, and never below 0.05. */
  function Confidence(suppressed: bool, recent: nat, failingOffers: nat): real {
    if suppressed then 0.0
    else
      var offerMultiplier := Power(0.7, recent);
      var gpuMultiplier := if failingOffers >= GPU_TYPE_FAILURE_THRESHOLD then 0.3 else 1.0;
      var result := offerMultiplier * gpuMultiplier;
      if 0.0 < result < 0.05 then 0.05 else result
  }

  function Multiplier(log: Log, offerID: string, gpuType: string, provider: string, now: Time): real {
    Confidence(Suppressed(log, offerID, now), RecentFailures(log, offerID, now),
               |FailingOffers(log, MakeGpuKey(provider, gpuType), now)|)
  }

  // ---- Lists of events ----

  lemma {:induction false} KeptTwice(events: seq<FailureEvent>, earlier: Time, later: Time)
    requires earlier <= later
    ensures Kept(Kept(events, earlier), later) == Kept(events, later)
  {
    if events != [] {
      var init, last := events[..|events| - 1], events[|events| - 1];
      KeptTwice(init, earlier, later);
      if last.timestamp > earlier {
        assert (Kept(init, earlier) + [last])[..|Kept(init, earlier)|] == Kept(init, earlier);
      }
    }
  }

  lemma KeptSnoc(events: seq<FailureEvent>, e: FailureEvent, cutoff: Time)
    ensures Kept(events + [e], cutoff) == if e.timestamp > cutoff then Kept(events, cutoff) + [e] else Kept(events, cutoff)
    ensures CountAfter(events + [e], cutoff) == CountAfter(events, cutoff) + if e.timestamp > cutoff then 1 else 0
  {
    assert (events + [e])[..|events|] == events;
  }

  /** Dropping old events does not change how many recent ones there are. */
  lemma {:induction false} CountKept(events: seq<FailureEvent>, earlier: Time, later: Time)
    requires earlier <= later
    ensures CountAfter(Kept(events, earlier), later) == CountAfter(events, later)
  {
    if events != [] {
      var init, last := events[..|events| - 1], events[|events| - 1];
      CountKept(init, earlier, later);
      if last.timestamp > earlier {
        KeptSnoc(Kept(init, earlier), last, later);
      }
    }
  }

  /** Pruned or not, a list that grows by one event has the same recent count. */
  lemma CountKeptSnoc(events: seq<FailureEvent>, e: FailureEvent, earlier: Time, later: Time)
    requires earlier <= later
    ensures CountAfter(Kept(events, earlier) + [e], later) == CountAfter(events + [e], later)
  {
    CountKept(events, earlier, later);
    KeptSnoc(Kept(events, earlier), e, later);
    KeptSnoc(events, e, later);
  }

  // ---- One more failure ----

  lemma HistorySnoc(log: Log, f: Failure, o: string)
    ensures History(log + [f], o) == if f.offerID == o then History(log, o) + [f.event] else History(log, o)
  {
    assert (log + [f])[..|log|] == log;
  }

  lemma SuppressedSnoc(log: Log, f: Failure, o: string)
    ensures SuppressedSince(log + [f], o)
            == Advance(SuppressedSince(log, o), f.event.timestamp, f.offerID == o,
                       RecentFailures(log + [f], o, f.event.timestamp))
  {
    assert (log + [f])[..|log|] == log;
  }

  /** A failure adds at most one to the recent count of its own offer, and nothing to any other. */
  lemma RecentSnoc(log: Log, f: Failure, o: string, now: Time)
    ensures RecentFailures(log + [f], o, now)
            == RecentFailures(log, o, now)
               + if f.offerID == o && f.event.timestamp > now - SUPPRESSION_WINDOW then 1 else 0
  {
    HistorySnoc(log, f, o);
    KeptSnoc(History(log, o), f.event, now - SUPPRESSION_WINDOW);
  }

  lemma ChronologicalSnoc(log: Log, f: Failure, asOf: Time)
    requires Chronological(log, asOf) && asOf <= f.event.timestamp
    ensures Chronological(log + [f], f.event.timestamp)
  {
    assert (log + [f])[..|log|] == log;
  }

  lemma {:induction false} ChronologicalMember(log: Log, now: Time, f: Failure)
    requires Chronological(log, now) && f in log
    ensures f.event.timestamp <= now
  {
    var init, last := log[..|log| - 1], log[|log| - 1];
    assert log == init + [last];
    if f in init {
      ChronologicalMember(init, last.event.timestamp, f);
    }
  }

  lemma {:induction false} HistoryIsPast(log: Log, now: Time, offerID: string)
    requires Chronological(log, now)
    ensures forall e <- History(log, offerID) :: e.timestamp <= now
  {
    if log != [] {
      HistoryIsPast(log[..|log| - 1], log[|log| - 1].event.timestamp, offerID);
    }
  }

  lemma {:induction false} NoneAfterPast(events: seq<FailureEvent>, cutoff: Time)
    requires forall e <- events :: e.timestamp <= cutoff
    ensures CountAfter(events, cutoff) == 0 && Kept(events, cutoff) == []
  {
    if events != [] {
      NoneAfterPast(events[..|events| - 1], cutoff);
    }
  }

  lemma {:induction false} LastFailureIsPast(log: Log, now: Time, key: string, offerID: string)
    requires Chronological(log, now)
    ensures LastFailure(log, key, offerID).Some? ==> LastFailure(log, key, offerID).value <= now
  {
    if log != [] {
      LastFailureIsPast(log[..|log| - 1], log[|log| - 1].event.timestamp, key, offerID);
    }
  }

  /** In a chronological log an offer is failing exactly when its last failure is recent. */
  lemma {:induction false} FailingByLastFailure(log: Log, end: Time, key: string, now: Time, offerID: string)
    requires Chronological(log, end)
    ensures offerID in FailingOffers(log, key, now)
            <==> (LastFailure(log, key, offerID).Some?
                  && LastFailure(log, key, offerID).value > now - FAILURE_DECAY_PERIOD)
  {
    if log != [] {
      var init, last := log[..|log| - 1], log[|log| - 1];
      FailingByLastFailure(init, last.event.timestamp, key, now, offerID);
      assert log == init + [last];
      assert forall f :: f in log <==> f in init || f == last;
      if last.offerID == offerID && last.GpuKey() == key {
        if last.event.timestamp > now - FAILURE_DECAY_PERIOD {
          assert last in log;
        } else {
          forall f | f in log
            ensures f.event.timestamp <= last.event.timestamp
          {
            ChronologicalMember(log, last.event.timestamp, f);
          }
        }
      } else if offerID in FailingOffers(init, key, now) {
        var f :| f in init && f.GpuKey() == key && f.event.timestamp > now - FAILURE_DECAY_PERIOD && f.offerID == offerID;
        assert f in log;
      }
    }
  }

  // ---- Suppression ----

  /** A suppression always starts at a recorded failure, never later than the clock. */
  lemma {:induction false} SuppressionIsPast(log: Log, now: Time, offerID: string)
    requires Chronological(log, now)
    ensures SuppressedSince(log, offerID).Some? ==> SuppressedSince(log, offerID).value <= now
  {
    if log != [] {
      SuppressionIsPast(log[..|log| - 1], log[|log| - 1].event.timestamp, offerID);
    }
  }

  /** At least the threshold of failures lies in the window that ends when the suppression began. */
  predicate Justified(since: Option<Time>, history: seq<FailureEvent>) {
    since.Some? ==>
      CountAfter(history, since.value - SUPPRESSION_WINDOW) - CountAfter(history, since.value) >= SUPPRESSION_THRESHOLD
  }

  lemma AdvanceKeepsJustified(before: Option<Time>, history: seq<FailureEvent>, e: FailureEvent, failed: bool,
                              longer: seq<FailureEvent>)
    requires Justified(before, history)
    requires longer == if failed then history + [e] else history
    requires forall x <- longer :: x.timestamp <= e.timestamp
    ensures Justified(Advance(before, e.timestamp, failed, CountAfter(longer, e.timestamp - SUPPRESSION_WINDOW)), longer)
  {
    NoneAfterPast(longer, e.timestamp);
    if before.Some? {
      KeptSnoc(history, e, before.value - SUPPRESSION_WINDOW);
      KeptSnoc(history, e, before.value);
    }
  }

  /** Whenever a suppression is open, the log holds the failures that justify it. */
  lemma {:induction false} SuppressionIsJustified(log: Log, now: Time, offerID: string)
    requires Chronological(log, now)
    ensures Justified(SuppressedSince(log, offerID), History(log, offerID))
  {
    if log != [] {
      var init, last := log[..|log| - 1], log[|log| - 1];
      SuppressionIsJustified(init, last.event.timestamp, offerID);
      HistoryIsPast(log, last.event.timestamp, offerID);
      AdvanceKeepsJustified(SuppressedSince(init, offerID), History(init, offerID), last.event,
                            last.offerID == offerID, History(log, offerID));
    }
  }

  // ---- Degradation and recovery ----

  lemma {:induction false} PowerIsPositive(base: real, n: nat)
    requires 0.0 < base <= 1.0
    ensures 0.0 < Power(base, n) <= 1.0
  {
    if n != 0 {
      PowerIsPositive(base, n - 1);
      assert base * Power(base, n - 1) <= 1.0 * Power(base, n - 1);
    }
  }

  lemma {:induction false} PowerIsAntitone(base: real, m: nat, n: nat)
    requires 0.0 < base <= 1.0 && m <= n
    ensures Power(base, n) <= Power(base, m)
  {
    if m < n {
      PowerIsAntitone(base, m, n - 1);
      PowerIsPositive(base, n - 1);
    }
  }

  /** 0 exactly when suppressed; otherwise between 0.05 and 1. */
  lemma ConfidenceRange(suppressed: bool, recent: nat, failingOffers: nat)
    ensures Confidence(suppressed, recent, failingOffers) == 0.0 <==> suppressed
    ensures !suppressed ==> 0.05 <= Confidence(suppressed, recent, failingOffers) <= 1.0
  {
    PowerIsPositive(0.7, recent);
  }

  /** The formula never rises when its inputs get worse. */
  lemma ConfidenceIsAntitone(s: bool, r: nat, f: nat, s': bool, r': nat, f': nat)
    requires (s ==> s') && r <= r' && f <= f'
    ensures Confidence(s', r', f') <= Confidence(s, r, f)
  {
    PowerIsPositive(0.7, r);
    PowerIsPositive(0.7, r');
    PowerIsAntitone(0.7, r, r');
  }

  lemma SubsetCount<T>(a: set<T>, b: set<T>)
    requires a <= b
    ensures |a| <= |b|
  {
    assert |b| == |a| + |b - a| by {
      assert b == a + (b - a);
    }
  }

  /** Recording a failure raises no offer's multiplier at that instant. */
  lemma RecordingNeverRaises(log: Log, f: Failure, offerID: string, gpuType: string, provider: string)
    requires Chronological(log + [f], f.event.timestamp)
    ensures var now := f.event.timestamp;
            Multiplier(log + [f], offerID, gpuType, provider, now) <= Multiplier(log, offerID, gpuType, provider, now)
  {
    var now := f.event.timestamp;
    var longer, key := log + [f], MakeGpuKey(provider, gpuType);
    SuppressedSnoc(log, f, offerID);
    RecentSnoc(log, f, offerID, now);
    assert FailingOffers(log, key, now) <= FailingOffers(longer, key, now) by {
      assert forall g :: g in log ==> g in longer;
    }
    SubsetCount(FailingOffers(log, key, now), FailingOffers(longer, key, now));
    ConfidenceIsAntitone(
      Suppressed(log, offerID, now), RecentFailures(log, offerID, now), |FailingOffers(log, key, now)|,
      Suppressed(longer, offerID, now), RecentFailures(longer, offerID, now), |FailingOffers(longer, key, now)|);
  }

  // ---- The same in terms of the failures themselves ----

  /** The failures of an offer after a time, by their place in the log. */
  ghost function FailuresAfter(log: Log, offerID: string, cutoff: Time): set<int> {
    set i | 0 <= i < |log| && log[i].offerID == offerID && log[i].event.timestamp > cutoff
  }

  /** The offers of a provider and GPU type that failed in the hour before. */
  ghost function FailedInLastHour(log: Log, gpuType: string, provider: string, now: Time): set<string> {
    set i | 0 <= i < |log| && log[i].provider + ":" + log[i].gpuType == provider + ":" + gpuType
            && log[i].event.timestamp > now - HOUR :: log[i].offerID
  }

  function AtLeast(floor: real, x: real): real {
    if x < floor then floor else x
  }

  /** A multiplier: nothing for a hidden offer; 1, or 0.3 if three or more offers of the type failed in the last
      hour, without failures of its own in the last half hour; and 0.7 of that for each of those, down to 0.05. */
  ghost predicate IsMultiplier(r: real, hidden: bool, log: Log, offerID: string, gpuType: string, provider: string, now: Time) {
    var own, degraded := |FailuresAfter(log, offerID, now - 30 * MINUTE)|, |FailedInLastHour(log, gpuType, provider, now)| >= 3;
    if hidden then r == 0.0
    else if own == 0 then r == if degraded then 0.3 else 1.0
    else r == AtLeast(0.05, if degraded then 0.3 * Power(0.7, own) else Power(0.7, own))
  }

  lemma {:induction false} RecentAreFailures(log: Log, offerID: string, now: Time)
    ensures RecentFailures(log, offerID, now) == |FailuresAfter(log, offerID, now - SUPPRESSION_WINDOW)|
  {
    var cutoff := now - SUPPRESSION_WINDOW;
    if log == [] {
      assert FailuresAfter(log, offerID, cutoff) == {};
    } else {
      var init, last := log[..|log| - 1], log[|log| - 1];
      assert log == init + [last];
      RecentAreFailures(init, offerID, now);
      RecentSnoc(init, last, offerID, now);
      assert FailuresAfter(log, offerID, cutoff)
          == FailuresAfter(init, offerID, cutoff) + if last.offerID == offerID && last.event.timestamp > cutoff then {|init|} else {};
    }
  }

  lemma FailingAreFailed(log: Log, gpuType: string, provider: string, now: Time)
    ensures FailingOffers(log, MakeGpuKey(provider, gpuType), now) == FailedInLastHour(log, gpuType, provider, now)
  {
    forall f | f in log && f.GpuKey() == MakeGpuKey(provider, gpuType) && f.event.timestamp > now - FAILURE_DECAY_PERIOD
      ensures f.offerID in FailedInLastHour(log, gpuType, provider, now)
    {
      var i :| 0 <= i < |log| && log[i] == f;
    }
  }

  /** The formula gives every offer the multiplier its failures call for. */
  lemma ConfidenceIsMultiplier(hidden: bool, log: Log, offerID: string, gpuType: string, provider: string, now: Time)
    ensures IsMultiplier(Confidence(hidden, RecentFailures(log, offerID, now), |FailingOffers(log, MakeGpuKey(provider, gpuType), now)|),
                         hidden, log, offerID, gpuType, provider, now)
  {
    hide RecentFailures, FailingOffers, FailuresAfter, FailedInLastHour;
    RecentAreFailures(log, offerID, now);
    FailingAreFailed(log, gpuType, provider, now);
    PowerIsPositive(0.7, RecentFailures(log, offerID, now));
  }

  lemma MultiplierOfLog(log: Log, offerID: string, gpuType: string, provider: string, now: Time)
    ensures IsMultiplier(Multiplier(log, offerID, gpuType, provider, now), Suppressed(log, offerID, now), log, offerID, gpuType, provider, now)
  {
    hide IsMultiplier, Confidence;
    ConfidenceIsMultiplier(Suppressed(log, offerID, now), log, offerID, gpuType, provider, now);
  }

  /** A failure that leaves its offer visible takes the multiplier to 0.7 of what it was, and to 0.3 of that if it
      is the one that makes a third offer of the type fail, but not below 0.05. */
  lemma OneMoreFailure(log: Log, f: Failure)
    requires !Suppressed(log, f.offerID, f.event.timestamp) && !Suppressed(log + [f], f.offerID, f.event.timestamp)
    ensures var now := f.event.timestamp;
            var before, after := Multiplier(log, f.offerID, f.gpuType, f.provider, now), Multiplier(log + [f], f.offerID, f.gpuType, f.provider, now);
            var m, n := |FailedInLastHour(log, f.gpuType, f.provider, now)|, |FailedInLastHour(log + [f], f.gpuType, f.provider, now)|;
            && m <= n <= m + 1
            && after == AtLeast(0.05, if m < 3 <= n then 0.3 * (0.7 * before) else 0.7 * before)
  {
    hide RecentFailures, FailingOffers, FailedInLastHour, Suppressed;
    var now, o := f.event.timestamp, f.offerID;
    RecentSnoc(log, f, o, now);
    FailingAreFailed(log, f.gpuType, f.provider, now);
    FailingAreFailed(log + [f], f.gpuType, f.provider, now);
    OneMoreFailed(log, f);
    PowerIsPositive(0.7, RecentFailures(log, o, now));
  }

  lemma OneMoreFailed(log: Log, f: Failure)
    ensures FailedInLastHour(log + [f], f.gpuType, f.provider, f.event.timestamp)
            == FailedInLastHour(log, f.gpuType, f.provider, f.event.timestamp) + {f.offerID}
    ensures |FailedInLastHour(log, f.gpuType, f.provider, f.event.timestamp)|
            <= |FailedInLastHour(log + [f], f.gpuType, f.provider, f.event.timestamp)|
            <= |FailedInLastHour(log, f.gpuType, f.provider, f.event.timestamp)| + 1
  {
    var longer, before := log + [f], FailedInLastHour(log, f.gpuType, f.provider, f.event.timestamp);
    assert longer[|log|] == f && forall i :: 0 <= i < |log| ==> longer[i] == log[i];
    assert FailedInLastHour(longer, f.gpuType, f.provider, f.event.timestamp) == before + {f.offerID};
    assert |before + {f.offerID}| == |before| + if f.offerID in before then 0 else 1;
  }

  /** A suppression, one failure at a time: the third failure of the offer in half an hour begins one if none is
      open; the first failure of any offer more than half an hour later ends it. */
  lemma SuppressionStep(log: Log, f: Failure, offerID: string)
    ensures var before, after := SuppressedSince(log, offerID), SuppressedSince(log + [f], offerID);
            var now := f.event.timestamp;
            && (before.Some? ==> after == if now > before.value + 30 * MINUTE then None else before)
            && (before.None? ==>
                  after == if f.offerID == offerID && |FailuresAfter(log + [f], offerID, now - 30 * MINUTE)| >= 3 then Some(now) else None)
  {
    SuppressedSnoc(log, f, offerID);
    RecentAreFailures(log + [f], offerID, f.event.timestamp);
  }

  /** One decay period after the last failure every multiplier is back to 1. */
  lemma FullRecovery(log: Log, last: Time, now: Time, offerID: string, gpuType: string, provider: string)
    requires Chronological(log, last)
    requires last + FAILURE_DECAY_PERIOD <= now
    ensures Multiplier(log, offerID, gpuType, provider, now) == 1.0
  {
    SuppressionIsPast(log, last, offerID);
    HistoryIsPast(log, last, offerID);
    NoneAfterPast(History(log, offerID), now - SUPPRESSION_WINDOW);
    forall f | f in log
      ensures f.event.timestamp <= last
    {
      ChronologicalMember(log, last, f);
    }
    assert FailingOffers(log, MakeGpuKey(provider, gpuType), now) == {};
  }

  /** A failure that leaves the offer at the threshold does not always hide the offer: it does so
      exactly when no earlier suppression has run out without having been closed yet. */
  lemma ThresholdSuppresses(log: Log, f: Failure)
    requires Chronological(log + [f], f.event.timestamp)
    requires RecentFailures(log + [f], f.offerID, f.event.timestamp) >= SUPPRESSION_THRESHOLD
    ensures var before, now := SuppressedSince(log, f.offerID), f.event.timestamp;
            Suppressed(log + [f], f.offerID, now)
            <==> !(before.Some? && now >= before.value + SUPPRESSION_COOLDOWN)
  {
    SuppressedSnoc(log, f, f.offerID);
  }

  function Repeated(log: Log, f: Failure, n: nat): Log {
    if n == 0 then log else Repeated(log, f, n - 1) + [f]
  }

  lemma {:induction false} RepeatedCount(log: Log, f: Failure, n: nat)
    ensures RecentFailures(Repeated(log, f, n), f.offerID, f.event.timestamp)
            == RecentFailures(log, f.offerID, f.event.timestamp) + n
  {
    if n != 0 {
      RepeatedCount(log, f, n - 1);
      RecentSnoc(Repeated(log, f, n - 1), f, f.offerID, f.event.timestamp);
    }
  }

  /** Three failures at once hide an offer that had none. */
  lemma ThreeSuppress(f: Failure)
    ensures SuppressedSince(Repeated([], f, 3), f.offerID) == Some(f.event.timestamp)
  {
    var none: Log := [];
    assert Repeated(none, f, 0) == [];
    RepeatedCount(none, f, 1); RepeatedCount(none, f, 2); RepeatedCount(none, f, 3);
    SuppressedSnoc(Repeated(none, f, 0), f, f.offerID);
    SuppressedSnoc(Repeated(none, f, 1), f, f.offerID);
    SuppressedSnoc(Repeated(none, f, 2), f, f.offerID);
  }

  /** A failure of a suppressed offer leaves the suppression as it is, up to the first one past the cooldown,
      which closes it and opens no new one. */
  lemma FailureUnderSuppression(log: Log, f: Failure, since: Time)
    requires SuppressedSince(log, f.offerID) == Some(since)
    ensures SuppressedSince(log + [f], f.offerID) == if Expired(since, f.event.timestamp) then None else Some(since)
  {
    SuppressedSnoc(log, f, f.offerID);
  }

  /** Three failures hide an offer, two more come while it is hidden, and one after the cooldown: three
      failures in the window, and the offer is not hidden. */
  lemma SecondRoundMisses(first: Failure, a: Failure, b: Failure, c: Failure)
    requires first.offerID == a.offerID == b.offerID == c.offerID
    requires first.event.timestamp <= a.event.timestamp <= b.event.timestamp
    requires b.event.timestamp < first.event.timestamp + SUPPRESSION_COOLDOWN < c.event.timestamp
    requires c.event.timestamp - SUPPRESSION_WINDOW < a.event.timestamp
    ensures var now, log := c.event.timestamp, Repeated([], first, 3) + [a] + [b];
            && Chronological(log + [c], now)
            && RecentFailures(log + [c], c.offerID, now) >= SUPPRESSION_THRESHOLD
            && !Suppressed(log + [c], c.offerID, now)
  {
    hide Chronological, SuppressedSince, RecentFailures;
    var hidden, now := Repeated([], first, 3), c.event.timestamp;
    ThreeSuppress(first);
    FailureUnderSuppression(hidden, a, first.event.timestamp);
    FailureUnderSuppression(hidden + [a], b, first.event.timestamp);
    FailureUnderSuppression(hidden + [a] + [b], c, first.event.timestamp);
    RecentSnoc(hidden, a, c.offerID, now);
    RecentSnoc(hidden + [a], b, c.offerID, now);
    RecentSnoc(hidden + [a] + [b], c, c.offerID, now);
    assert Chronological([], first.event.timestamp) by { NothingChronological(first.event.timestamp); }
    RepeatedChronological([], first, 3);
    ChronologicalSnoc(hidden, a, first.event.timestamp);
    ChronologicalSnoc(hidden + [a], b, a.event.timestamp);
    ChronologicalSnoc(hidden + [a] + [b], c, b.event.timestamp);
  }

  lemma NothingChronological(now: Time)
    ensures Chronological([], now)
  {
  }

  lemma {:induction false} RepeatedChronological(log: Log, f: Failure, n: nat)
    requires Chronological(log, f.event.timestamp)
    ensures Chronological(Repeated(log, f, n), f.event.timestamp)
  {
    if n != 0 {
      RepeatedChronological(log, f, n - 1);
      ChronologicalSnoc(Repeated(log, f, n - 1), f, f.event.timestamp);
    }
  }

  /** So the threshold alone does not hide an offer. */
  lemma ThresholdCanMiss(offerID: string)
    ensures exists log: Log, f: Failure ::
              && f.offerID == offerID
              && Chronological(log + [f], f.event.timestamp)
              && RecentFailures(log + [f], offerID, f.event.timestamp) >= SUPPRESSION_THRESHOLD
              && !Suppressed(log + [f], offerID, f.event.timestamp)
  {
    hide Chronological, Suppressed, RecentFailures, Repeated;
    var first, a := FailureAt(offerID, 0), FailureAt(offerID, 20 * MINUTE);
    var b, c := FailureAt(offerID, 25 * MINUTE), FailureAt(offerID, 31 * MINUTE);
    SecondRoundMisses(first, a, b, c);
  }

  function FailureAt(offerID: string, at: Time): Failure {
    Failure(offerID, "vastai", "A100", FailureEvent("ssh_timeout", at, ""))
  }
}
