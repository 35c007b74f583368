/** Offers, how a query adjusts, filters and ranks them, and how a retry finds and picks another one. */
module Offers {
  import opened Clock

  datatype Offer = Offer(id: string, provider: string, gpuType: string, gpuCount: int, vram: int, price: real,
                         location: string, reliability: real, cudaVersion: real,
                         available: bool, confidence: real, machineID: string, fetchedAt: Time)
  {
    /** A confidence of zero is taken for one that was never set. */
    function EffectiveConfidence(): real {
      if confidence == 0.0 then 1.0 else confidence
    }
  }

  /** A filter; an empty text, or a bound that is not positive, is no condition. */
  datatype OfferFilter = OfferFilter(provider: string, gpuType: string, minVRAM: int, maxPrice: real, location: string,
                                     minReliability: real, minGPUCount: int, minConfidence: real, minCUDAVersion: real)

  const ANY_OFFER := OfferFilter("", "", 0, 0.0, "", 0.0, 0, 0.0, 0.0)

  predicate MatchesFilter(o: Offer, f: OfferFilter) {
    && (f.provider != "" ==> o.provider == f.provider)
    && (f.gpuType != "" ==> o.gpuType == f.gpuType)
    && (f.minVRAM > 0 ==> o.vram >= f.minVRAM)
    && (f.maxPrice > 0.0 ==> o.price <= f.maxPrice)
    && (f.location != "" ==> Contains(o.location, f.location))
    && (f.minReliability > 0.0 ==> o.reliability >= f.minReliability)
    && (f.minGPUCount > 0 ==> o.gpuCount >= f.minGPUCount)
    && (f.minConfidence > 0.0 ==> o.confidence >= f.minConfidence)
    && (f.minCUDAVersion > 0.0 ==> o.cudaVersion >= f.minCUDAVersion)
  }

  predicate OccursAt(word: string, s: string, i: nat) {
    i + |word| <= |s| && s[i..i + |word|] == word
  }

  /** Whether a word occurs in a text. */
  predicate Contains(s: string, word: string) {
    exists i :: 0 <= i <= |s| && OccursAt(word, s, i)
  }

  /** What one query sees: the providers' offers and the failure tracker's answers. */
  datatype Snapshot = Snapshot(offers: seq<Offer>, suppressed: set<string>, multipliers: map<string, real>, now: Time)
  {
    function Multiplier(id: string): real {
      if id in multipliers then multipliers[id] else 1.0
    }
  }

  const STALE_INVENTORY_THRESHOLD: Duration := 2 * MINUTE
  const MAX_STALE_AGE: Duration := 5 * MINUTE
  const STALE_CONFIDENCE_MULTIPLIER: real := 0.5

  /** From 1 at two minutes linearly down to a half at five. */
  function StalenessFactor(age: Duration): real {
    if age < STALE_INVENTORY_THRESHOLD then 1.0
    else if age >= MAX_STALE_AGE then STALE_CONFIDENCE_MULTIPLIER
    else 1.0 - ((age - STALE_INVENTORY_THRESHOLD) as real / (MAX_STALE_AGE - STALE_INVENTORY_THRESHOLD) as real) * (1.0 - STALE_CONFIDENCE_MULTIPLIER)
  }

  function Aged(o: Offer, now: Time): Offer {
    var age := now - o.fetchedAt;
    if age < STALE_INVENTORY_THRESHOLD then o else o.(confidence := Times(o.EffectiveConfidence(), StalenessFactor(age)))
  }

  function Adjusted(o: Offer, snapshot: Snapshot): Offer {
    var aged, m := Aged(o, snapshot.now), snapshot.Multiplier(o.id);
    if m < 1.0 then Lowered(aged, m) else aged
  }

  function Times(c: real, m: real): real {
    c * m
  }

  function Lowered(o: Offer, m: real): Offer {
    o.(confidence := Times(o.confidence, m))
  }

  /** Failures lower what a buyer sees of an offer exactly when its confidence is not zero or it is stale: zero
      stays zero, and reads as certainty. */
  lemma FailuresLowerConfidence(o: Offer, snapshot: Snapshot)
    requires 0.0 <= o.confidence && 0.0 < snapshot.Multiplier(o.id) < 1.0
    ensures var healthy := snapshot.(multipliers := snapshot.multipliers[o.id := 1.0]);
            Adjusted(o, snapshot).EffectiveConfidence() < Adjusted(o, healthy).EffectiveConfidence()
            <==> o.confidence != 0.0 || snapshot.now - o.fetchedAt >= STALE_INVENTORY_THRESHOLD
  {
    hide Aged, Lowered;
    var healthy := snapshot.(multipliers := snapshot.multipliers[o.id := 1.0]);
    AgedConfidence(o, snapshot.now);
    assert Adjusted(o, healthy) == Aged(o, snapshot.now);
    LoweredConfidence(Aged(o, snapshot.now), snapshot.Multiplier(o.id));
  }

  /** The confidence a Vast.ai listing gives an offer: reliability, and for a spot offer how close its lowest
      bid is to its price. */
  function VastConfidence(reliability: real, minBid: real, price: real): real {
    var bidSafety := if minBid <= 0.0 then 1.0
                     else if price > 0.0 then (if minBid / price > 1.0 then 1.0 else minBid / price)
                     else 0.0;
    0.6 * reliability + 0.4 * bidSafety
  }

  /** It is zero exactly for a spot offer without a positive price on a host without any reliability. */
  lemma ZeroConfidence(reliability: real, minBid: real, price: real)
    requires reliability >= 0.0
    ensures VastConfidence(reliability, minBid, price) == 0.0 <==> reliability == 0.0 && minBid > 0.0 && price <= 0.0
  {
    if minBid > 0.0 && price > 0.0 {
      assert minBid / price > 0.0;
    }
  }

  lemma LoweredConfidence(o: Offer, m: real)
    requires 0.0 <= o.confidence && 0.0 < m < 1.0
    ensures Lowered(o, m).EffectiveConfidence() < o.EffectiveConfidence() <==> o.confidence != 0.0
  {
    hide Times;
    Scaled(o.confidence, m);
  }

  lemma AgedConfidence(o: Offer, now: Time)
    requires 0.0 <= o.confidence
    ensures 0.0 <= Aged(o, now).confidence
    ensures Aged(o, now).confidence == 0.0 <==> o.confidence == 0.0 && now - o.fetchedAt < STALE_INVENTORY_THRESHOLD
    ensures Aged(o, now).id == o.id
  {
    hide StalenessFactor, Times;
    StalenessRange(now - o.fetchedAt);
    Scaled(o.EffectiveConfidence(), StalenessFactor(now - o.fetchedAt));
  }

  lemma Scaled(c: real, m: real)
    requires 0.0 < m <= 1.0 && 0.0 <= c
    ensures 0.0 <= Times(c, m) <= c
    ensures c > 0.0 ==> Times(c, m) > 0.0 && (m < 1.0 ==> Times(c, m) < c)
  {
  }

  lemma StalenessRange(age: Duration)
    ensures 0.5 <= StalenessFactor(age) <= 1.0
  {
    if STALE_INVENTORY_THRESHOLD <= age < MAX_STALE_AGE {
      var a, b := (age - STALE_INVENTORY_THRESHOLD) as real, (MAX_STALE_AGE - STALE_INVENTORY_THRESHOLD) as real;
      assert 0.0 <= a / b <= 1.0;
    }
  }

  /** The age of an offer counts from two minutes to five: the factor is 8/6 less a sixth for each minute of it. */
  lemma StalenessIsLinear(age: Duration)
    ensures var counted := if age < 2 * MINUTE then 2 * MINUTE else if age > 5 * MINUTE then 5 * MINUTE else age;
            StalenessFactor(age) * (6 * MINUTE) as real == (8 * MINUTE - counted) as real
  {
  }

  /** What a buyer sees of an offer: all of it as listed but the confidence, which is taken down by age and failures. */
  lemma AdjustedInFields(o: Offer, snapshot: Snapshot)
    ensures var age, m, adjusted := snapshot.now - o.fetchedAt, snapshot.Multiplier(o.id), Adjusted(o, snapshot);
            var listed := if age >= 2 * MINUTE && o.confidence == 0.0 then 1.0 else o.confidence;
            && adjusted == o.(confidence := adjusted.confidence)
            && adjusted.confidence == Times(Times(listed, StalenessFactor(age)), if m < 1.0 then m else 1.0)
  {
    hide Times;
    TimesOne(o.confidence);
    TimesOne(Times(o.EffectiveConfidence(), StalenessFactor(snapshot.now - o.fetchedAt)));
  }

  lemma TimesOne(c: real)
    ensures Times(c, 1.0) == c
  {
  }

  /** Ranking: higher confidence first, then lower price. */
  predicate Ranks(a: Offer, b: Offer) {
    var ca, cb := a.EffectiveConfidence(), b.EffectiveConfidence();
    if ca != cb then ca > cb else a.price <= b.price
  }

  ghost predicate Ranked(offers: seq<Offer>) {
    forall i, j :: 0 <= i < j < |offers| ==> Ranks(offers[i], offers[j])
  }

  function Insert(offers: seq<Offer>, o: Offer): (r: seq<Offer>)
    ensures multiset(r) == multiset(offers) + multiset{o}
  {
    if offers == [] then [o]
    else
      var init, last := offers[..|offers| - 1], offers[|offers| - 1];
      assert offers == init + [last];
      if Ranks(last, o) then offers + [o] else Insert(init, o) + [last]
  }

  /** Some ranked order of the same offers. */
  function Sorted(offers: seq<Offer>): (r: seq<Offer>)
    ensures multiset(r) == multiset(offers)
  {
    if offers == [] then []
    else
      assert offers == offers[..|offers| - 1] + [offers[|offers| - 1]];
      Insert(Sorted(offers[..|offers| - 1]), offers[|offers| - 1])
  }

  /** The order in the fields: by confidence downwards, where none set counts as 1, and then by price upwards. */
  ghost predicate BestFirst(offers: seq<Offer>) {
    forall i, j :: 0 <= i < j < |offers| ==>
      var a, b := if offers[i].confidence == 0.0 then 1.0 else offers[i].confidence, if offers[j].confidence == 0.0 then 1.0 else offers[j].confidence;
      a > b || (a == b && offers[i].price <= offers[j].price)
  }

  lemma RankedIsBestFirst(offers: seq<Offer>)
    requires Ranked(offers)
    ensures BestFirst(offers)
  {
    assert forall i, j :: 0 <= i < j < |offers| ==> Ranks(offers[i], offers[j]);
  }

  lemma RanksIsATotalOrder(a: Offer, b: Offer, c: Offer)
    ensures Ranks(a, b) || Ranks(b, a)
    ensures Ranks(a, b) && Ranks(b, c) ==> Ranks(a, c)
  {
  }

  lemma SameElements(a: seq<Offer>, b: seq<Offer>)
    requires multiset(a) == multiset(b)
    ensures forall x :: x in a <==> x in b
  {
    forall x
      ensures x in a <==> x in b
    {
      assert x in a <==> x in multiset(a);
      assert x in b <==> x in multiset(b);
    }
  }

  lemma AppendRanked(offers: seq<Offer>, last: Offer)
    requires Ranked(offers) && forall x <- offers :: Ranks(x, last)
    ensures Ranked(offers + [last])
  {
    hide Ranks;
    var r := offers + [last];
    forall i, j | 0 <= i < j < |r|
      ensures Ranks(r[i], r[j])
    {
      assert r[i] == offers[i];
      if j < |offers| {
        assert r[j] == offers[j];
      }
    }
  }

  lemma {:induction false} InsertRanked(offers: seq<Offer>, o: Offer)
    requires Ranked(offers)
    ensures Ranked(Insert(offers, o))
  {
    hide Ranks;
    if offers != [] {
      var init, last := offers[..|offers| - 1], offers[|offers| - 1];
      assert offers == init + [last];
      if Ranks(last, o) {
        forall x | x in offers
          ensures Ranks(x, o)
        {
          RanksIsATotalOrder(x, last, o);
        }
        AppendRanked(offers, o);
      } else {
        InsertRanked(init, o);
        SameElements(Insert(init, o), init + [o]);
        RanksIsATotalOrder(last, o, o);
        AppendRanked(Insert(init, o), last);
      }
    }
  }

  lemma {:induction false} SortedRanked(offers: seq<Offer>)
    ensures Ranked(Sorted(offers))
    ensures forall x :: x in Sorted(offers) <==> x in offers
  {
    hide Ranks;
    SameElements(Sorted(offers), offers);
    if offers != [] {
      SortedRanked(offers[..|offers| - 1]);
      InsertRanked(Sorted(offers[..|offers| - 1]), offers[|offers| - 1]);
    }
  }

  /** An offer a query returns. */
  predicate Returned(o: Offer, snapshot: Snapshot, filter: OfferFilter) {
    o.id !in snapshot.suppressed && MatchesFilter(o, filter) && o.available
  }

  /** An offer a query may show, in the fields of the offer and the filter. */
  predicate Shown(o: Offer, suppressed: set<string>, f: OfferFilter) {
    && o.available && !(o.id in suppressed)
    && (f.provider == "" || f.provider == o.provider) && (f.gpuType == "" || f.gpuType == o.gpuType)
    && (f.maxPrice <= 0.0 || f.maxPrice >= o.price)
    && (f.minVRAM <= 0 || f.minVRAM <= o.vram) && (f.minGPUCount <= 0 || f.minGPUCount <= o.gpuCount)
    && (f.minReliability <= 0.0 || f.minReliability <= o.reliability)
    && (f.minConfidence <= 0.0 || f.minConfidence <= o.confidence)
    && (f.minCUDAVersion <= 0.0 || f.minCUDAVersion <= o.cudaVersion)
    && (f.location == "" || exists i :: 0 <= i <= |o.location| && f.location <= o.location[i..])
  }

  lemma ReturnedExactlyWhen(o: Offer, snapshot: Snapshot, f: OfferFilter)
    ensures Returned(o, snapshot, f) <==> Shown(o, snapshot.suppressed, f)
  {
    ContainsExactlyWhen(o.location, f.location);
    hide Contains;
  }

  lemma ContainsExactlyWhen(s: string, word: string)
    ensures Contains(s, word) <==> exists i :: 0 <= i <= |s| && word <= s[i..]
  {
    if i :| 0 <= i <= |s| && word <= s[i..] {
      assert s[i..][..|word|] == s[i..i + |word|];
      assert OccursAt(word, s, i);
    }
    if i :| 0 <= i <= |s| && OccursAt(word, s, i) {
      assert s[i..][..|word|] == s[i..i + |word|];
    }
  }

  /** The returned offers of a list, adjusted, in its order. */
  function Selected(offers: seq<Offer>, snapshot: Snapshot, filter: OfferFilter): seq<Offer> {
    if offers == [] then []
    else
      var rest, o := Selected(offers[..|offers| - 1], snapshot, filter), Adjusted(offers[|offers| - 1], snapshot);
      if Returned(o, snapshot, filter) then rest + [o] else rest
  }

  method FilterAndSort(snapshot: Snapshot, filter: OfferFilter) returns (r: seq<Offer>)
    ensures Ranked(r) && BestFirst(r) && multiset(r) == multiset(Selected(snapshot.offers, snapshot, filter))
    ensures forall o :: o in r <==> o in Selected(snapshot.offers, snapshot, filter)
    ensures forall o :: o in r <==> Shown(o, snapshot.suppressed, filter) && exists x :: x in snapshot.offers && o == Adjusted(x, snapshot)
  {
    hide Adjusted, Returned, Ranked, Shown, BestFirst;
    var filtered: seq<Offer> := [];
    for i := 0 to |snapshot.offers|
      invariant filtered == Selected(snapshot.offers[..i], snapshot, filter)
    {
      assert snapshot.offers[..i + 1][..i] == snapshot.offers[..i];
      var o := Adjusted(snapshot.offers[i], snapshot);
      if Returned(o, snapshot, filter) {
        filtered := filtered + [o];
      }
    }
    assert snapshot.offers[..|snapshot.offers|] == snapshot.offers;
    r := Sorted(filtered);
    SortedRanked(filtered);
    RankedIsBestFirst(r);
    forall o
      ensures o in filtered <==> Shown(o, snapshot.suppressed, filter) && exists x :: x in snapshot.offers && o == Adjusted(x, snapshot)
    {
      SelectedAre(snapshot.offers, snapshot, filter, o);
      ReturnedExactlyWhen(o, snapshot, filter);
    }
  }

  lemma {:induction false} SelectedAre(offers: seq<Offer>, snapshot: Snapshot, filter: OfferFilter, o: Offer)
    ensures o in Selected(offers, snapshot, filter)
            <==> Returned(o, snapshot, filter) && exists x :: x in offers && o == Adjusted(x, snapshot)
  {
    hide Adjusted, Returned;
    if offers != [] {
      var init, last := offers[..|offers| - 1], offers[|offers| - 1];
      SelectedAre(init, snapshot, filter, o);
      assert offers == init + [last];
      if x :| x in offers && o == Adjusted(x, snapshot) {
        assert x in init || x == last;
      }
      if x :| x in init && o == Adjusted(x, snapshot) {
        assert x in offers;
      }
    }
  }

  // ---- Comparable offers for a retry ----

  const SAME_GPU := "same_gpu"
  const SAME_VRAM := "same_vram"
  const ANY := "any"

  /** How much dearer a replacement may be. */
  function PriceFactor(scope: string): (r: real)
    ensures r >= 1.2
  {
    if scope == SAME_VRAM then 1.5 else if scope == ANY then 2.0 else 1.2
  }

  function FilterFor(original: Offer, scope: string): OfferFilter {
    var cap := original.price * PriceFactor(scope);
    if scope == SAME_VRAM then ANY_OFFER.(provider := original.provider, minVRAM := original.vram, maxPrice := cap)
    else if scope == ANY then ANY_OFFER.(minVRAM := original.vram, maxPrice := cap)
    else ANY_OFFER.(provider := original.provider, gpuType := original.gpuType, maxPrice := cap)
  }

  predicate NotExcluded(o: Offer, original: Offer, excludeIDs: set<string>, excludeMachines: set<string>) {
    && o.id !in excludeIDs && o.id != original.id
    && (o.machineID != "" ==> o.machineID !in excludeMachines)
  }

  function Elements(s: seq<string>): set<string> {
    set x | x in s
  }

  /** A candidate for a retry. */
  predicate Comparable(o: Offer, original: Offer, scope: string, excludeIDs: seq<string>, excludeMachines: seq<string>, snapshot: Snapshot) {
    && NotExcluded(o, original, Elements(excludeIDs), Elements(excludeMachines))
    && Returned(o, snapshot, FilterFor(original, scope))
  }

  /** A replacement, in the fields of both offers: within the scope and the price, and none of those to avoid. */
  predicate WithinScope(o: Offer, original: Offer, scope: string, excludeIDs: seq<string>, excludeMachines: seq<string>, suppressed: set<string>) {
    && o.available && o.id !in suppressed && o.id !in excludeIDs && o.id != original.id
    && (o.machineID == "" || o.machineID !in excludeMachines)
    && (scope == "same_vram" || scope == "any" ==> original.vram > 0 ==> o.vram >= original.vram)
    && (scope != "any" ==> original.provider != "" ==> o.provider == original.provider)
    && (scope != "same_vram" && scope != "any" ==> original.gpuType != "" ==> o.gpuType == original.gpuType)
    && (original.price > 0.0 ==> o.price <= original.price * (match scope case "same_vram" => 1.5 case "any" => 2.0 case _ => 1.2))
  }

  lemma ComparableExactlyWhen(o: Offer, original: Offer, scope: string, excludeIDs: seq<string>, excludeMachines: seq<string>, snapshot: Snapshot)
    ensures Comparable(o, original, scope, excludeIDs, excludeMachines, snapshot)
            <==> WithinScope(o, original, scope, excludeIDs, excludeMachines, snapshot.suppressed)
  {
  }

  /** Replacements for a failed offer: at most five, none excluded, best ranked first, and nothing
      comparable passed over for a worse one. */
  method FindComparableOffers(original: Offer, scope: string, excludeIDs: seq<string>, excludeMachines: seq<string>,
                              snapshot: Snapshot) returns (candidates: seq<Offer>)
    ensures |candidates| <= 5 && Ranked(candidates) && BestFirst(candidates)
    ensures forall c <- candidates :: Comparable(c, original, scope, excludeIDs, excludeMachines, snapshot)
    ensures forall c <- candidates :: exists x :: x in snapshot.offers && c == Adjusted(x, snapshot)
    ensures forall x <- snapshot.offers ::
              var o := Adjusted(x, snapshot);
              Comparable(o, original, scope, excludeIDs, excludeMachines, snapshot) ==>
                o in candidates || (|candidates| == 5 && forall c <- candidates :: Ranks(c, o))
    ensures forall c <- candidates :: WithinScope(c, original, scope, excludeIDs, excludeMachines, snapshot.suppressed)
    ensures forall x <- snapshot.offers ::
              var o := Adjusted(x, snapshot);
              WithinScope(o, original, scope, excludeIDs, excludeMachines, snapshot.suppressed) ==>
                o in candidates || (|candidates| == 5 && forall c <- candidates :: Ranks(c, o))
  {
    hide Adjusted, Returned, FilterFor, Ranks, Shown, WithinScope, BestFirst;
    var offers := FilterAndSort(snapshot, FilterFor(original, scope));
    var excluded := AsSet(excludeIDs);
    var machines := AsSet(excludeMachines);
    var eligible: seq<Offer> := [];
    for i := 0 to |offers|
      invariant forall o :: o in eligible <==> o in offers[..i] && NotExcluded(o, original, excluded, machines)
    {
      var o := offers[i];
      if NotExcluded(o, original, excluded, machines) {
        eligible := eligible + [o];
      }
    }
    assert offers[..|offers|] == offers;
    SortedRanked(eligible);
    eligible := Sorted(eligible);
    candidates := if |eligible| > 5 then eligible[..5] else eligible;
    forall o
      ensures o in eligible <==> Comparable(o, original, scope, excludeIDs, excludeMachines, snapshot)
                                 && exists x :: x in snapshot.offers && o == Adjusted(x, snapshot)
    {
      SelectedAre(snapshot.offers, snapshot, FilterFor(original, scope), o);
    }
    TopRanked(eligible, candidates);
    RankedIsBestFirst(candidates);
    hide Comparable;
    forall o
      ensures WithinScope(o, original, scope, excludeIDs, excludeMachines, snapshot.suppressed)
              <==> Comparable(o, original, scope, excludeIDs, excludeMachines, snapshot)
    {
      ComparableExactlyWhen(o, original, scope, excludeIDs, excludeMachines, snapshot);
    }
  }

  method AsSet(s: seq<string>) returns (r: set<string>)
    ensures r == Elements(s)
  {
    r := {};
    for i := 0 to |s|
      invariant r == Elements(s[..i])
    {
      r := r + {s[i]};
    }
    assert s[..|s|] == s;
  }

  lemma TopRanked(offers: seq<Offer>, top: seq<Offer>)
    requires Ranked(offers) && top == if |offers| > 5 then offers[..5] else offers
    ensures Ranked(top)
    ensures forall o <- top :: o in offers
    ensures forall o <- offers :: o in top || (|top| == 5 && forall c <- top :: Ranks(c, o))
  {
    hide Ranks;
    forall o | o in offers && o !in top
      ensures |top| == 5 && forall c <- top :: Ranks(c, o)
    {
      var j :| 0 <= j < |offers| && offers[j] == o;
      assert forall k :: 0 <= k < |top| ==> top[k] in top && offers[k] == top[k];
      assert j >= |top|;
    }
  }

  /** What a pick comes to; panicking ends the call that asked for it. */
  datatype Pick = Nothing | Picked(offer: Offer) | Panics

  /** A random pick among the first few offers no dearer than a tolerance above the first; nothing to pick
      from gives nothing. With several offers and none in the run, as when the first price is negative, there
      is no random number to draw. */
  method SelectFromTopN(offers: seq<Offer>, maxN: int, tolerance: real) returns (pick: Pick)
    ensures pick.Nothing? <==> offers == []
    ensures pick.Panics? <==> |offers| > 1 && (maxN <= 0 || offers[0].price > Times(offers[0].price, tolerance))
    ensures pick.Picked? ==> exists k :: 0 <= k < |offers| && pick.offer == offers[k]
                               && (k > 0 ==> k < maxN && forall j :: 0 <= j <= k ==> offers[j].price <= Times(offers[0].price, tolerance))
  {
    hide Times;
    if offers == [] {
      return Nothing;
    }
    if |offers| == 1 {
      return Picked(offers[0]);
    }
    var maxPrice := Times(offers[0].price, tolerance);
    var n := 0;
    while n < |offers| && offers[n].price <= maxPrice
      invariant 0 <= n <= |offers|
      invariant forall j :: 0 <= j < n ==> offers[j].price <= maxPrice
    {
      n := n + 1;
    }
    assert n == 0 <==> offers[0].price > maxPrice;
    if n > maxN {
      n := maxN;
    }
    if n <= 0 {
      return Panics;
    }
    var k :| 0 <= k < n;
    pick := Picked(offers[k]);
  }
}
