/** The offer cache: stale answers while a refresh runs in the background, and how refreshes overlap. */
module OfferCache {
  import opened Wrappers
  import opened Clock
  import opened Offers

  datatype CacheEntry = CacheEntry(offers: seq<Offer>, fetchedAt: Time, expiresAt: Time, softExpiry: Time,
                                   failed: bool, refreshing: bool)

  /** What a query finds. */
  datatype Lookup = Fresh(offers: seq<Offer>) | CachedError | Stale(offers: seq<Offer>) | Miss

  function LookUp(entry: Option<CacheEntry>, now: Time): Lookup {
    match entry
    case None => Miss
    case Some(e) =>
      if now < e.softExpiry then if e.failed then CachedError else Fresh(e.offers)
      else if now < e.expiresAt && !e.failed && e.offers != [] then Stale(e.offers)
      else Miss
  }

  /** Asking for a refresh starts one unless the entry says that one is under way. */
  predicate Starts(entry: Option<CacheEntry>) {
    entry.Some? ==> !entry.value.refreshing
  }

  function AfterTrigger(entry: Option<CacheEntry>): Option<CacheEntry> {
    if entry.Some? then Some(entry.value.(refreshing := true)) else None
  }

  function SoftAge(ttl: Duration): Duration {
    ttl * 3 / 4
  }

  function Good(offers: seq<Offer>, now: Time, ttl: Duration): CacheEntry {
    CacheEntry(offers, now, now + ttl, now + SoftAge(ttl), false, false)
  }

  function BackingOff(now: Time, backoff: Duration): CacheEntry {
    CacheEntry([], now, now + backoff, now + backoff, true, false)
  }

  /** The entry after a fetch a caller waited for: a failure replaces whatever was cached. */
  function AfterFetch(result: Option<seq<Offer>>, now: Time, ttl: Duration, backoff: Duration): CacheEntry {
    match result
    case Some(offers) => Good(offers, now, ttl)
    case None => BackingOff(now, backoff)
  }

  /** The entry after a background refresh: a failure keeps it. */
  function AfterRefresh(entry: Option<CacheEntry>, result: Option<seq<Offer>>, now: Time, ttl: Duration): Option<CacheEntry> {
    match result
    case Some(offers) => Some(Good(offers, now, ttl))
    case None => if entry.Some? then Some(entry.value.(refreshing := false)) else None
  }

  /** An entry as the cache writes them. */
  predicate WellDated(e: CacheEntry, ttl: Duration, backoff: Duration) {
    && (!e.failed ==> e.expiresAt == e.fetchedAt + ttl && e.softExpiry == e.fetchedAt + SoftAge(ttl))
    && (e.failed ==> e.expiresAt == e.softExpiry == e.fetchedAt + backoff)
  }

  /** What a query answers, by the age of the entry: its offers as fresh for three quarters of the TTL, as stale
      until the TTL if there are any; the error of a failed fetch during the backoff; otherwise nothing. */
  ghost predicate AnswersByAge(entry: Option<CacheEntry>, now: Time, ttl: Duration, backoff: Duration, lookup: Lookup) {
    match entry
    case None => lookup == Miss
    case Some(e) =>
      var age := now - e.fetchedAt;
      if e.failed then lookup == if age < backoff then CachedError else Miss
      else if age < ttl * 3 / 4 then lookup == Fresh(e.offers)
      else if age < ttl && |e.offers| > 0 then lookup == Stale(e.offers)
      else lookup == Miss
  }

  lemma LookUpByAge(entry: Option<CacheEntry>, now: Time, ttl: Duration, backoff: Duration)
    requires entry.Some? ==> WellDated(entry.value, ttl, backoff)
    ensures AnswersByAge(entry, now, ttl, backoff, LookUp(entry, now))
  {
  }

  class OfferCache {
    var cache: map<string, CacheEntry>
    const ttl: Duration
    const providerTTL: map<string, Duration>
    const backoffTTL: Duration

    constructor (ttl: Duration, providerTTL: map<string, Duration>, backoffTTL: Duration)
      ensures cache == map[] && Valid()
      ensures this.ttl == ttl && this.providerTTL == providerTTL && this.backoffTTL == backoffTTL
    {
      cache, this.ttl, this.providerTTL, this.backoffTTL := map[], ttl, providerTTL, backoffTTL;
    }

    function GetCacheTTL(provider: string): Duration {
      if provider in providerTTL then providerTTL[provider] else ttl
    }

    function Entry(key: string): Option<CacheEntry>
      reads this
    {
      if key in cache then Some(cache[key]) else None
    }

    /** Every key belongs to one provider, and every entry is dated with that provider's TTL. */
    ghost predicate Valid()
      reads this
    {
      forall key <- cache :: WellDated(cache[key], GetCacheTTL(ProviderOf(key)), backoffTTL)
    }

    /** Looks up a key and, on a stale hit with no refresh under way, starts one. Offers answered from the
        cache are younger than the TTL of their provider. */
    method GetOffersWithCache(key: string, now: Time) returns (lookup: Lookup, started: bool)
      requires Valid()
      modifies this
      ensures Valid() && lookup == LookUp(old(Entry(key)), now)
      ensures AnswersByAge(old(Entry(key)), now, GetCacheTTL(ProviderOf(key)), backoffTTL, lookup)
      ensures started <==> lookup.Stale? && Starts(old(Entry(key)))
      ensures Entry(key) == if lookup.Stale? then AfterTrigger(old(Entry(key))) else old(Entry(key))
      ensures forall other :: other != key ==> Entry(other) == old(Entry(other))
      ensures lookup.Fresh? || lookup.Stale? ==>
                && key in cache && cache[key].offers == lookup.offers
                && (lookup.Stale? || 0 < GetCacheTTL(ProviderOf(key)) ==> now - cache[key].fetchedAt < GetCacheTTL(ProviderOf(key)))
    {
      LookUpByAge(Entry(key), now, GetCacheTTL(ProviderOf(key)), backoffTTL);
      hide AnswersByAge;
      lookup, started := Miss, false;
      if key in cache {
        var e := cache[key];
        if now < e.softExpiry {
          lookup := if e.failed then CachedError else Fresh(e.offers);
        } else if now < e.expiresAt && !e.failed && e.offers != [] {
          lookup := Stale(e.offers);
          started := TriggerBackgroundRefresh(key);
        }
      }
    }

    method TriggerBackgroundRefresh(key: string) returns (started: bool)
      requires Valid()
      modifies this
      ensures Valid()
      ensures started <==> Starts(old(Entry(key)))
      ensures Entry(key) == AfterTrigger(old(Entry(key)))
      ensures forall other :: other != key ==> Entry(other) == old(Entry(other))
    {
      if key in cache && cache[key].refreshing {
        return false;
      }
      if key in cache {
        cache := cache[key := cache[key].(refreshing := true)];
      }
      started := true;
    }

    method FinishRefresh(key: string, result: Option<seq<Offer>>, now: Time)
      requires Valid()
      modifies this
      ensures Valid()
      ensures Entry(key) == AfterRefresh(old(Entry(key)), result, now, GetCacheTTL(ProviderOf(key)))
      ensures forall other :: other != key ==> Entry(other) == old(Entry(other))
    {
      if result.None? {
        if key in cache {
          cache := cache[key := cache[key].(refreshing := false)];
        }
        return;
      }
      var t := GetCacheTTL(ProviderOf(key));
      cache := cache[key := CacheEntry(result.value, now, now + t, now + SoftAge(t), false, false)];
    }

    method FetchOffersSync(key: string, result: Option<seq<Offer>>, now: Time)
      requires Valid()
      modifies this
      ensures Valid()
      ensures Entry(key) == Some(AfterFetch(result, now, GetCacheTTL(ProviderOf(key)), backoffTTL))
      ensures forall other :: other != key ==> Entry(other) == old(Entry(other))
    {
      if result.None? {
        cache := cache[key := CacheEntry([], now, now + backoffTTL, now + backoffTTL, true, false)];
        return;
      }
      var t := GetCacheTTL(ProviderOf(key));
      cache := cache[key := CacheEntry(result.value, now, now + t, now + SoftAge(t), false, false)];
    }
  }

  /** The provider a key starts with. */
  function ProviderOf(key: string): string {
    if key == "" || key[0] == ':' then "" else [key[0]] + ProviderOf(key[1..])
  }

  /** The key of a query: only the provider, the GPU type and the location choose the cached list. */
  function CacheKey(provider: string, gpuType: string, location: string): string {
    provider + (if gpuType != "" then ":gpu=" + gpuType else "") + (if location != "" then ":loc=" + location else "")
  }

  lemma {:induction false} ProviderOfKey(provider: string, rest: string)
    requires ':' !in provider && (rest == "" || rest[0] == ':')
    ensures ProviderOf(provider + rest) == provider
  {
    if provider != "" {
      assert (provider + rest)[1..] == provider[1..] + rest;
      ProviderOfKey(provider[1..], rest);
    }
  }

  lemma KeyHasProvidersTTL(provider: string, gpuType: string, location: string)
    requires ':' !in provider
    ensures ProviderOf(CacheKey(provider, gpuType, location)) == provider
  {
    var rest := (if gpuType != "" then ":gpu=" + gpuType else "") + (if location != "" then ":loc=" + location else "");
    assert CacheKey(provider, gpuType, location) == provider + rest;
    ProviderOfKey(provider, rest);
  }

  // ---- One key over time ----

  /** One key: its entry, the callers that saw a stale entry and have not asked for the refresh yet, the fetches
      callers wait for and the background refreshes, by their start times. */
  datatype World = World(now: Time, entry: Option<CacheEntry>, lookers: nat, fetches: multiset<Time>, refreshes: multiset<Time>)

  /** The time settings of a key's provider, and whether a caller that sees a stale entry asks for the refresh
      before the clock moves on: the code looks and asks under separate locks. */
  datatype Settings = Settings(ttl: Duration, backoff: Duration, timeout: Duration, prompt: bool)
  {
    predicate Valid() {
      ttl > 0 && timeout > 0
    }
  }

  datatype Step =
    | Look
    | Trigger
    | FetchReturns(started: Time, result: Option<seq<Offer>>)
    | RefreshReturns(started: Time, result: Option<seq<Offer>>)
    | Tick(time: Time)

  /** Every call to the provider ends before its time is up. */
  ghost predicate InTime(started: multiset<Time>, time: Time, timeout: Duration) {
    forall t <- started :: time < t + timeout
  }

  ghost predicate Enabled(w: World, step: Step, s: Settings) {
    match step
    case Look => true
    case Trigger => w.lookers > 0
    case FetchReturns(started, _) => started in w.fetches
    case RefreshReturns(started, _) => started in w.refreshes
    case Tick(time) =>
      && w.now <= time && InTime(w.fetches, time, s.timeout) && InTime(w.refreshes, time, s.timeout)
      && (s.prompt && w.now < time ==> w.lookers == 0)
  }

  ghost function Apply(w: World, step: Step, s: Settings): World
    requires Enabled(w, step, s)
  {
    match step
    case Look =>
      w.(lookers := if LookUp(w.entry, w.now).Stale? then w.lookers + 1 else w.lookers,
         fetches := if LookUp(w.entry, w.now).Miss? then w.fetches + multiset{w.now} else w.fetches)
    case Trigger =>
      w.(lookers := w.lookers - 1, entry := AfterTrigger(w.entry),
         refreshes := if Starts(w.entry) then w.refreshes + multiset{w.now} else w.refreshes)
    case FetchReturns(started, result) =>
      w.(entry := Some(AfterFetch(result, w.now, s.ttl, s.backoff)), fetches := w.fetches - multiset{started})
    case RefreshReturns(started, result) =>
      w.(entry := AfterRefresh(w.entry, result, w.now, s.ttl), refreshes := w.refreshes - multiset{started})
    case Tick(time) => w.(now := time)
  }

  function Empty(now: Time): World {
    World(now, None, 0, multiset{}, multiset{})
  }

  ghost predicate Leads(w: World, steps: seq<Step>, end: World, s: Settings)
    decreases |steps|
  {
    if steps == [] then w == end else Enabled(w, steps[0], s) && Leads(Apply(w, steps[0], s), steps[1..], end, s)
  }

  /** While a refresh runs, the entry says so, or is an error, or was stored after the refresh began and will
      not be stale before the refresh is over. */
  ghost predicate Covered(w: World, s: Settings) {
    forall t <- w.refreshes ::
      t <= w.now < t + s.timeout && w.entry.Some?
      && (w.entry.value.refreshing || w.entry.value.failed || w.entry.value.softExpiry >= t + s.timeout)
  }

  /** While a caller waits for a fetch, no other caller can see a stale entry. */
  ghost predicate FetchesCold(w: World, s: Settings) {
    forall u <- w.fetches ::
      && u <= w.now < u + s.timeout
      && (w.entry.Some? ==> var e := w.entry.value;
            e.failed || e.offers == [] || e.expiresAt <= u || e.softExpiry >= u + SoftAge(s.ttl))
  }

  /** Between looking and asking nothing is fetched, and a running refresh is known. */
  ghost predicate LookersCalm(w: World) {
    w.lookers > 0 ==>
      && w.fetches == multiset{} && w.entry.Some?
      && !w.entry.value.failed && w.now < w.entry.value.expiresAt
      && (w.entry.value.offers != [] || w.now < w.entry.value.softExpiry)
      && (w.refreshes != multiset{} ==> w.entry.value.refreshing)
  }

  ghost predicate Inv(w: World, s: Settings) {
    |w.refreshes| <= 1 && Covered(w, s) && FetchesCold(w, s) && LookersCalm(w)
  }

  lemma OnlyOne(m: multiset<Time>, t: Time)
    requires |m| <= 1 && t in m
    ensures m == multiset{t} && m - multiset{t} == multiset{}
  {
    assert |m - multiset{t}| == 0;
  }

  lemma StepKeeps(w: World, step: Step, s: Settings)
    requires s.Valid() && s.prompt && s.timeout <= SoftAge(s.ttl)
    requires Inv(w, s) && Enabled(w, step, s)
    ensures Inv(Apply(w, step, s), s)
  {
    hide SoftAge, Inv;
    match step
    case Look =>
      if LookUp(w.entry, w.now).Stale? {
        StaleLookKeeps(w, s);
      } else {
        OtherLookKeeps(w, s);
      }
    case Trigger => TriggerKeeps(w, s);
    case RefreshReturns(started, result) => RefreshKeeps(w, started, result, s);
    case FetchReturns(started, result) => FetchKeeps(w, started, result, s);
    case Tick(time) => TickKeeps(w, time, s);
  }

  /** A stale entry is seen only while nobody fetches it and a running refresh is known. */
  lemma StaleLookKeeps(w: World, s: Settings)
    requires s.timeout <= SoftAge(s.ttl) && Inv(w, s) && LookUp(w.entry, w.now).Stale?
    ensures Inv(Apply(w, Look, s), s)
  {
    hide SoftAge;
    assert forall u :: u !in w.fetches;
    assert w.fetches == multiset{};
    if !w.entry.value.refreshing {
      assert forall t :: t !in w.refreshes;
      assert w.refreshes == multiset{};
    }
  }

  lemma OtherLookKeeps(w: World, s: Settings)
    requires s.Valid() && Inv(w, s) && !LookUp(w.entry, w.now).Stale?
    ensures Inv(Apply(w, Look, s), s)
  {
    hide SoftAge;
  }

  lemma TriggerKeeps(w: World, s: Settings)
    requires s.Valid() && Inv(w, s) && Enabled(w, Trigger, s)
    ensures Inv(Apply(w, Trigger, s), s)
  {
    hide SoftAge;
  }

  lemma RefreshKeeps(w: World, started: Time, result: Option<seq<Offer>>, s: Settings)
    requires s.Valid() && s.timeout <= SoftAge(s.ttl) && Inv(w, s) && Enabled(w, RefreshReturns(started, result), s)
    ensures Inv(Apply(w, RefreshReturns(started, result), s), s)
  {
    hide SoftAge;
    OnlyOne(w.refreshes, started);
  }

  lemma FetchKeeps(w: World, started: Time, result: Option<seq<Offer>>, s: Settings)
    requires s.timeout <= SoftAge(s.ttl) && Inv(w, s) && Enabled(w, FetchReturns(started, result), s)
    ensures Inv(Apply(w, FetchReturns(started, result), s), s)
  {
    hide SoftAge;
  }

  lemma TickKeeps(w: World, time: Time, s: Settings)
    requires s.prompt && Inv(w, s) && Enabled(w, Tick(time), s)
    ensures Inv(Apply(w, Tick(time), s), s)
  {
    hide SoftAge;
  }

  lemma {:induction false} RunKeeps(w: World, steps: seq<Step>, end: World, s: Settings)
    requires s.Valid() && s.prompt && s.timeout <= SoftAge(s.ttl)
    requires Inv(w, s) && Leads(w, steps, end, s)
    ensures Inv(end, s)
    decreases |steps|
  {
    hide Inv, Enabled, Apply, SoftAge;
    if steps != [] {
      StepKeeps(w, steps[0], s);
      RunKeeps(Apply(w, steps[0], s), steps[1..], end, s);
    }
  }

  ghost predicate Takes(w: World, step: Step, next: World, s: Settings) {
    Enabled(w, step, s) && Apply(w, step, s) == next
  }

  /** Some run from here has two refreshes under way. */
  ghost predicate CanOverlap(w: World, s: Settings) {
    exists steps, end :: Leads(w, steps, end, s) && |end.refreshes| == 2
  }

  lemma ThenCanOverlap(w: World, step: Step, next: World, s: Settings)
    requires Takes(w, step, next, s) && CanOverlap(next, s)
    ensures CanOverlap(w, s)
  {
    hide Enabled, Apply;
    var steps, end :| Leads(next, steps, end, s) && |end.refreshes| == 2;
    assert ([step] + steps)[1..] == steps;
    assert Leads(w, [step] + steps, end, s);
  }

  lemma Overlaps(w: World, s: Settings)
    requires |w.refreshes| == 2
    ensures CanOverlap(w, s)
  {
    assert Leads(w, [], w, s);
  }

  // The steps of the two runs below, one at a time.

  lemma LookMisses(now: Time, entry: Option<CacheEntry>, lookers: nat, fetches: multiset<Time>, s: Settings)
    requires entry.Some? ==> entry.value.softExpiry <= now && entry.value.expiresAt <= now
    ensures Takes(World(now, entry, lookers, fetches, multiset{}), Look, World(now, entry, lookers, fetches + multiset{now}, multiset{}), s)
  {
  }

  lemma LookIsStale(now: Time, e: CacheEntry, lookers: nat, fetches: multiset<Time>, refreshes: multiset<Time>, s: Settings)
    requires e.softExpiry <= now < e.expiresAt && !e.failed && e.offers != []
    ensures Takes(World(now, Some(e), lookers, fetches, refreshes), Look, World(now, Some(e), lookers + 1, fetches, refreshes), s)
  {
  }

  lemma TriggerStarts(now: Time, e: CacheEntry, lookers: nat, fetches: multiset<Time>, refreshes: multiset<Time>, s: Settings)
    requires !e.refreshing
    ensures Takes(World(now, Some(e), lookers + 1, fetches, refreshes), Trigger,
                  World(now, Some(e.(refreshing := true)), lookers, fetches, refreshes + multiset{now}), s)
  {
  }

  lemma FetchStores(now: Time, entry: Option<CacheEntry>, lookers: nat, rest: multiset<Time>, started: Time, refreshes: multiset<Time>,
                    offers: seq<Offer>, s: Settings)
    ensures Takes(World(now, entry, lookers, rest + multiset{started}, refreshes), FetchReturns(started, Some(offers)),
                  World(now, Some(Good(offers, now, s.ttl)), lookers, rest, refreshes), s)
  {
    assert rest + multiset{started} - multiset{started} == rest;
  }

  lemma TimePasses(now: Time, later: Time, entry: Option<CacheEntry>, lookers: nat, fetches: multiset<Time>, refreshes: multiset<Time>, s: Settings)
    requires now <= later && InTime(fetches, later, s.timeout) && InTime(refreshes, later, s.timeout)
    requires s.prompt && now < later ==> lookers == 0
    ensures Takes(World(now, entry, lookers, fetches, refreshes), Tick(later), World(later, entry, lookers, fetches, refreshes), s)
  {
  }

  /** Two refreshes of one key at once, by a slow provider: two callers fetch together, the second one's answer
      arrives just after the first answer has grown stale and is being refreshed, and hides that from the next
      caller. */
  lemma SlowProviderOverlaps(s: Settings, offers: seq<Offer>)
    requires s.Valid() && s.timeout > SoftAge(s.ttl) && offers != []
    ensures CanOverlap(Empty(0), s)
  {
    var soft, got := SoftAge(s.ttl), FetchReturns(0, Some(offers));
    assert 0 <= soft < s.ttl;
    hide SoftAge, Takes, CanOverlap, LookUp;
    var first, second := Good(offers, 0, s.ttl), Good(offers, soft, s.ttl);
    var none: multiset<Time> := multiset{};
    var one, refreshing := none + multiset{0}, none + multiset{soft};
    Overlaps(World(2 * soft, Some(second.(refreshing := true)), 0, none, refreshing + multiset{2 * soft}), s);
    TriggerStarts(2 * soft, second, 0, none, refreshing, s);
    ThenCanOverlap(World(2 * soft, Some(second), 1, none, refreshing), Trigger,
                   World(2 * soft, Some(second.(refreshing := true)), 0, none, refreshing + multiset{2 * soft}), s);
    LookIsStale(2 * soft, second, 0, none, refreshing, s);
    ThenCanOverlap(World(2 * soft, Some(second), 0, none, refreshing), Look, World(2 * soft, Some(second), 1, none, refreshing), s);
    TimePasses(soft, 2 * soft, Some(second), 0, none, refreshing, s);
    ThenCanOverlap(World(soft, Some(second), 0, none, refreshing), Tick(2 * soft), World(2 * soft, Some(second), 0, none, refreshing), s);
    FetchStores(soft, Some(first.(refreshing := true)), 0, none, 0, refreshing, offers, s);
    ThenCanOverlap(World(soft, Some(first.(refreshing := true)), 0, one, refreshing), got, World(soft, Some(second), 0, none, refreshing), s);
    TriggerStarts(soft, first, 0, one, none, s);
    ThenCanOverlap(World(soft, Some(first), 1, one, none), Trigger, World(soft, Some(first.(refreshing := true)), 0, one, refreshing), s);
    LookIsStale(soft, first, 0, one, none, s);
    ThenCanOverlap(World(soft, Some(first), 0, one, none), Look, World(soft, Some(first), 1, one, none), s);
    TimePasses(0, soft, Some(first), 0, one, none, s);
    ThenCanOverlap(World(0, Some(first), 0, one, none), Tick(soft), World(soft, Some(first), 0, one, none), s);
    FetchStores(0, None, 0, one, 0, none, offers, s);
    ThenCanOverlap(World(0, None, 0, one + multiset{0}, none), got, World(0, Some(first), 0, one, none), s);
    LookMisses(0, None, 0, one, s);
    ThenCanOverlap(World(0, None, 0, one, none), Look, World(0, None, 0, one + multiset{0}, none), s);
    LookMisses(0, None, 0, none, s);
    ThenCanOverlap(Empty(0), Look, World(0, None, 0, one, none), s);
  }

  /** And by a slow caller, however fast the provider: two callers see the entry just before it expires; when it
      has, a third one fetches, the first asks for a refresh, the fetched answer hides it, and the second asks too. */
  lemma SlowCallerOverlaps(s: Settings, offers: seq<Offer>)
    requires s.Valid() && !s.prompt && offers != []
    ensures CanOverlap(Empty(0), s)
  {
    var ttl, late := s.ttl, s.ttl - 1;
    assert SoftAge(ttl) <= late;
    hide SoftAge, Takes, CanOverlap, LookUp;
    var first, second := Good(offers, 0, ttl), Good(offers, ttl, ttl);
    var none: multiset<Time> := multiset{};
    var one := none + multiset{ttl};
    Overlaps(World(ttl, Some(second.(refreshing := true)), 0, none, one + multiset{ttl}), s);
    TriggerStarts(ttl, second, 0, none, one, s);
    ThenCanOverlap(World(ttl, Some(second), 1, none, one), Trigger,
                   World(ttl, Some(second.(refreshing := true)), 0, none, one + multiset{ttl}), s);
    FetchStores(ttl, Some(first.(refreshing := true)), 1, none, ttl, one, offers, s);
    ThenCanOverlap(World(ttl, Some(first.(refreshing := true)), 1, one, one), FetchReturns(ttl, Some(offers)),
                   World(ttl, Some(second), 1, none, one), s);
    TriggerStarts(ttl, first, 1, one, none, s);
    ThenCanOverlap(World(ttl, Some(first), 2, one, none), Trigger, World(ttl, Some(first.(refreshing := true)), 1, one, one), s);
    LookMisses(ttl, Some(first), 2, none, s);
    ThenCanOverlap(World(ttl, Some(first), 2, none, none), Look, World(ttl, Some(first), 2, one, none), s);
    TimePasses(late, ttl, Some(first), 2, none, none, s);
    ThenCanOverlap(World(late, Some(first), 2, none, none), Tick(ttl), World(ttl, Some(first), 2, none, none), s);
    LookIsStale(late, first, 1, none, none, s);
    ThenCanOverlap(World(late, Some(first), 1, none, none), Look, World(late, Some(first), 2, none, none), s);
    LookIsStale(late, first, 0, none, none, s);
    ThenCanOverlap(World(late, Some(first), 0, none, none), Look, World(late, Some(first), 1, none, none), s);
    TimePasses(0, late, Some(first), 0, none, none, s);
    ThenCanOverlap(World(0, Some(first), 0, none, none), Tick(late), World(late, Some(first), 0, none, none), s);
    FetchStores(0, None, 0, none, 0, none, offers, s);
    ThenCanOverlap(World(0, None, 0, none + multiset{0}, none), FetchReturns(0, Some(offers)), World(0, Some(first), 0, none, none), s);
    LookMisses(0, None, 0, none, s);
    ThenCanOverlap(Empty(0), Look, World(0, None, 0, none + multiset{0}, none), s);
  }

  /** A run from an empty cache to two refreshes, or more, at once. */
  ghost predicate LeadsToTwo(now: Time, steps: seq<Step>, end: World, s: Settings) {
    Leads(Empty(now), steps, end, s) && |end.refreshes| > 1
  }

  lemma OverlapIsARun(s: Settings)
    requires CanOverlap(Empty(0), s)
    ensures exists steps, end :: LeadsToTwo(0, steps, end, s)
  {
    hide Leads;
    var steps, end :| Leads(Empty(0), steps, end, s) && |end.refreshes| == 2;
    assert LeadsToTwo(0, steps, end, s);
  }

  /** At most one background refresh per key is ever under way exactly when no time passes between seeing a stale
      entry and asking for its refresh, and a provider call takes no longer than three quarters of the TTL. */
  lemma OneRefreshExactlyWhen(s: Settings, offers: seq<Offer>)
    requires s.Valid() && offers != []
    ensures (forall now, steps, end :: !LeadsToTwo(now, steps, end, s)) <==> s.prompt && s.timeout <= SoftAge(s.ttl)
  {
    hide Leads, SoftAge, CanOverlap;
    if s.prompt && s.timeout <= SoftAge(s.ttl) {
      forall now, steps, end
        ensures !LeadsToTwo(now, steps, end, s)
      {
        if Leads(Empty(now), steps, end, s) {
          RunKeeps(Empty(now), steps, end, s);
        }
      }
    } else {
      if !s.prompt {
        SlowCallerOverlaps(s, offers);
      } else {
        SlowProviderOverlaps(s, offers);
      }
      OverlapIsARun(s);
    }
  }

  /** A failed background refresh takes nothing away: the same offers are answered, as fresh or as stale, as
      if it had not run. A failed fetch that a caller waited for leaves an error instead. */
  lemma FailuresAndOffers(e: CacheEntry, now: Time, later: Time, ttl: Duration, backoff: Duration)
    ensures LookUp(AfterRefresh(Some(e), None, now, ttl), later) == LookUp(Some(e), later)
    ensures now <= later < now + backoff ==> LookUp(Some(AfterFetch(None, now, ttl, backoff)), later) == CachedError
  {
  }
}
