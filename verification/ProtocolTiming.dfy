/** What a reconciliation pass can and cannot do to sessions that change while it runs. */
module ProtocolTiming {
  import opened Wrappers
  import opened Clock
  import opened Sessions
  import opened SessionStorage
  import opened Providers
  import opened Reconciliation
  import opened Protocol

  // ---- Ghosts: the grace period suffices ----

  /** How long after its row an instance may appear, and how long after the listing a row may be judged. */
  datatype Limits = Limits(createWithin: Duration, judgeWithin: Duration)

  ghost predicate Timely(w: World, step: Step, limits: Limits, deploymentID: string)
    requires Enabled(w, step)
  {
    && (step.CallCreate? ==>
          && w.now <= w.makers[step.id].session.createdAt + limits.createWithin
          && Claims(deploymentID, step.instance.deploymentTag))
    && (step.MarkGhost? ==> w.now <= w.pass.listedAt + limits.judgeWithin)
  }

  ghost predicate LeadsTimely(w: World, steps: seq<Step>, end: World, limits: Limits, deploymentID: string)
    decreases |steps|
  {
    if steps == [] then w == end
    else && Enabled(w, steps[0]) && Timely(w, steps[0], limits, deploymentID)
         && LeadsTimely(Apply(w, steps[0], deploymentID), steps[1..], end, limits, deploymentID)
  }

  /** Instances appear on time and are claimed. */
  ghost predicate BornOnTime(w: World, limits: Limits, deploymentID: string) {
    && (forall k <- w.Live() :: Claims(deploymentID, w.Live()[k].deploymentTag))
    && (forall k <- w.born :: k in w.owner && w.owner[k] in w.origin && w.born[k] <= w.now
                              && w.born[k] <= w.origin[w.owner[k]].createdAt + limits.createWithin)
  }

  /** A pass has seen every live instance that is older than its listing. */
  ghost predicate SawTheOld(w: World) {
    !w.pass.Idle? ==>
      && w.pass.listedAt <= w.now
      && (forall k <- w.Live() :: k in w.born && k.provider == w.pass.provider && w.born[k] < w.pass.listedAt ==> k.id in w.pass.seen)
  }

  ghost predicate OnTime(w: World, limits: Limits, deploymentID: string) {
    Inv(w) && BornOnTime(w, limits, deploymentID) && SawTheOld(w)
  }

  lemma StruckIsNoNew(live: Instances, key: InstanceKey, effect: Effect)
    ensures forall k <- Struck(live, key, effect) :: k in live && Struck(live, key, effect)[k].deploymentTag == live[k].deploymentTag
  {
  }

  lemma CreateStaysOnTime(w: World, step: Step, limits: Limits, deploymentID: string)
    requires OnTime(w, limits, deploymentID) && Enabled(w, step) && Timely(w, step, limits, deploymentID) && step.CallCreate?
    ensures BornOnTime(Apply(w, step, deploymentID), limits, deploymentID) && SawTheOld(Apply(w, step, deploymentID))
  {
    hide Claims, RowsTracked, PassTracked, InstancesTracked;
    MakerOf(w, step.id);
    assert InstancesTracked(w.Live(), w.origin, w.born, w.owner);
    LiveIsBorn(w);
  }

  lemma LiveIsBorn(w: World)
    requires InstancesTracked(w.Live(), w.origin, w.born, w.owner)
    ensures w.owner.Keys == w.born.Keys
    ensures forall k <- w.Live() :: k in w.born
  {
  }

  /** What being on time depends on: the instances, when each was made and for whom, the pass and the clock. */
  ghost predicate SameTiming(w: World, next: World) {
    && next.born == w.born && next.owner == w.owner && next.origin == w.origin && w.now <= next.now
    && (forall k <- next.Live() :: k in w.Live() && next.Live()[k].deploymentTag == w.Live()[k].deploymentTag)
    && (next.pass.Idle? || (!w.pass.Idle? && next.pass.provider == w.pass.provider && next.pass.seen == w.pass.seen
                            && next.pass.listedAt == w.pass.listedAt))
  }

  lemma SameTimingStaysOnTime(w: World, next: World, limits: Limits, deploymentID: string)
    requires BornOnTime(w, limits, deploymentID) && SawTheOld(w) && SameTiming(w, next)
    ensures BornOnTime(next, limits, deploymentID) && SawTheOld(next)
  {
    hide Claims;
    forall k | k in next.Live()
      ensures Claims(deploymentID, next.Live()[k].deploymentTag)
    {
      assert k in w.Live() && next.Live()[k].deploymentTag == w.Live()[k].deploymentTag;
    }
  }

  lemma OtherStaysOnTime(w: World, step: Step, limits: Limits, deploymentID: string)
    requires OnTime(w, limits, deploymentID) && Enabled(w, step)
    requires !step.CallCreate? && !step.CreateRow? && !step.ListInstances?
    ensures BornOnTime(Apply(w, step, deploymentID), limits, deploymentID) && SawTheOld(Apply(w, step, deploymentID))
  {
    hide BornOnTime, SawTheOld, Inv, SameTiming, Apply, Enabled;
    if step.DestroyCall? || step.ProviderChanges? || step.DestroyOrphan? {
      StrikesKeepTiming(w, step, deploymentID);
    } else {
      RestKeepsTiming(w, step, deploymentID);
    }
    SameTimingStaysOnTime(w, Apply(w, step, deploymentID), limits, deploymentID);
  }

  lemma StrikesKeepTiming(w: World, step: Step, deploymentID: string)
    requires Enabled(w, step) && (step.DestroyCall? || step.ProviderChanges? || step.DestroyOrphan?)
    ensures SameTiming(w, Apply(w, step, deploymentID))
  {
    hide Struck;
    match step
    case DestroyCall(copy, effect) => StruckIsNoNew(w.Live(), copy.Key(), effect);
    case ProviderChanges(key, effect) => StruckIsNoNew(w.Live(), key, effect);
    case DestroyOrphan(id, effect) => StruckIsNoNew(w.Live(), InstanceKey(w.pass.provider, id), effect);
  }

  lemma RestKeepsTiming(w: World, step: Step, deploymentID: string)
    requires Enabled(w, step) && !step.CallCreate? && !step.CreateRow? && !step.ListInstances?
    requires !step.DestroyCall? && !step.ProviderChanges? && !step.DestroyOrphan?
    ensures SameTiming(w, Apply(w, step, deploymentID))
  {
    hide SameTiming;
    if step.ReadActiveRows? || step.EndPass? || step.Tick? || step.Crash? {
      QuietStepsKeepTiming(w, step, deploymentID);
    } else {
      WritesKeepTiming(w, step, deploymentID);
    }
  }

  lemma QuietStepsKeepTiming(w: World, step: Step, deploymentID: string)
    requires Enabled(w, step) && (step.ReadActiveRows? || step.EndPass? || step.Tick? || step.Crash?)
    ensures SameTiming(w, Apply(w, step, deploymentID))
  {
    hide ReferencedIDs;
  }

  lemma WritesKeepTiming(w: World, step: Step, deploymentID: string)
    requires Enabled(w, step)
    requires step.MarkProvisioning? || step.CallCreateFails? || step.RecordInstance? || step.FailMaker? || step.Read? || step.Write? || step.MarkGhost?
    ensures SameTiming(w, Apply(w, step, deploymentID))
  {
    hide StoreRow, CanUpdate;
  }

  lemma ListingStaysOnTime(w: World, provider: string, limits: Limits, deploymentID: string)
    requires OnTime(w, limits, deploymentID) && Enabled(w, ListInstances(provider))
    ensures BornOnTime(Apply(w, ListInstances(provider), deploymentID), limits, deploymentID)
    ensures SawTheOld(Apply(w, ListInstances(provider), deploymentID))
  {
    hide Claims, Inv;
    forall k | k in w.Live() && k.provider == provider
      ensures k.id in OwnIDs(w.Live(), provider, deploymentID)
    {
    }
  }

  lemma RowStaysOnTime(w: World, s: Session, limits: Limits, deploymentID: string)
    requires OnTime(w, limits, deploymentID) && Enabled(w, CreateRow(s))
    ensures BornOnTime(Apply(w, CreateRow(s), deploymentID), limits, deploymentID)
    ensures SawTheOld(Apply(w, CreateRow(s), deploymentID))
  {
    hide Claims, Clashes, Tracked, MakersTracked, PassTracked, InstancesTracked;
  }

  lemma StepStaysOnTime(w: World, step: Step, limits: Limits, deploymentID: string)
    requires OnTime(w, limits, deploymentID) && Enabled(w, step) && Timely(w, step, limits, deploymentID)
    ensures OnTime(Apply(w, step, deploymentID), limits, deploymentID)
  {
    hide Inv, BornOnTime, SawTheOld, Enabled, Apply;
    StepKeeps(w, step, deploymentID);
    if step.CallCreate? {
      CreateStaysOnTime(w, step, limits, deploymentID);
    } else if step.ListInstances? {
      ListingStaysOnTime(w, step.provider, limits, deploymentID);
    } else if step.CreateRow? {
      RowStaysOnTime(w, step.session, limits, deploymentID);
    } else {
      OtherStaysOnTime(w, step, limits, deploymentID);
    }
  }

  lemma {:induction false} RunStaysOnTime(w: World, steps: seq<Step>, end: World, limits: Limits, deploymentID: string)
    requires OnTime(w, limits, deploymentID) && LeadsTimely(w, steps, end, limits, deploymentID)
    ensures OnTime(end, limits, deploymentID)
    decreases |steps|
  {
    hide OnTime, Enabled, Apply, Timely;
    if steps != [] {
      StepStaysOnTime(w, steps[0], limits, deploymentID);
      RunStaysOnTime(Apply(w, steps[0], deploymentID), steps[1..], end, limits, deploymentID);
    }
  }

  /** If instances appear soon after their rows, listings are complete and claimed, and rows are judged soon
      after the listing, with less than the grace period in all, then over every run no session whose
      instance exists is ever stopped as a ghost. */
  lemma LiveSessionNeverGhosted(now: Time, steps: seq<Step>, end: World, pid: string, limits: Limits, deploymentID: string)
    requires limits.createWithin + limits.judgeWithin < GHOST_GRACE_PERIOD
    requires LeadsTimely(Start(now), steps, end, limits, deploymentID)
    requires Enabled(end, MarkGhost(pid)) && Timely(end, MarkGhost(pid), limits, deploymentID)
    ensures InstanceKey(end.pass.provider, pid) !in end.Live()
  {
    StartsOnTime(now, limits, deploymentID);
    RunStaysOnTime(Start(now), steps, end, limits, deploymentID);
    JudgedRowHasNoInstance(end, pid, limits, deploymentID);
  }

  lemma StartsOnTime(now: Time, limits: Limits, deploymentID: string)
    ensures OnTime(Start(now), limits, deploymentID)
  {
  }

  lemma JudgedRowHasNoInstance(w: World, pid: string, limits: Limits, deploymentID: string)
    requires limits.createWithin + limits.judgeWithin < GHOST_GRACE_PERIOD
    requires OnTime(w, limits, deploymentID)
    requires Enabled(w, MarkGhost(pid)) && Timely(w, MarkGhost(pid), limits, deploymentID)
    ensures InstanceKey(w.pass.provider, pid) !in w.Live()
  {
    hide RowsTracked, MakersTracked, InstancesTracked, PassTracked, Tracked, Claims;
    var s := w.pass.local[pid];
    LocalOf(w, pid);
    OwnerOf(w.origin, w.owner, s);
    CreatedWhen(w.origin, w.owner, s);
    if s.Key() in w.Live() {
      LiveIsBorn(w);
    }
  }

  lemma CreatedWhen(origin: Rows, owner: map<InstanceKey, string>, s: Session)
    requires Tracked(origin, owner, s)
    ensures s.id in origin && s.createdAt == origin[s.id].createdAt
  {
  }

  // ---- Runs that show the limits ----

  /** A run given by its worlds. */
  ghost predicate Path(worlds: seq<World>, steps: seq<Step>, limits: Limits) {
    && |worlds| == |steps| + 1
    && (forall i :: 0 <= i < |steps| ==> TimelyTo(worlds[i], steps[i], worlds[i + 1], limits))
  }

  ghost predicate TimelyTo(w: World, step: Step, next: World, limits: Limits) {
    Enabled(w, step) && Timely(w, step, limits, "") && next == Apply(w, step, "")
  }

  lemma {:induction false} PathLeads(worlds: seq<World>, steps: seq<Step>, limits: Limits)
    requires Path(worlds, steps, limits)
    ensures LeadsTimely(worlds[0], steps, worlds[|steps|], limits, "")
    decreases |steps|
  {
    hide Enabled, Apply, Timely;
    if steps != [] {
      forall i | 0 <= i < |steps| - 1
        ensures TimelyTo(worlds[1..][i], steps[1..][i], worlds[1..][i + 1], limits)
      {
        assert TimelyTo(worlds[i + 1], steps[i + 1], worlds[i + 2], limits);
      }
      assert TimelyTo(worlds[0], steps[0], worlds[1], limits);
      PathLeads(worlds[1..], steps[1..], limits);
    }
  }

  lemma {:induction false} TimelyLeads(w: World, steps: seq<Step>, end: World, limits: Limits, deploymentID: string)
    requires LeadsTimely(w, steps, end, limits, deploymentID)
    ensures Leads(w, steps, end, deploymentID)
    decreases |steps|
  {
    hide Enabled, Apply, Timely;
    if steps != [] {
      TimelyLeads(Apply(w, steps[0], deploymentID), steps[1..], end, limits, deploymentID);
    }
  }

  function FreshSession(id: string, provider: string, now: Time): Session {
    Session(id, "consumer", provider, "offer", now, "", Pending, "", "", 0, "", false, 1, now + HOUR, None)
  }

  function FreshInstance(id: string): Instance {
    Instance(true, "", 0, "", id, "")
  }

  /** The world of one session: its row, its maker, its instance, the pass, the clock. */
  function Single(first: Session, row: Session, makers: map<string, Maker>, copies: set<Session>, live: Instances, pass: Pass, now: Time,
                  born: map<InstanceKey, Time>, owner: map<InstanceKey, string>): World
  {
    World(Tables(map[first.id := row], live), makers, copies, pass, now, map[first.id := first], born, owner)
  }

  lemma RowStep(s: Session, now: Time, limits: Limits)
    requires s.status == Pending && s.providerID == "" && s.createdAt == now
    ensures TimelyTo(Start(now), CreateRow(s),
                     Single(s, s, map[s.id := Maker(s, RowCreated)], {}, map[], Idle, now, map[], map[]), limits)
  {
  }

  lemma MarkStep(s: Session, now: Time, limits: Limits)
    ensures TimelyTo(Single(s, s, map[s.id := Maker(s, RowCreated)], {}, map[], Idle, now, map[], map[]),
                     MarkProvisioning(s.id, true),
                     Marked(s, Idle, now), limits)
  {
    assert Overwrite(s, s.(status := Provisioning)) == s.(status := Provisioning);
  }

  /** A session about to call the provider. */
  function Marked(s: Session, pass: Pass, now: Time): World {
    Single(s, s.(status := Provisioning), map[s.id := Maker(s.(status := Provisioning), MarkedProvisioning)], {}, map[], pass, now, map[], map[])
  }

  /** The provider has answered; the row does not know yet. */
  function Created(s: Session, key: InstanceKey, pass: Pass, live: Instances, now: Time): World {
    Single(s, s.(status := Provisioning), map[s.id := Maker(s.(status := Provisioning), InstanceCreated(key))], {}, live, pass, now,
           map[key := now], map[key := s.id])
  }

  function Named(s: Session, key: InstanceKey): Session {
    s.(status := Provisioning, providerID := key.id)
  }

  /** The row names the instance. */
  function Recorded(s: Session, key: InstanceKey, pass: Pass, live: Instances, born: Time, now: Time): World {
    Single(s, Named(s, key), map[], {Named(s, key)}, live, pass, now, map[key := born], map[key := s.id])
  }

  lemma CreateStep(s: Session, key: InstanceKey, pass: Pass, now: Time, limits: Limits)
    requires key.id != "" && key.provider == s.provider && now <= s.createdAt + limits.createWithin
    ensures TimelyTo(Marked(s, pass, now), CallCreate(s.id, key, FreshInstance(s.id), true),
                     Created(s, key, pass, map[key := FreshInstance(s.id)], now), limits)
  {
  }

  lemma RecordStep(s: Session, key: InstanceKey, pass: Pass, live: Instances, now: Time, limits: Limits)
    requires key.provider == s.provider
    ensures TimelyTo(Created(s, key, pass, live, now), RecordInstance(s.id, Named(s, key), true),
                     Recorded(s, key, pass, live, now, now), limits)
  {
    assert Overwrite(s.(status := Provisioning), Named(s, key)) == Named(s, key);
  }

  lemma ListStep(w: World, provider: string, limits: Limits)
    requires w.pass == Idle
    ensures TimelyTo(w, ListInstances(provider), w.(pass := Listed(provider, OwnIDs(w.Live(), provider, ""), w.now)), limits)
  {
  }

  lemma TickStep(w: World, time: Time, limits: Limits)
    requires w.now <= time
    ensures TimelyTo(w, Tick(time), w.(now := time), limits)
  {
  }

  lemma ReadStep(w: World, limits: Limits)
    requires w.pass.Listed?
    ensures TimelyTo(w, ReadActiveRows,
                     w.(pass := Compared(w.pass.provider, w.pass.seen, w.pass.listedAt, LocalMap(w.Rows(), w.pass.provider), {})), limits)
  {
    hide ReferencedIDs;
  }

  lemma OrphanStep(w: World, id: string, limits: Limits)
    requires w.pass.Compared? && id in w.pass.seen && id !in w.pass.local
    ensures TimelyTo(w, DestroyOrphan(id, Removed),
                     WithLive(w, Struck(w.Live(), InstanceKey(w.pass.provider, id), Removed)).(pass := w.pass.(gone := w.pass.gone + {id})), limits)
  {
  }

  lemma NothingNamed(s: Session, key: InstanceKey)
    requires s.providerID == ""
    ensures ReferencedIDs(map[s.id := s.(status := Provisioning)], key.provider) == {}
    ensures LocalMap(map[s.id := s.(status := Provisioning)], key.provider) == map[]
    ensures OwnIDs(map[key := FreshInstance(s.id)], key.provider, "") == {key.id}
  {
    assert ReferencedIDs(map[s.id := s.(status := Provisioning)], key.provider) == {};
  }

  /** An instance whose ID is not in the table yet is an orphan to a pass that runs meanwhile: a run ends
      with an active row whose instance the pass has destroyed. */
  lemma InFlightInstanceCanBeLost(id: string, key: InstanceKey, now: Time)
    requires key.id != ""
    ensures exists steps: seq<Step>, end: World ::
              && Leads(Start(now), steps, end, "")
              && id in end.Rows() && end.Rows()[id].IsActive() && end.Rows()[id].Key() == key && key !in end.Live()
  {
    hide Enabled, Apply, Timely, Path, LeadsTimely, Leads, LostWorlds, LostSteps;
    var s, limits := FreshSession(id, key.provider, now), Limits(0, 0);
    var worlds, steps := LostWorlds(s, key), LostSteps(s, key);
    LostPath(id, key, now, limits);
    PathLeads(worlds, steps, limits);
    LostEnds(s, key);
    TimelyLeads(worlds[0], steps, worlds[7], limits, "");
  }

  function LostPass(key: InstanceKey, now: Time, gone: set<string>): Pass {
    Compared(key.provider, {key.id}, now, map[], gone)
  }

  function LostWorlds(s: Session, key: InstanceKey): seq<World> {
    var now, live, listed := s.createdAt, map[key := FreshInstance(s.id)], Listed(key.provider, {key.id}, s.createdAt);
    [Start(now), Single(s, s, map[s.id := Maker(s, RowCreated)], {}, map[], Idle, now, map[], map[]), Marked(s, Idle, now),
     Created(s, key, Idle, live, now), Created(s, key, listed, live, now), Created(s, key, LostPass(key, now, {}), live, now),
     Created(s, key, LostPass(key, now, {key.id}), map[], now), Recorded(s, key, LostPass(key, now, {key.id}), map[], now, now)]
  }

  function LostSteps(s: Session, key: InstanceKey): seq<Step> {
    [CreateRow(s), MarkProvisioning(s.id, true), CallCreate(s.id, key, FreshInstance(s.id), true),
     ListInstances(key.provider), ReadActiveRows, DestroyOrphan(key.id, Removed), RecordInstance(s.id, Named(s, key), true)]
  }

  lemma LostEnds(s: Session, key: InstanceKey)
    requires key.provider == s.provider
    ensures var worlds, steps := LostWorlds(s, key), LostSteps(s, key);
            && |worlds| == 8 && |steps| == 7 && worlds[0] == Start(s.createdAt)
            && s.id in worlds[7].Rows() && worlds[7].Rows()[s.id].IsActive() && worlds[7].Rows()[s.id].Key() == key
            && key !in worlds[7].Live()
  {
  }

  lemma LostPath(id: string, key: InstanceKey, now: Time, limits: Limits)
    requires key.id != "" && limits.createWithin >= 0
    ensures var s := FreshSession(id, key.provider, now); Path(LostWorlds(s, key), LostSteps(s, key), limits)
  {
    hide Enabled, Apply, Timely, TimelyTo, OwnIDs, ReferencedIDs;
    var s, live := FreshSession(id, key.provider, now), map[key := FreshInstance(id)];
    var listed := Listed(key.provider, {key.id}, now);
    NothingNamed(s, key);
    RowStep(s, now, limits);
    MarkStep(s, now, limits);
    CreateStep(s, key, Idle, now, limits);
    ListStep(Created(s, key, Idle, live, now), key.provider, limits);
    ReadStep(Created(s, key, listed, live, now), limits);
    OrphanStep(Created(s, key, LostPass(key, now, {}), live, now), key.id, limits);
    assert Struck(live, key, Removed) == map[] && {} + {key.id} == {key.id};
    RecordStep(s, key, LostPass(key, now, {key.id}), map[], now, limits);
  }

  lemma OneNamed(s: Session, key: InstanceKey)
    requires key.provider == s.provider && key.id != ""
    ensures LocalMap(map[s.id := Named(s, key)], key.provider) == map[key.id := Named(s, key)]
  {
    var rows := map[s.id := Named(s, key)];
    assert References(rows[s.id], key.provider);
    assert ReferencedIDs(rows, key.provider) == {key.id};
  }

  lemma NothingOwn(provider: string)
    ensures OwnIDs(map[], provider, "") == {}
  {
  }

  /** When the two limits add up to the grace period or more, a session can lose its row as a ghost while
      its instance runs: the listing comes just before the instance, the judgement a grace period after the row. */
  lemma LongerLimitsFail(id: string, key: InstanceKey, now: Time, limits: Limits)
    requires key.id != "" && limits.createWithin >= 0 && limits.judgeWithin >= 0
    requires limits.createWithin + limits.judgeWithin >= GHOST_GRACE_PERIOD
    ensures exists steps: seq<Step>, end: World :: GhostsLive(Start(now), steps, end, key.id, limits)
  {
    hide Enabled, Apply, Timely, Path, LeadsTimely, GhostsLive, Recorded, LongWorlds, LongSteps;
    var s, at := FreshSession(id, key.provider, now), now + limits.createWithin;
    var judged, live := at + limits.judgeWithin, map[key := FreshInstance(id)];
    var worlds, steps := LongWorlds(s, key, at, judged), LongSteps(s, key, at, judged);
    LongPath(id, key, now, at, judged, limits);
    PathLeads(worlds, steps, limits);
    LongEnds(s, key, at, judged);
    GhostEnabled(s, key, live, at, judged, limits);
    GhostsLiveIs(worlds[0], steps, worlds[8], key.id, limits);
  }

  function LongWorlds(s: Session, key: InstanceKey, at: Time, judged: Time): seq<World> {
    var listed, compared := Listed(key.provider, {}, at), Compared(key.provider, {}, at, map[key.id := Named(s, key)], {});
    var live := map[key := FreshInstance(s.id)];
    [Start(s.createdAt), Single(s, s, map[s.id := Maker(s, RowCreated)], {}, map[], Idle, s.createdAt, map[], map[]), Marked(s, Idle, s.createdAt),
     Marked(s, Idle, at), Marked(s, listed, at), Created(s, key, listed, live, at), Recorded(s, key, listed, live, at, at),
     Recorded(s, key, compared, live, at, at), Recorded(s, key, compared, live, at, judged)]
  }

  function LongSteps(s: Session, key: InstanceKey, at: Time, judged: Time): seq<Step> {
    [CreateRow(s), MarkProvisioning(s.id, true), Tick(at), ListInstances(key.provider),
     CallCreate(s.id, key, FreshInstance(s.id), true), RecordInstance(s.id, Named(s, key), true), ReadActiveRows, Tick(judged)]
  }

  lemma LongEnds(s: Session, key: InstanceKey, at: Time, judged: Time)
    ensures var worlds, steps := LongWorlds(s, key, at, judged), LongSteps(s, key, at, judged);
            && |worlds| == 9 && |steps| == 8 && worlds[0] == Start(s.createdAt)
            && worlds[8] == Recorded(s, key, Compared(key.provider, {}, at, map[key.id := Named(s, key)], {}), map[key := FreshInstance(s.id)], at, judged)
            && worlds[8].pass.Compared? && worlds[8].pass.provider == key.provider && worlds[8].Live() == map[key := FreshInstance(s.id)]
  {
  }

  lemma LongPath(id: string, key: InstanceKey, now: Time, at: Time, judged: Time, limits: Limits)
    requires key.id != "" && now <= at <= now + limits.createWithin && at <= judged
    ensures var s := FreshSession(id, key.provider, now);
            Path(LongWorlds(s, key, at, judged), LongSteps(s, key, at, judged), limits)
  {
    hide Enabled, Apply, Timely, TimelyTo, OwnIDs, ReferencedIDs;
    var s, live := FreshSession(id, key.provider, now), map[key := FreshInstance(id)];
    var listed, compared := Listed(key.provider, {}, at), Compared(key.provider, {}, at, map[key.id := Named(s, key)], {});
    NothingOwn(key.provider);
    OneNamed(s, key);
    RowStep(s, now, limits);
    MarkStep(s, now, limits);
    TickStep(Marked(s, Idle, now), at, limits);
    ListStep(Marked(s, Idle, at), key.provider, limits);
    CreateStep(s, key, listed, at, limits);
    RecordStep(s, key, listed, live, at, limits);
    ReadStep(Recorded(s, key, listed, live, at, at), limits);
    TickStep(Recorded(s, key, compared, live, at, at), judged, limits);
  }

  lemma GhostEnabled(s: Session, key: InstanceKey, live: Instances, at: Time, judged: Time, limits: Limits)
    requires judged - s.createdAt >= GHOST_GRACE_PERIOD && judged <= at + limits.judgeWithin
    ensures var w := Recorded(s, key, Compared(key.provider, {}, at, map[key.id := Named(s, key)], {}), live, at, judged);
            Enabled(w, MarkGhost(key.id)) && Timely(w, MarkGhost(key.id), limits, "")
  {
  }

  /** A timely run to a world where a row may be stopped as a ghost while its instance is live. */
  ghost predicate GhostsLive(w: World, steps: seq<Step>, end: World, pid: string, limits: Limits) {
    && LeadsTimely(w, steps, end, limits, "")
    && Enabled(end, MarkGhost(pid)) && Timely(end, MarkGhost(pid), limits, "")
    && InstanceKey(end.pass.provider, pid) in end.Live()
  }

  lemma GhostsLiveIs(w: World, steps: seq<Step>, end: World, pid: string, limits: Limits)
    requires LeadsTimely(w, steps, end, limits, "")
    requires Enabled(end, MarkGhost(pid)) && Timely(end, MarkGhost(pid), limits, "")
    requires InstanceKey(end.pass.provider, pid) in end.Live()
    ensures GhostsLive(w, steps, end, pid, limits)
  {
  }

  /** The exact condition: live sessions are safe from the ghost check, over all runs, if and only if the
      time to create plus the time to judge stays under the grace period. */
  lemma GracePeriodIsExact(now: Time, limits: Limits)
    requires limits.createWithin >= 0 && limits.judgeWithin >= 0
    ensures (forall steps, end, pid :: !GhostsLive(Start(now), steps, end, pid, limits))
            <==> limits.createWithin + limits.judgeWithin < GHOST_GRACE_PERIOD
  {
    if limits.createWithin + limits.judgeWithin < GHOST_GRACE_PERIOD {
      forall steps, end, pid
        ensures !GhostsLive(Start(now), steps, end, pid, limits)
      {
        if GhostsLive(Start(now), steps, end, pid, limits) {
          LiveSessionNeverGhosted(now, steps, end, pid, limits, "");
        }
      }
    } else {
      hide GhostsLive;
      LongerLimitsFail("s", InstanceKey("vastai", "i"), now, limits);
    }
  }
}
