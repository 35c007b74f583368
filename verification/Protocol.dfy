/** The session/instance protocol as a whole: provisioning calls, every other actor, the reconciler with its
    listing and its table read as separate steps, provider-side changes and crashes, interleaved in any way. */
module Protocol {
  import opened Clock
  import opened Sessions
  import opened SessionStorage
  import opened Providers
  import opened Reconciliation

  /** How far a create call has come. Its own copy of the session lives in memory only. */
  datatype Stage = RowCreated | MarkedProvisioning | InstanceCreated(key: InstanceKey) | CreateFailed

  datatype Maker = Maker(session: Session, stage: Stage)

  /** A reconciliation pass: nothing, listed but table not read, or both. `gone` is what it destroyed. */
  datatype Pass =
    | Idle
    | Listed(provider: string, seen: set<string>, listedAt: Time)
    | Compared(provider: string, seen: set<string>, listedAt: Time, local: map<string, Session>, gone: set<string>)

  datatype World = World(
    tables: Tables,
    makers: map<string, Maker>,
    /** Copies of rows in the memory of any actor. */
    copies: set<Session>,
    pass: Pass,
    now: Time,
    // History: every session as it was created; every instance ever created, when, and for which session.
    origin: Rows,
    born: map<InstanceKey, Time>,
    owner: map<InstanceKey, string>)
  {
    function Rows(): Rows { tables.rows }

    function Live(): Instances { tables.instances }
  }

  datatype Effect = Removed | StoppedOnly | Nothing

  datatype Step =
    | CreateRow(session: Session)
    | MarkProvisioning(id: string, stored: bool)
    | CallCreate(id: string, key: InstanceKey, instance: Instance, reported: bool)
    | CallCreateFails(id: string)
    | RecordInstance(id: string, updated: Session, stored: bool)
    | FailMaker(id: string, failed: Session)
    | Read(id: string)
    | Write(copy: Session, updated: Session)
    | DestroyCall(copy: Session, effect: Effect)
    | ProviderChanges(key: InstanceKey, effect: Effect)
    | ListInstances(provider: string)
    | ReadActiveRows
    | DestroyOrphan(id: string, effect: Effect)
    | MarkGhost(id: string)
    | EndPass
    | Tick(time: Time)
    | Crash

  /** What any actor but the create call may write back: its copy with any change of the mutable columns,
      except that the instance ID is kept or cleared. */
  predicate MayWrite(copy: Session, updated: Session) {
    updated.SameRow(copy) && (updated.providerID == copy.providerID || updated.providerID == "")
  }

  function StoreRow(rows: Rows, copy: Session): Rows {
    if copy.id in rows then rows[copy.id := Overwrite(rows[copy.id], copy)] else rows
  }

  function Struck(instances: Instances, key: InstanceKey, effect: Effect): Instances {
    if key !in instances || effect.Nothing? then instances
    else if effect.Removed? then instances - {key}
    else instances[key := instances[key].(running := false)]
  }

  /** The rows a pass over a provider reads: for each instance ID an active row that names it. */
  ghost function RowNaming(rows: Rows, provider: string, pid: string): (s: Session)
    requires pid in ReferencedIDs(rows, provider)
    ensures (exists id <- rows :: rows[id] == s) && References(s, provider) && s.providerID == pid
  {
    var id :| id in rows && References(rows[id], provider) && rows[id].providerID == pid;
    rows[id]
  }

  ghost function LocalMap(rows: Rows, provider: string): (local: map<string, Session>)
    ensures local.Keys == ReferencedIDs(rows, provider)
    ensures forall pid <- local :: (exists id <- rows :: rows[id] == local[pid]) && References(local[pid], provider) && local[pid].providerID == pid
  {
    map pid | pid in ReferencedIDs(rows, provider) :: RowNaming(rows, provider, pid)
  }

  /** Which steps a world allows. */
  ghost predicate Enabled(w: World, step: Step) {
    match step
    case CreateRow(s) =>
      s.id !in w.Rows() && s.status == Pending && s.providerID == "" && s.createdAt == w.now && !Clashes(w.Rows(), s)
    case MarkProvisioning(id, _) => id in w.makers && w.makers[id].stage.RowCreated?
    case CallCreate(id, key, instance, _) =>
      && id in w.makers && w.makers[id].stage.MarkedProvisioning?
      && key.provider == w.makers[id].session.provider && key.id != "" && key !in w.born
      && instance.sessionTag == id
    case CallCreateFails(id) => id in w.makers && w.makers[id].stage.MarkedProvisioning?
    case RecordInstance(id, updated, _) =>
      && id in w.makers && w.makers[id].stage.InstanceCreated?
      && updated.SameRow(w.makers[id].session) && updated.providerID == w.makers[id].stage.key.id
    case FailMaker(id, failed) =>
      && id in w.makers && w.makers[id].stage.CreateFailed?
      && MayWrite(w.makers[id].session, failed) && failed.status == Failed
    case Read(id) => id in w.Rows()
    case Write(copy, updated) => copy in w.copies && MayWrite(copy, updated)
    case DestroyCall(copy, _) => copy in w.copies && copy.providerID != ""
    case ProviderChanges(key, _) => key in w.Live()
    case ListInstances(_) => w.pass.Idle?
    case ReadActiveRows => w.pass.Listed?
    case DestroyOrphan(id, _) => w.pass.Compared? && id in w.pass.seen && id !in w.pass.local
    case MarkGhost(id) =>
      w.pass.Compared? && id in w.pass.local && id !in w.pass.seen && GhostEligible(w.pass.local[id], w.now)
    case EndPass => !w.pass.Idle?
    case Tick(time) => w.now <= time
    case Crash => true
  }

  function WithRows(w: World, rows: Rows): World {
    w.(tables := w.tables.(rows := rows))
  }

  function WithLive(w: World, instances: Instances): World {
    w.(tables := w.tables.(instances := instances))
  }

  /** One step. An update that the table refuses changes nothing. When the instance cannot be recorded the
      create call is over: its attempt to destroy the instance is a change at the provider. */
  ghost function Apply(w: World, step: Step, deploymentID: string): World
    requires Enabled(w, step)
  {
    match step
    case CreateRow(s) => WithRows(w, w.Rows()[s.id := s]).(makers := w.makers[s.id := Maker(s, RowCreated)], origin := w.origin[s.id := s])
    case MarkProvisioning(id, stored) =>
      var marked := w.makers[id].session.(status := Provisioning);
      (if stored then WithRows(w, StoreRow(w.Rows(), marked)) else w)
        .(makers := w.makers[id := Maker(marked, MarkedProvisioning)])
    case CallCreate(id, key, instance, reported) =>
      WithLive(w, w.Live()[key := instance])
        .(makers := w.makers[id := w.makers[id].(stage := if reported then InstanceCreated(key) else CreateFailed)],
          born := w.born[key := w.now], owner := w.owner[key := id])
    case CallCreateFails(id) => w.(makers := w.makers[id := w.makers[id].(stage := CreateFailed)])
    case RecordInstance(id, updated, stored) =>
      (if stored then WithRows(w, StoreRow(w.Rows(), updated)) else w)
        .(makers := w.makers - {id}, copies := if stored then w.copies + {updated} else w.copies)
    case FailMaker(id, failed) =>
      WithRows(w, StoreRow(w.Rows(), failed)).(makers := w.makers - {id}, copies := w.copies + {failed})
    case Read(id) => w.(copies := w.copies + {w.Rows()[id]})
    case Write(copy, updated) =>
      (if CanUpdate(w.Rows(), updated) then WithRows(w, StoreRow(w.Rows(), updated)) else w)
        .(copies := w.copies + {updated})
    case DestroyCall(copy, effect) => WithLive(w, Struck(w.Live(), copy.Key(), effect))
    case ProviderChanges(key, effect) => WithLive(w, Struck(w.Live(), key, effect))
    case ListInstances(provider) => w.(pass := Listed(provider, OwnIDs(w.Live(), provider, deploymentID), w.now))
    case ReadActiveRows =>
      w.(pass := Compared(w.pass.provider, w.pass.seen, w.pass.listedAt, LocalMap(w.Rows(), w.pass.provider), {}))
    case DestroyOrphan(id, effect) =>
      WithLive(w, Struck(w.Live(), InstanceKey(w.pass.provider, id), effect)).(pass := w.pass.(gone := w.pass.gone + {id}))
    case MarkGhost(id) => WithRows(w, StoreRow(w.Rows(), Ghosted(w.pass.local[id], w.now)))
    case EndPass => w.(pass := Idle)
    case Tick(time) => w.(now := time)
    case Crash => w.(makers := map[], copies := {}, pass := Idle)
  }

  function Start(now: Time): World {
    World(Tables(map[], map[]), map[], {}, Idle, now, map[], map[], map[])
  }

  /** Some run of steps leads from one world to another. */
  ghost predicate Leads(w: World, steps: seq<Step>, end: World, deploymentID: string)
    decreases |steps|
  {
    if steps == [] then w == end
    else Enabled(w, steps[0]) && Leads(Apply(w, steps[0], deploymentID), steps[1..], end, deploymentID)
  }

  // ---- What every reachable world keeps ----

  /** A version of a row: of a session that was created, with its identity, and naming no instance or
      the one created for that session. */
  predicate Tracked(origin: Rows, owner: map<InstanceKey, string>, s: Session) {
    && s.id in origin && s.SameRow(origin[s.id])
    && (s.providerID != "" ==> s.Key() in owner && owner[s.Key()] == s.id)
  }

  ghost predicate RowsTracked(rows: Rows, copies: set<Session>, origin: Rows, owner: map<InstanceKey, string>) {
    && rows.Keys == origin.Keys
    && (forall id <- rows :: rows[id].id == id && Tracked(origin, owner, rows[id]))
    && (forall s <- copies :: Tracked(origin, owner, s))
  }

  /** Each session had at most one instance created, and every live instance carries its tag. */
  ghost predicate InstancesTracked(live: Instances, origin: Rows, born: map<InstanceKey, Time>, owner: map<InstanceKey, string>) {
    && owner.Keys == born.Keys
    && (forall k <- live :: k in owner && live[k].sessionTag == owner[k])
    && (forall k <- owner :: owner[k] in origin)
    && (forall a <- owner, b <- owner :: owner[a] == owner[b] ==> a == b)
  }

  ghost predicate MakerTracked(origin: Rows, owner: map<InstanceKey, string>, id: string, m: Maker) {
    && m.session.id == id && m.session.providerID == "" && Tracked(origin, owner, m.session)
    && (m.stage.RowCreated? || m.stage.MarkedProvisioning? ==> forall k <- owner :: owner[k] != id)
    && (m.stage.InstanceCreated? ==> m.stage.key in owner && owner[m.stage.key] == id
                                     && m.stage.key.provider == m.session.provider && m.stage.key.id != "")
  }

  ghost predicate MakersTracked(makers: map<string, Maker>, origin: Rows, owner: map<InstanceKey, string>) {
    forall id <- makers :: MakerTracked(origin, owner, id, makers[id])
  }

  ghost predicate PassTracked(pass: Pass, origin: Rows, owner: map<InstanceKey, string>) {
    pass.Compared? ==>
      && pass.gone !! pass.local.Keys
      && (forall pid <- pass.local ::
            Tracked(origin, owner, pass.local[pid]) && pass.local[pid].Key() == InstanceKey(pass.provider, pid) && pid != "")
  }

  ghost predicate Inv(w: World) {
    && RowsTracked(w.Rows(), w.copies, w.origin, w.owner)
    && InstancesTracked(w.Live(), w.origin, w.born, w.owner)
    && MakersTracked(w.makers, w.origin, w.owner)
    && PassTracked(w.pass, w.origin, w.owner)
  }

  lemma StartInv(now: Time)
    ensures Inv(Start(now))
  {
  }

  /** A tracked version with only mutable columns changed, the instance ID kept or cleared, is tracked. */
  lemma WriteIsTracked(origin: Rows, owner: map<InstanceKey, string>, copy: Session, updated: Session)
    requires Tracked(origin, owner, copy) && MayWrite(copy, updated)
    ensures Tracked(origin, owner, updated)
  {
  }

  lemma RecordIsTracked(origin: Rows, owner: map<InstanceKey, string>, id: string, m: Maker, updated: Session)
    requires MakerTracked(origin, owner, id, m) && m.stage.InstanceCreated?
    requires updated.SameRow(m.session) && updated.providerID == m.stage.key.id
    ensures Tracked(origin, owner, updated) && updated.id == id
  {
    assert updated.Key() == m.stage.key;
  }

  /** Storing a tracked version replaces that row by it. */
  lemma StoreKeeps(rows: Rows, copies: set<Session>, origin: Rows, owner: map<InstanceKey, string>, s: Session)
    requires RowsTracked(rows, copies, origin, owner) && Tracked(origin, owner, s)
    ensures StoreRow(rows, s) == rows[s.id := s]
    ensures RowsTracked(StoreRow(rows, s), copies, origin, owner)
    ensures RowsTracked(StoreRow(rows, s), copies + {s}, origin, owner)
    ensures RowsTracked(rows, copies + {s}, origin, owner)
  {
    assert Tracked(origin, owner, rows[s.id]);
    assert Overwrite(rows[s.id], s) == s;
    hide Tracked;
  }

  lemma StruckKeeps(live: Instances, key: InstanceKey, effect: Effect, origin: Rows, born: map<InstanceKey, Time>, owner: map<InstanceKey, string>)
    requires InstancesTracked(live, origin, born, owner)
    ensures InstancesTracked(Struck(live, key, effect), origin, born, owner)
  {
  }

  /** History only grows, so what was tracked stays tracked. */
  lemma TrackedGrows(origin: Rows, owner: map<InstanceKey, string>, id: string, first: Session, key: InstanceKey, s: Session)
    requires Tracked(origin, owner, s)
    ensures id !in origin ==> Tracked(origin[id := first], owner, s)
    ensures key !in owner ==> Tracked(origin, owner[key := id], s)
  {
  }

  /** History with at least as much in it: whatever was tracked still is. */
  ghost predicate Grown(origin: Rows, owner: map<InstanceKey, string>, origin': Rows, owner': map<InstanceKey, string>) {
    forall s :: Tracked(origin, owner, s) ==> Tracked(origin', owner', s)
  }

  lemma PassGrows(pass: Pass, origin: Rows, owner: map<InstanceKey, string>, origin': Rows, owner': map<InstanceKey, string>)
    requires PassTracked(pass, origin, owner) && Grown(origin, owner, origin', owner')
    ensures PassTracked(pass, origin', owner')
  {
    hide Tracked;
  }

  lemma RowsGrow(rows: Rows, copies: set<Session>, origin: Rows, owner: map<InstanceKey, string>, origin': Rows, owner': map<InstanceKey, string>)
    requires RowsTracked(rows, copies, origin, owner) && Grown(origin, owner, origin', owner')
    ensures forall id <- rows :: rows[id].id == id && Tracked(origin', owner', rows[id])
    ensures forall s <- copies :: Tracked(origin', owner', s)
  {
    hide Tracked;
  }

  /** A maker stays tracked unless the new instance is its own. */
  lemma MakerGrows(origin: Rows, owner: map<InstanceKey, string>, origin': Rows, owner': map<InstanceKey, string>, id: string, m: Maker)
    requires MakerTracked(origin, owner, id, m) && Grown(origin, owner, origin', owner')
    requires forall k <- owner :: k in owner' && owner'[k] == owner[k]
    requires forall k :: k in owner' && k !in owner ==> owner'[k] != id
    ensures MakerTracked(origin', owner', id, m)
  {
    hide Tracked;
  }

  lemma NewSessionGrows(origin: Rows, owner: map<InstanceKey, string>, s: Session)
    requires s.id !in origin && s.providerID == ""
    ensures Grown(origin, owner, origin[s.id := s], owner) && Tracked(origin[s.id := s], owner, s)
  {
    forall x | Tracked(origin, owner, x)
      ensures Tracked(origin[s.id := s], owner, x)
    {
      TrackedGrows(origin, owner, s.id, s, InstanceKey("", ""), x);
    }
  }

  lemma NewSessionMakers(makers: map<string, Maker>, origin: Rows, owner: map<InstanceKey, string>, s: Session)
    requires MakersTracked(makers, origin, owner) && s.id !in origin && s.providerID == ""
    requires forall k <- owner :: owner[k] in origin
    ensures MakersTracked(makers[s.id := Maker(s, RowCreated)], origin[s.id := s], owner)
  {
    hide Tracked, Grown;
    NewSessionGrows(origin, owner, s);
    var next := makers[s.id := Maker(s, RowCreated)];
    forall id | id in next
      ensures MakerTracked(origin[s.id := s], owner, id, next[id])
    {
      if id != s.id {
        MakerGrows(origin, owner, origin[s.id := s], owner, id, makers[id]);
      }
    }
  }

  lemma CreateRowKeeps(w: World, s: Session, deploymentID: string)
    requires Inv(w) && Enabled(w, CreateRow(s))
    ensures Inv(Apply(w, CreateRow(s), deploymentID))
  {
    hide Tracked, Grown, MakersTracked, PassTracked, Clashes;
    NewSessionGrows(w.origin, w.owner, s);
    NewSessionMakers(w.makers, w.origin, w.owner, s);
    PassGrows(w.pass, w.origin, w.owner, w.origin[s.id := s], w.owner);
    RowsGrow(w.Rows(), w.copies, w.origin, w.owner, w.origin[s.id := s], w.owner);
  }

  lemma NewInstanceGrows(origin: Rows, owner: map<InstanceKey, string>, id: string, key: InstanceKey)
    requires key !in owner
    ensures Grown(origin, owner, origin, owner[key := id])
  {
    forall x | Tracked(origin, owner, x)
      ensures Tracked(origin, owner[key := id], x)
    {
      TrackedGrows(origin, owner, id, x, key, x);
    }
  }

  lemma NewInstanceMakers(makers: map<string, Maker>, origin: Rows, owner: map<InstanceKey, string>, id: string,
                          key: InstanceKey, m: Maker)
    requires MakersTracked(makers, origin, owner) && key !in owner && id in makers
    requires m.session == makers[id].session && (m.stage == InstanceCreated(key) || m.stage.CreateFailed?)
    requires key.provider == m.session.provider && key.id != ""
    ensures MakersTracked(makers[id := m], origin, owner[key := id])
  {
    hide Tracked, Grown;
    NewInstanceGrows(origin, owner, id, key);
    forall other | other in makers
      ensures MakerTracked(origin, owner[key := id], other, makers[id := m][other])
    {
      assert MakerTracked(origin, owner, other, makers[other]);
      if other != id {
        MakerGrows(origin, owner, origin, owner[key := id], other, makers[other]);
      } else {
        TrackedUnder(origin, owner, origin, owner[key := id], m.session);
      }
    }
  }

  lemma CallCreateKeeps(w: World, id: string, key: InstanceKey, instance: Instance, reported: bool, deploymentID: string)
    requires Inv(w) && Enabled(w, CallCreate(id, key, instance, reported))
    ensures Inv(Apply(w, CallCreate(id, key, instance, reported), deploymentID))
  {
    hide Tracked, Grown, MakersTracked, PassTracked, RowsTracked, InstancesTracked;
    MakerSession(w, id);
    NewInstanceTracked(w, id, key, instance);
    NewInstanceGrows(w.origin, w.owner, id, key);
    NewInstanceMakers(w.makers, w.origin, w.owner, id, key,
                      w.makers[id].(stage := if reported then InstanceCreated(key) else CreateFailed));
    PassGrows(w.pass, w.origin, w.owner, w.origin, w.owner[key := id]);
    SameRowsGrow(w.Rows(), w.copies, w.origin, w.owner, w.owner[key := id]);
  }

  lemma NewInstanceTracked(w: World, id: string, key: InstanceKey, instance: Instance)
    requires InstancesTracked(w.Live(), w.origin, w.born, w.owner) && id in w.origin
    requires key !in w.born && instance.sessionTag == id && forall k <- w.owner :: w.owner[k] != id
    ensures key !in w.owner
    ensures InstancesTracked(w.Live()[key := instance], w.origin, w.born[key := w.now], w.owner[key := id])
  {
  }

  lemma SameRowsGrow(rows: Rows, copies: set<Session>, origin: Rows, owner: map<InstanceKey, string>, owner': map<InstanceKey, string>)
    requires RowsTracked(rows, copies, origin, owner) && Grown(origin, owner, origin, owner')
    ensures RowsTracked(rows, copies, origin, owner')
  {
    hide Tracked;
  }

  lemma MakerSession(w: World, id: string)
    requires MakersTracked(w.makers, w.origin, w.owner) && id in w.makers
    ensures id in w.origin
    ensures w.makers[id].stage.MarkedProvisioning? ==> forall k <- w.owner :: w.owner[k] != id
  {
    MakerOf(w, id);
  }

  lemma TrackedUnder(origin: Rows, owner: map<InstanceKey, string>, origin': Rows, owner': map<InstanceKey, string>, s: Session)
    requires Tracked(origin, owner, s) && Grown(origin, owner, origin', owner')
    ensures Tracked(origin', owner', s)
  {
  }

  lemma ReadRowsKeeps(w: World, deploymentID: string)
    requires Inv(w) && Enabled(w, ReadActiveRows)
    ensures Inv(Apply(w, ReadActiveRows, deploymentID))
  {
    hide ReferencedIDs, Tracked;
    var local := LocalMap(w.Rows(), w.pass.provider);
    forall pid | pid in local
      ensures Tracked(w.origin, w.owner, local[pid])
    {
      var id :| id in w.Rows() && w.Rows()[id] == local[pid];
    }
  }

  lemma MakersChange(w: World, id: string, m: Maker)
    requires MakersTracked(w.makers, w.origin, w.owner) && MakerTracked(w.origin, w.owner, id, m)
    ensures MakersTracked(w.makers[id := m], w.origin, w.owner)
    ensures MakersTracked(w.makers - {id}, w.origin, w.owner)
  {
    hide MakerTracked;
  }

  lemma MakerStepKeeps(w: World, step: Step, deploymentID: string)
    requires Inv(w) && Enabled(w, step)
    requires step.MarkProvisioning? || step.CallCreateFails? || step.RecordInstance? || step.FailMaker?
    ensures Inv(Apply(w, step, deploymentID))
  {
    hide RowsTracked, InstancesTracked, PassTracked, Tracked, StoreRow, MakersTracked;
    var m := w.makers[step.id];
    assert MakerTracked(w.origin, w.owner, step.id, m) by { MakerOf(w, step.id); }
    MakersChange(w, step.id, m);
    match step
    case MarkProvisioning(id, _) =>
      var marked := m.session.(status := Provisioning);
      WriteIsTracked(w.origin, w.owner, m.session, marked);
      StoreKeeps(w.Rows(), w.copies, w.origin, w.owner, marked);
      MakersChange(w, id, Maker(marked, MarkedProvisioning));
    case CallCreateFails(id) => MakersChange(w, id, m.(stage := CreateFailed));
    case RecordInstance(id, updated, _) =>
      RecordIsTracked(w.origin, w.owner, id, m, updated);
      StoreKeeps(w.Rows(), w.copies, w.origin, w.owner, updated);
    case FailMaker(id, failed) =>
      WriteIsTracked(w.origin, w.owner, m.session, failed);
      StoreKeeps(w.Rows(), w.copies, w.origin, w.owner, failed);
  }

  lemma MakerOf(w: World, id: string)
    requires MakersTracked(w.makers, w.origin, w.owner) && id in w.makers
    ensures MakerTracked(w.origin, w.owner, id, w.makers[id])
  {
  }

  lemma RowOf(w: World, id: string)
    requires RowsTracked(w.Rows(), w.copies, w.origin, w.owner)
    ensures id in w.Rows() ==> w.Rows()[id].id == id && Tracked(w.origin, w.owner, w.Rows()[id])
  {
  }

  lemma CopyOf(w: World, copy: Session)
    requires RowsTracked(w.Rows(), w.copies, w.origin, w.owner) && copy in w.copies
    ensures Tracked(w.origin, w.owner, copy)
  {
  }

  lemma LocalOf(w: World, pid: string)
    requires PassTracked(w.pass, w.origin, w.owner) && w.pass.Compared? && pid in w.pass.local
    ensures Tracked(w.origin, w.owner, w.pass.local[pid])
    ensures w.pass.local[pid].Key() == InstanceKey(w.pass.provider, pid) && pid != ""
  {
  }

  lemma ActorStepKeeps(w: World, step: Step, deploymentID: string)
    requires Inv(w) && Enabled(w, step)
    requires step.Read? || step.Write? || step.DestroyCall? || step.ProviderChanges? || step.MarkGhost?
    ensures Inv(Apply(w, step, deploymentID))
  {
    hide RowsTracked, InstancesTracked, PassTracked, MakersTracked, Tracked, StoreRow, Struck, CanUpdate;
    match step
    case Read(id) =>
      RowOf(w, id);
      StoreKeeps(w.Rows(), w.copies, w.origin, w.owner, w.Rows()[id]);
    case Write(copy, updated) =>
      CopyOf(w, copy);
      WriteIsTracked(w.origin, w.owner, copy, updated);
      StoreKeeps(w.Rows(), w.copies, w.origin, w.owner, updated);
    case DestroyCall(copy, effect) => StruckKeeps(w.Live(), copy.Key(), effect, w.origin, w.born, w.owner);
    case ProviderChanges(key, effect) => StruckKeeps(w.Live(), key, effect, w.origin, w.born, w.owner);
    case MarkGhost(pid) =>
      LocalOf(w, pid);
      WriteIsTracked(w.origin, w.owner, w.pass.local[pid], Ghosted(w.pass.local[pid], w.now));
      StoreKeeps(w.Rows(), w.copies, w.origin, w.owner, Ghosted(w.pass.local[pid], w.now));
  }

  lemma OrphanStepKeeps(w: World, id: string, effect: Effect, deploymentID: string)
    requires Inv(w) && Enabled(w, DestroyOrphan(id, effect))
    ensures Inv(Apply(w, DestroyOrphan(id, effect), deploymentID))
  {
    hide RowsTracked, InstancesTracked, MakersTracked, Tracked, Struck;
    StruckKeeps(w.Live(), InstanceKey(w.pass.provider, id), effect, w.origin, w.born, w.owner);
  }

  lemma CrashKeeps(w: World, deploymentID: string)
    requires Inv(w)
    ensures Inv(Apply(w, Crash, deploymentID))
  {
    hide Tracked, InstancesTracked;
  }

  /** Every step, by every actor, keeps the invariant. */
  lemma StepKeeps(w: World, step: Step, deploymentID: string)
    requires Inv(w) && Enabled(w, step)
    ensures Inv(Apply(w, step, deploymentID))
  {
    hide Inv, Enabled, Apply;
    match step
    case CreateRow(s) => CreateRowKeeps(w, s, deploymentID);
    case CallCreate(id, key, instance, reported) => CallCreateKeeps(w, id, key, instance, reported, deploymentID);
    case MarkProvisioning(_, _) => MakerStepKeeps(w, step, deploymentID);
    case CallCreateFails(_) => MakerStepKeeps(w, step, deploymentID);
    case RecordInstance(_, _, _) => MakerStepKeeps(w, step, deploymentID);
    case FailMaker(_, _) => MakerStepKeeps(w, step, deploymentID);
    case Read(_) => ActorStepKeeps(w, step, deploymentID);
    case Write(_, _) => ActorStepKeeps(w, step, deploymentID);
    case DestroyCall(_, _) => ActorStepKeeps(w, step, deploymentID);
    case ProviderChanges(_, _) => ActorStepKeeps(w, step, deploymentID);
    case MarkGhost(_) => ActorStepKeeps(w, step, deploymentID);
    case ReadActiveRows => ReadRowsKeeps(w, deploymentID);
    case DestroyOrphan(id, effect) => OrphanStepKeeps(w, id, effect, deploymentID);
    case Crash => CrashKeeps(w, deploymentID);
    case ListInstances(_) => QuietStepKeeps(w, step, deploymentID);
    case EndPass => QuietStepKeeps(w, step, deploymentID);
    case Tick(_) => QuietStepKeeps(w, step, deploymentID);
  }

  lemma QuietStepKeeps(w: World, step: Step, deploymentID: string)
    requires Inv(w) && Enabled(w, step) && (step.ListInstances? || step.EndPass? || step.Tick?)
    ensures Inv(Apply(w, step, deploymentID))
  {
    hide RowsTracked, InstancesTracked, MakersTracked, Tracked, OwnIDs;
  }

  lemma {:induction false} RunKeeps(w: World, steps: seq<Step>, end: World, deploymentID: string)
    requires Inv(w) && Leads(w, steps, end, deploymentID)
    ensures Inv(end)
    decreases |steps|
  {
    hide Inv, Enabled, Apply;
    if steps != [] {
      StepKeeps(w, steps[0], deploymentID);
      RunKeeps(Apply(w, steps[0], deploymentID), steps[1..], end, deploymentID);
    }
  }

  /** In every reachable world: each instance is tagged with an existing session, no session has two
      instances, and no two rows name the same one. */
  lemma NothingUntracked(now: Time, steps: seq<Step>, end: World, deploymentID: string)
    requires Leads(Start(now), steps, end, deploymentID)
    ensures forall k <- end.Live() :: end.Live()[k].sessionTag in end.Rows()
    ensures forall a <- end.Live(), b <- end.Live() :: end.Live()[a].sessionTag == end.Live()[b].sessionTag ==> a == b
    ensures forall id <- end.Rows() :: end.Rows()[id].providerID != "" && end.Rows()[id].Key() in end.Live()
              ==> end.Live()[end.Rows()[id].Key()].sessionTag == id
    ensures DistinctInstances(end.Rows())
  {
    hide Leads, Tracked;
    StartInv(now);
    RunKeeps(Start(now), steps, end, deploymentID);
    forall id | id in end.Rows() && end.Rows()[id].providerID != ""
      ensures end.Rows()[id].Key() in end.owner && end.owner[end.Rows()[id].Key()] == id
    {
      RowOf(end, id);
      OwnerOf(end.origin, end.owner, end.Rows()[id]);
    }
  }

  lemma OwnerOf(origin: Rows, owner: map<InstanceKey, string>, s: Session)
    requires Tracked(origin, owner, s) && s.providerID != ""
    ensures s.Key() in owner && owner[s.Key()] == s.id
  {
  }

  /** Whatever happened before, a fault-free pass leaves no own instance without an active row, and a
      fault-free startup sweep recovers from wherever the crash struck. */
  lemma AnyRunIsRecovered(now: Time, steps: seq<Step>, end: World, registered: set<string>, deploymentID: string)
    requires Leads(Start(now), steps, end, deploymentID) && AllRegistered(end.Rows(), registered)
    ensures NoOrphans(Reconcile(end.tables, registered, deploymentID, end.now), registered, deploymentID)
    ensures var swept := Sweep(end.tables, registered, deploymentID, end.now);
            && NoOrphans(swept, registered, deploymentID)
            && NoGhosts(swept, registered, deploymentID, end.now)
            && (forall id <- swept.rows :: swept.rows[id].status != Provisioning)
            && (forall id <- swept.rows :: swept.rows[id].status == Failed ==> swept.rows[id].providerID == "")
            && (forall id :: KeepsSession(end.tables, swept, deploymentID, id))
  {
    hide Leads, Reconcile, Recover, NoOrphans, NoGhosts, KeepsSession, DistinctInstances;
    NothingUntracked(now, steps, end, deploymentID);
    ReconcileCleans(end.tables, registered, deploymentID, end.now);
    SweepRecovers(end.tables, registered, deploymentID, end.now);
  }
}
