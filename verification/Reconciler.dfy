/** The reconciler and the startup sweep, working step by step on the session store and the providers. */
module Reconciler {
  import opened Wrappers
  import opened Clock
  import opened Sessions
  import opened SessionStorage
  import opened Providers
  import opened Reconciliation

  /** An update that keeps the row inactive or active never fails, and writes the copy as it is. */
  method Save(store: SessionStore, copy: Session)
    requires store.Valid() && copy.id in store.rows && copy.SameRow(store.rows[copy.id])
    requires copy.IsActive() ==> store.rows[copy.id].IsActive()
    modifies store
    ensures store.Valid() && store.rows == old(store.rows)[copy.id := copy]
  {
    UpdateGoesThrough(store.rows, copy);
    assert Overwrite(store.rows[copy.id], copy) == copy;
    var _ := store.Update(copy);
  }

  /** Instances outside a set are untouched; inside it they may be gone or stopped. */
  ghost predicate OnlyTouches(before: Instances, after: Instances, keys: set<InstanceKey>) {
    && after.Keys <= before.Keys
    && (forall k <- before :: k !in keys ==> k in after && after[k] == before[k])
  }

  /** The rows marked as ghosts when the named instances are the ones seen. */
  function GhostIDs(localMap: map<string, Session>, seen: set<string>, now: Time): set<string> {
    set pid | pid in localMap && pid !in seen && GhostEligible(localMap[pid], now) :: localMap[pid].id
  }

  function MarkGhosts(rows: Rows, ghosts: set<string>, now: Time): Rows {
    map id | id in rows :: if id in ghosts then Ghosted(rows[id], now) else rows[id]
  }

  /** A map from instance ID to a row that names it. */
  ghost predicate IsLocalMap(localMap: map<string, Session>, rows: Rows, provider: string) {
    && localMap.Keys == ReferencedIDs(rows, provider)
    && (forall pid <- localMap :: localMap[pid].id in rows && rows[localMap[pid].id] == localMap[pid]
                                  && References(localMap[pid], provider) && localMap[pid].providerID == pid)
  }

  /** A stuck row once it is settled. No answer from the provider counts as a missing instance. */
  ghost predicate StuckRowSettled(s: Session, after: Session, instances: Instances, registered: set<string>, reliable: bool, now: Time) {
    if s.provider !in registered then after == s
    else if s.providerID == "" then after == s.(status := Failed, error := NO_INSTANCE_ERROR, stoppedAt := Some(now))
    else
      || ((!reliable || s.Key() !in instances)
          && after == if s.status == Provisioning then s.(status := Failed, error := RESTART_ERROR, stoppedAt := Some(now))
                      else s.(status := Stopped, stoppedAt := Some(now)))
      || (s.Key() in instances
          && after == if !instances[s.Key()].running then s.(status := Stopped, stoppedAt := Some(now))
                      else if s.status == Provisioning then Connected(s.(status := Running), instances[s.Key()])
                      else s)
  }

  /** A failed row once it is settled: it lets go of its instance, unless that runs and could not be destroyed. */
  ghost predicate FailedRowSettled(s: Session, after: Session, instances: Instances, registered: set<string>, reliable: bool, now: Time) {
    if s.provider !in registered || s.providerID == "" then after == s
    else if s.Key() in instances && instances[s.Key()].running then
      || after == s.(providerID := "", status := Stopped, stoppedAt := Some(now))
      || (!reliable && (after == s || after == s.(providerID := "")))
    else after == s.(providerID := "")
  }

  class Reconciler {
    const store: SessionStore
    const providers: ProviderRegistry
    const deploymentID: string
    const autoDestroyOrphans: bool

    constructor (store: SessionStore, providers: ProviderRegistry, deploymentID: string, autoDestroyOrphans: bool)
      ensures this.store == store && this.providers == providers
      ensures this.deploymentID == deploymentID && this.autoDestroyOrphans == autoDestroyOrphans
    {
      this.store, this.providers := store, providers;
      this.deploymentID, this.autoDestroyOrphans := deploymentID, autoDestroyOrphans;
    }

    function CurrentTables(): Tables
      reads store, providers
    {
      Tables(store.rows, providers.instances)
    }

    /** Every provider answers, the pass may destroy, and no instance is named twice. */
    ghost predicate FaultFree()
      reads store
    {
      providers.reliable && autoDestroyOrphans && DistinctInstances(store.rows)
    }

    method BuildLocalMap(provider: string, local: seq<Session>) returns (localMap: map<string, Session>)
      requires provider != "" && Lists(store.rows, Any().(provider := provider, statuses := ACTIVE), local)
      ensures IsLocalMap(localMap, store.rows, provider)
    {
      hide Lists, IsLocalMap, ReferencedIDs;
      localMap := map[];
      for i := 0 to |local|
        invariant forall j :: 0 <= j < i && local[j].providerID != "" ==> local[j].providerID in localMap
        invariant forall pid <- localMap :: pid != "" && localMap[pid].providerID == pid && localMap[pid] in local
      {
        if local[i].providerID != "" {
          localMap := localMap[local[i].providerID := local[i]];
        }
      }
      MapOfListing(store.rows, provider, local, localMap);
    }

    method BuildProviderMap(provider: string, list: seq<ProviderInstance>) returns (providerMap: map<string, Instance>)
      requires ListsInstances(providers.instances, provider, list)
      ensures providerMap.Keys <= OwnIDs(providers.instances, provider, deploymentID)
      ensures ListsAll(providers.instances, provider, list)
              ==> providerMap.Keys == OwnIDs(providers.instances, provider, deploymentID)
      ensures forall k <- providers.instances :: k.provider == provider && k.id in providerMap ==> Tagged(providers.instances[k], deploymentID)
    {
      hide IsOurs, Tagged;
      providerMap := map[];
      for i := 0 to |list|
        invariant forall j :: 0 <= j < i && Claims(deploymentID, list[j].instance.deploymentTag) ==> list[j].id in providerMap
        invariant forall id <- providerMap :: exists j :: 0 <= j < i && list[j].id == id && Claims(deploymentID, list[j].instance.deploymentTag)
      {
        var p := list[i];
        if deploymentID == "" {
          providerMap := providerMap[p.id := p.instance];
        } else if IsOurs(p.instance.deploymentTag, deploymentID) {
          providerMap := providerMap[p.id := p.instance];
        }
      }
      forall id | id in providerMap
        ensures id in OwnIDs(providers.instances, provider, deploymentID)
      {
        var j :| 0 <= j < |list| && list[j].id == id && Claims(deploymentID, list[j].instance.deploymentTag);
        assert list[j] in list;
        var k := InstanceKey(provider, id);
        assert k in providers.instances && k.id == id;
      }
      if ListsAll(providers.instances, provider, list) {
        forall k | k in providers.instances && k.provider == provider && Claims(deploymentID, providers.instances[k].deploymentTag)
          ensures k.id in providerMap
        {
          assert ProviderInstance(k.id, providers.instances[k]) in list;
        }
      }
      OwnAreTagged(providers.instances, provider, deploymentID);
    }

    /** Destroys the instances seen on the provider that no active row names. */
    method HandleOrphans(provider: string, providerMap: map<string, Instance>, localMap: map<string, Session>)
      modifies providers
      ensures var orphans := set id | id in providerMap && id !in localMap :: InstanceKey(provider, id);
              && OnlyTouches(old(providers.instances), providers.instances, if autoDestroyOrphans then orphans else {})
              && (providers.reliable && autoDestroyOrphans ==> providers.instances == old(providers.instances) - orphans)
    {
      hide OnlyTouches;
      ghost var done: set<InstanceKey> := {};
      var todo := providerMap.Keys;
      NothingTouched(providers.instances);
      while todo != {}
        invariant todo <= providerMap.Keys
        invariant done == set id | id in providerMap && id !in todo && id !in localMap :: InstanceKey(provider, id)
        invariant OnlyTouches(old(providers.instances), providers.instances, if autoDestroyOrphans then done else {})
        invariant providers.reliable && autoDestroyOrphans ==> providers.instances == old(providers.instances) - done
      {
        var id :| id in todo;
        if id !in localMap {
          if autoDestroyOrphans {
            label call:
            var _ := providers.DestroyInstance(provider, id);
            Touched(old@call(providers.instances), providers.instances, InstanceKey(provider, id));
            TouchedMore(old(providers.instances), old@call(providers.instances), providers.instances, done, InstanceKey(provider, id));
          }
          done := done + {InstanceKey(provider, id)};
        }
        todo := todo - {id};
      }
      assert done == set id | id in providerMap && id !in localMap :: InstanceKey(provider, id);
    }

    /** Stops the rows whose instance was not seen, if they are old enough. */
    method HandleGhosts(localMap: map<string, Session>, seen: set<string>, ghost provider: string, now: Time)
      requires store.Valid() && IsLocalMap(localMap, store.rows, provider)
      modifies store
      ensures store.Valid()
      ensures store.rows == MarkGhosts(old(store.rows), GhostIDs(localMap, seen, now), now)
    {
      hide ReferencedIDs, GhostIDs, MarkGhosts, Ghosted;
      var todo := localMap.Keys;
      MarkNone(store.rows, localMap, seen, now);
      while todo != {}
        invariant todo <= localMap.Keys && store.Valid()
        invariant store.rows == MarkGhosts(old(store.rows), GhostIDs(localMap, seen + todo, now), now)
      {
        var pid :| pid in todo;
        MarkOneMore(old(store.rows), localMap, seen, todo, pid, provider, now);
        if pid !in seen {
          HandleGhost(localMap[pid], now);
        }
        todo := todo - {pid};
      }
      assert seen + {} == seen;
    }

    /** Stops one row if it is running or provisioning and past the grace period. */
    method HandleGhost(s: Session, now: Time)
      requires store.Valid() && s.id in store.rows && store.rows[s.id] == s
      modifies store
      ensures store.Valid()
      ensures store.rows == if GhostEligible(s, now) then old(store.rows)[s.id := Ghosted(s, now)] else old(store.rows)
    {
      if s.status != Running && s.status != Provisioning {
        return;
      }
      if now - s.createdAt < GHOST_GRACE_PERIOD {
        return;
      }
      Save(store, s.(status := Stopped, error := GHOST_ERROR, stoppedAt := Some(now)));
    }

    /** One provider: list it, read its active rows, destroy orphans, stop ghosts. Whatever the provider
        does, only unreferenced own instances are destroyed and only old rows are stopped; without faults
        the result is the one of Reconcile. */
    method ReconcileProvider(provider: string, now: Time) returns (ok: bool)
      requires store.Valid() && provider != ""
      modifies store, providers
      ensures store.Valid() && store.rows.Keys == old(store.rows.Keys)
      ensures LeavesOthers(old(providers.instances), providers.instances, deploymentID)
      ensures KeepsNamed(old(CurrentTables()), providers.instances, {provider}, deploymentID)
      ensures StopsOnlyOld(old(store.rows), store.rows, {provider}, now)
      ensures old(FaultFree()) && provider in providers.registered
              ==> ok && CurrentTables() == Reconcile(old(CurrentTables()), {provider}, deploymentID, now)
    {
      hide LeavesOthers, KeepsNamed, StopsOnlyOld;
      ghost var start := CurrentTables();
      PassNothing(start, {provider}, deploymentID, now);
      KeptOthers(start, start.instances, {provider}, deploymentID);
      if provider !in providers.registered {
        return false;
      }
      var listing := providers.ListAllInstances(provider);
      if listing.Err? {
        return false;
      }
      var local := store.GetActiveSessionsByProvider(provider);
      var localMap := BuildLocalMap(provider, local);
      var providerMap := BuildProviderMap(provider, listing.value);
      OrphanKeys(start.rows, start.instances, provider, deploymentID, providerMap.Keys);
      HandleOrphans(provider, providerMap, localMap);
      HandleGhosts(localMap, providerMap.Keys, provider, now);
      OrphansOnly(start, providers.instances, provider, deploymentID);
      KeptOthers(start, providers.instances, {provider}, deploymentID);
      GhostsOnly(start.rows, store.rows, localMap, providerMap.Keys, provider, now);
      if FaultFreeTables(start.rows) {
        GhostsOfProvider(start.rows, start.instances, provider, deploymentID, now, localMap);
      }
      ok := true;
    }

    ghost predicate FaultFreeTables(rows: Rows) {
      providers.reliable && autoDestroyOrphans && DistinctInstances(rows)
    }

    /** Every registered provider in turn. Whatever they do, instances that are named by an active row or not
        tagged for this deployment are left alone, and only old rows are stopped; without faults exactly the
        other instances go and exactly the old rows without a tagged instance are stopped. */
    method RunReconciliation(now: Time)
      requires store.Valid() && "" !in providers.registered
      modifies store, providers
      ensures store.Valid() && store.rows.Keys == old(store.rows.Keys)
      ensures LeavesOthers(old(providers.instances), providers.instances, deploymentID)
      ensures KeepsNamed(old(CurrentTables()), providers.instances, providers.registered, deploymentID)
      ensures StopsOnlyOld(old(store.rows), store.rows, providers.registered, now)
      ensures old(FaultFree()) ==> CurrentTables() == Reconcile(old(CurrentTables()), providers.registered, deploymentID, now)
      ensures old(FaultFree()) ==>
                && TakesUnnamed(old(CurrentTables()), providers.instances, providers.registered, deploymentID)
                && PassedRows(old(CurrentTables()), store.rows, providers.registered, deploymentID, now)
    {
      hide Reconcile, OnlyTouches, LeavesOthers, KeepsNamed, StopsOnlyOld, TakesUnnamed, PassedRows;
      ghost var start := CurrentTables();
      ghost var done: set<string> := {};
      var todo := providers.registered;
      ReconcileNone(start, deploymentID, now);
      PassNothing(start, {}, deploymentID, now);
      while todo != {}
        invariant done + todo == providers.registered && done !! todo
        invariant store.Valid() && store.rows.Keys == start.rows.Keys
        invariant KeepsNamed(start, providers.instances, done, deploymentID) && StopsOnlyOld(start.rows, store.rows, done, now)
        invariant old(FaultFree()) ==> CurrentTables() == Reconcile(start, done, deploymentID, now)
      {
        var provider :| provider in todo;
        if old(FaultFree()) {
          ReconcileKeepsDistinct(start, done, deploymentID, now);
          ReconcileOneMore(start, done, provider, deploymentID, now);
        }
        ghost var mid := CurrentTables();
        var _ := ReconcileProvider(provider, now);
        KeepsNamedStep(start, mid, CurrentTables(), done, provider, deploymentID, now);
        done, todo := done + {provider}, todo - {provider};
      }
      assert done == providers.registered;
      KeptOthers(start, providers.instances, done, deploymentID);
      PassInFields(start, done, deploymentID, now);
    }

    /** What settling one row must do, without faults. */
    ghost predicate Settles(phase: Phase, s: Session, before: Tables, after: Tables, now: Time) {
      && after.rows == before.rows[s.id := phase.Row(s, before.instances, providers.registered, now)]
      && after.instances == before.instances
           - if phase.Destroys(s, before.instances, providers.registered) then {s.Key()} else {}
    }

    /** One stuck row: ask the provider and settle the row. */
    method RecoverStuckSession(s: Session, now: Time)
      requires store.Valid() && s.id in store.rows && store.rows[s.id] == s
      requires s.status == Provisioning || s.status == Stopping
      modifies store, providers
      ensures store.Valid() && store.rows.Keys == old(store.rows.Keys) && store.rows == old(store.rows)[s.id := store.rows[s.id]]
      ensures StuckRowSettled(s, store.rows[s.id], old(providers.instances), providers.registered, providers.reliable, now)
      ensures providers.instances == old(providers.instances)
              || (s.status == Stopping && s.provider in providers.registered && s.providerID != ""
                  && DestroyMayLead(old(providers.instances), providers.instances, s.Key(), providers.reliable))
      ensures providers.reliable ==> Settles(OfStuck, s, old(CurrentTables()), CurrentTables(), now)
    {
      hide Filed, UniqueActive;
      ghost var start := providers.instances;
      assert start - {} == start && store.rows == store.rows[s.id := s];
      if s.provider !in providers.registered {
        return;
      }
      if s.providerID == "" {
        Save(store, s.(status := Failed, error := NO_INSTANCE_ERROR, stoppedAt := Some(now)));
        return;
      }
      var status := providers.GetInstanceStatus(s.provider, s.providerID);
      if status.Err? {
        if s.status == Provisioning {
          Save(store, s.(status := Failed, error := RESTART_ERROR, stoppedAt := Some(now)));
        } else {
          Save(store, s.(status := Stopped, stoppedAt := Some(now)));
        }
        return;
      }
      if status.value.running {
        if s.status == Provisioning {
          MarkRunning(s, status.value);
        } else {
          var _ := Destroy(s);
        }
      } else {
        Save(store, s.(status := Stopped, stoppedAt := Some(now)));
      }
    }

    /** A provisioning row whose instance runs becomes running, with the connection details reported. */
    method MarkRunning(s: Session, status: Instance)
      requires store.Valid() && s.id in store.rows && store.rows[s.id] == s && s.IsActive()
      modifies store
      ensures store.Valid() && store.rows == old(store.rows)[s.id := Connected(s.(status := Running), status)]
    {
      var running := s.(status := Running);
      if status.sshHost != "" {
        running := running.(sshHost := status.sshHost);
      }
      if status.sshPort != 0 {
        running := running.(sshPort := status.sshPort);
      }
      if status.sshUser != "" {
        running := running.(sshUser := status.sshUser);
      }
      Save(store, running);
    }

    method Destroy(s: Session) returns (err: Option<ProviderError>)
      modifies providers
      ensures DestroyMayLead(old(providers.instances), providers.instances, s.Key(), providers.reliable)
      ensures providers.reliable ==> providers.instances == old(providers.instances) - {s.Key()}
      ensures providers.reliable && s.Key() in old(providers.instances) ==> err.None?
    {
      err := providers.DestroyInstance(s.provider, s.providerID);
    }

    /** One failed row: destroy the instance it still names, and let go of it. */
    method RecoverFailedSession(s: Session, now: Time)
      requires store.Valid() && s.id in store.rows && store.rows[s.id] == s && s.status == Failed
      modifies store, providers
      ensures store.Valid() && store.rows.Keys == old(store.rows.Keys) && store.rows == old(store.rows)[s.id := store.rows[s.id]]
      ensures FailedRowSettled(s, store.rows[s.id], old(providers.instances), providers.registered, providers.reliable, now)
      ensures providers.instances == old(providers.instances)
              || (s.provider in providers.registered && s.providerID != ""
                  && DestroyMayLead(old(providers.instances), providers.instances, s.Key(), providers.reliable))
      ensures providers.reliable ==> Settles(OfFailed, s, old(CurrentTables()), CurrentTables(), now)
    {
      hide Filed, UniqueActive;
      ghost var start := providers.instances;
      assert start - {} == start && store.rows == store.rows[s.id := s];
      if s.providerID == "" || s.provider !in providers.registered {
        return;
      }
      var status := providers.GetInstanceStatus(s.provider, s.providerID);
      if status.Err? {
        Save(store, s.(providerID := ""));
        return;
      }
      if status.value.running {
        var err := Destroy(s);
        if err.None? {
          Save(store, s.(providerID := "", status := Stopped, stoppedAt := Some(now)));
        }
      } else {
        Save(store, s.(providerID := ""));
      }
    }

    /** All rows stuck in provisioning or stopping, then all failed rows. */
    method RecoverStuckSessions(now: Time)
      requires store.Valid()
      modifies store, providers
      ensures store.Valid() && store.rows.Keys == old(store.rows.Keys)
      ensures providers.reliable && old(DistinctInstances(store.rows)) ==>
                CurrentTables() == Recover(old(CurrentTables()), providers.registered, now)
    {
      hide RecoverAll, DistinctInstances, Lists;
      ghost var start := CurrentTables();
      var stuck := store.GetSessionsByStatus({Provisioning, Stopping});
      RecoverEach(OfStuck, stuck, now);
      if DistinctInstances(start.rows) {
        RecoveryKeepsDistinct(OfStuck, start, providers.registered, now);
      }
      var failed := store.GetSessionsByStatus({Failed});
      RecoverEach(OfFailed, failed, now);
    }

    method RecoverEach(phase: Phase, list: seq<Session>, now: Time)
      requires store.Valid() && Lists(store.rows, Any().(statuses := phase.Statuses()), list)
      modifies store, providers
      ensures store.Valid() && store.rows.Keys == old(store.rows.Keys)
      ensures providers.reliable && old(DistinctInstances(store.rows)) ==>
                CurrentTables() == RecoverAll(phase, old(CurrentTables()), providers.registered, now)
    {
      hide Phase.Row, Phase.Destroys, RecoverSome, RecoverAll, DistinctInstances, IDs, Lists, Filed, UniqueActive;
      ghost var start := CurrentTables();
      ListedOnce(start.rows, phase, list);
      RecoverNone(phase, start, providers.registered, now);
      assert list[..0] == [] && IDs([]) == {} by { NoIDs(); }
      for i := 0 to |list|
        invariant store.Valid() && store.rows.Keys == start.rows.Keys
        invariant forall j :: i <= j < |list| ==> store.rows[list[j].id] == list[j]
        invariant providers.reliable && DistinctInstances(start.rows) ==>
                    CurrentTables() == RecoverSome(phase, start, providers.registered, now, IDs(list[..i]))
      {
        if DistinctInstances(start.rows) {
          RecoverStep(phase, start, providers.registered, now, list, i);
        }
        if phase.OfStuck? {
          RecoverStuckSession(list[i], now);
        } else {
          RecoverFailedSession(list[i], now);
        }
      }
      assert list[..|list|] == list;
      RecoverDone(phase, start, providers.registered, now, list);
    }

    /** The startup sweep. From any tables a crash can leave, without faults: every own instance is named
        by an active row, every old row has its instance, nothing is provisioning, no failed row names an
        instance, and healthy sessions are untouched; and what becomes of every row and every instance. */
    method RunStartupSweep(now: Time)
      requires store.Valid() && "" !in providers.registered
      modifies store, providers
      ensures store.Valid() && store.rows.Keys == old(store.rows.Keys)
      ensures old(FaultFree()) ==> CurrentTables() == Sweep(old(CurrentTables()), providers.registered, deploymentID, now)
      ensures old(FaultFree()) && old(AllRegistered(store.rows, providers.registered)) ==>
                && NoOrphans(CurrentTables(), providers.registered, deploymentID)
                && NoGhosts(CurrentTables(), providers.registered, deploymentID, now)
                && (forall id <- store.rows :: store.rows[id].status != Provisioning)
                && (forall id <- store.rows :: store.rows[id].status == Failed ==> store.rows[id].providerID == "")
                && (forall id :: KeepsSession(old(CurrentTables()), CurrentTables(), deploymentID, id))
      ensures old(FaultFree()) ==> forall id <- store.rows ::
                && SweptRow(old(store.rows)[id], store.rows[id], old(providers.instances), providers.registered, deploymentID, now)
                && SweptInstance(old(store.rows)[id], old(providers.instances), providers.instances, providers.registered, deploymentID)
      ensures old(FaultFree()) ==> SweptUnnamed(old(CurrentTables()), providers.instances, providers.registered, deploymentID)
    {
      hide RecoverAll, Reconcile, NoOrphans, NoGhosts, KeepsSession, DistinctInstances, SweptRow, SweptInstance, SweptUnnamed;
      ghost var start := CurrentTables();
      RecoverStuckSessions(now);
      if DistinctInstances(start.rows) {
        RecoveryKeepsDistinct(OfStuck, start, providers.registered, now);
        RecoveryKeepsDistinct(OfFailed, RecoverAll(OfStuck, start, providers.registered, now), providers.registered, now);
      }
      RunReconciliation(now);
      if old(FaultFree()) && AllRegistered(start.rows, providers.registered) {
        SweepRecovers(start, providers.registered, deploymentID, now);
      }
      if old(FaultFree()) {
        SweepTakesUnnamed(start, providers.registered, deploymentID, now);
        forall id | id in start.rows
          ensures SweptRow(start.rows[id], store.rows[id], start.instances, providers.registered, deploymentID, now)
          ensures SweptInstance(start.rows[id], start.instances, providers.instances, providers.registered, deploymentID)
        {
          SweepInFields(start, providers.registered, deploymentID, now, id);
        }
      }
    }
  }

  // ---- Facts about the loops ----

  lemma MapOfListing(rows: Rows, provider: string, local: seq<Session>, localMap: map<string, Session>)
    requires provider != "" && Lists(rows, Any().(provider := provider, statuses := ACTIVE), local)
    requires forall j :: 0 <= j < |local| && local[j].providerID != "" ==> local[j].providerID in localMap
    requires forall pid <- localMap :: pid != "" && localMap[pid].providerID == pid && localMap[pid] in local
    ensures IsLocalMap(localMap, rows, provider)
  {
    forall id | id in rows && References(rows[id], provider)
      ensures rows[id].providerID in localMap
    {
      assert rows[id] in local;
    }
    forall pid | pid in localMap
      ensures pid in ReferencedIDs(rows, provider)
    {
      assert localMap[pid].id in rows && References(rows[localMap[pid].id], provider);
    }
  }

  lemma MarkNone(rows: Rows, localMap: map<string, Session>, seen: set<string>, now: Time)
    ensures MarkGhosts(rows, GhostIDs(localMap, seen + localMap.Keys, now), now) == rows
  {
    assert GhostIDs(localMap, seen + localMap.Keys, now) == {};
  }

  /** Taking one more instance ID off the list to do marks at most the row behind it. */
  lemma MarkOneMore(rows: Rows, localMap: map<string, Session>, seen: set<string>, todo: set<string>, pid: string,
                    provider: string, now: Time)
    requires IsLocalMap(localMap, rows, provider) && pid in todo && todo <= localMap.Keys
    ensures var s := localMap[pid];
            var before := MarkGhosts(rows, GhostIDs(localMap, seen + todo, now), now);
            var after := MarkGhosts(rows, GhostIDs(localMap, seen + (todo - {pid}), now), now);
            && (pid !in seen ==> s.id in before && before[s.id] == s)
            && after == if pid !in seen && GhostEligible(s, now) then before[s.id := Ghosted(s, now)] else before
  {
    hide ReferencedIDs, GhostEligible, Ghosted;
    var before, after := GhostIDs(localMap, seen + todo, now), GhostIDs(localMap, seen + (todo - {pid}), now);
    var s := localMap[pid];
    assert forall other <- localMap :: other != pid ==> localMap[other].id != s.id;
    assert s.id !in before;
    assert after == before + if pid !in seen && GhostEligible(s, now) then {s.id} else {};
  }

  lemma Touched(before: Instances, after: Instances, key: InstanceKey)
    requires after - {key} == before - {key} && (key in after ==> key in before)
    ensures OnlyTouches(before, after, {key})
  {
    forall k | k in before && k != key
      ensures k in after && after[k] == before[k]
    {
      assert k in before - {key};
      assert (before - {key})[k] == (after - {key})[k];
    }
    forall k | k in after
      ensures k in before
    {
      if k != key {
        assert k in after - {key};
      }
    }
  }

  lemma NothingTouched(instances: Instances)
    ensures OnlyTouches(instances, instances, {}) && instances - {} == instances
  {
  }

  lemma TouchedMore(before: Instances, mid: Instances, after: Instances, keys: set<InstanceKey>, key: InstanceKey)
    requires OnlyTouches(before, mid, keys) && OnlyTouches(mid, after, {key})
    ensures OnlyTouches(before, after, keys + {key})
  {
  }

  lemma OrphanKeys(rows: Rows, instances: Instances, provider: string, deploymentID: string, seen: set<string>)
    requires seen <= OwnIDs(instances, provider, deploymentID)
    ensures var keys := set id | id in seen && id !in ReferencedIDs(rows, provider) :: InstanceKey(provider, id);
            && keys <= Orphans(rows, instances, {provider}, deploymentID)
            && (seen == OwnIDs(instances, provider, deploymentID) ==> keys == Orphans(rows, instances, {provider}, deploymentID))
  {
    hide Claims, References;
    forall id | id in seen
      ensures InstanceKey(provider, id) in instances && Claims(deploymentID, instances[InstanceKey(provider, id)].deploymentTag)
    {
      var k :| k in instances && k.provider == provider && Claims(deploymentID, instances[k].deploymentTag) && k.id == id;
      assert k == InstanceKey(provider, id);
    }
    forall k | k in Orphans(rows, instances, {provider}, deploymentID)
      ensures k == InstanceKey(provider, k.id) && k.id in OwnIDs(instances, provider, deploymentID)
    {
    }
  }

  lemma OrphansOnly(before: Tables, after: Instances, provider: string, deploymentID: string)
    requires OnlyTouches(before.instances, after, Orphans(before.rows, before.instances, {provider}, deploymentID))
    ensures KeepsNamed(before, after, {provider}, deploymentID)
  {
    hide Orphans, Tagged, Named;
    OrphansAreUnnamed(before, {provider}, deploymentID);
  }

  lemma GhostsOnly(before: Rows, after: Rows, localMap: map<string, Session>, seen: set<string>, provider: string, now: Time)
    requires IsLocalMap(localMap, before, provider) && after == MarkGhosts(before, GhostIDs(localMap, seen, now), now)
    ensures StopsOnlyOld(before, after, {provider}, now)
  {
  }

  /** With distinct instances the ghosts found through the map are exactly the ghosts. */
  lemma GhostsOfProvider(rows: Rows, instances: Instances, provider: string, deploymentID: string, now: Time,
                         localMap: map<string, Session>)
    requires Filed(rows) && DistinctInstances(rows) && IsLocalMap(localMap, rows, provider)
    ensures MarkGhosts(rows, GhostIDs(localMap, OwnIDs(instances, provider, deploymentID), now), now)
            == ReconciledRows(rows, instances, {provider}, deploymentID, now)
  {
    hide OwnIDs, GhostEligible;
    var own := OwnIDs(instances, provider, deploymentID);
    forall id | id in rows
      ensures id in GhostIDs(localMap, own, now) <==> rows[id].provider == provider && IsGhost(rows[id], instances, deploymentID, now)
    {
      var s := rows[id];
      if References(s, provider) {
        ReferencedBy(rows, id);
        assert localMap[s.providerID].Key() == s.Key();
      }
    }
  }

  lemma ReconcileNone(t: Tables, deploymentID: string, now: Time)
    ensures Reconcile(t, {}, deploymentID, now) == t
  {
    assert Orphans(t.rows, t.instances, {}, deploymentID) == {};
  }

  lemma ReconcileKeepsDistinct(t: Tables, providers: set<string>, deploymentID: string, now: Time)
    requires DistinctInstances(t.rows)
    ensures DistinctInstances(Reconcile(t, providers, deploymentID, now).rows)
  {
    hide IsGhost;
    var next := Reconcile(t, providers, deploymentID, now).rows;
    assert forall id <- next :: next[id].Key() == t.rows[id].Key() && next[id].providerID == t.rows[id].providerID;
  }

  /** Providers do not interfere. */
  lemma ReconcileOneMore(t: Tables, done: set<string>, provider: string, deploymentID: string, now: Time)
    requires provider !in done
    ensures Reconcile(Reconcile(t, done, deploymentID, now), {provider}, deploymentID, now)
            == Reconcile(t, done + {provider}, deploymentID, now)
  {
    hide Claims, GhostEligible, References, OwnIDs, ReferencedIDs;
    var mid := Reconcile(t, done, deploymentID, now);
    SameOwn(t, done, provider, deploymentID, now);
    SameReferenced(t, done, provider, deploymentID, now);
    assert ReconciledRows(mid.rows, mid.instances, {provider}, deploymentID, now)
        == ReconciledRows(t.rows, t.instances, done + {provider}, deploymentID, now);
    var a := Orphans(t.rows, t.instances, done, deploymentID);
    var b := Orphans(mid.rows, mid.instances, {provider}, deploymentID);
    var c := Orphans(t.rows, t.instances, done + {provider}, deploymentID);
    forall k | k in t.instances
      ensures k in c <==> k in a || k in b
    {
      if k.provider == provider {
        assert k in mid.instances && mid.instances[k] == t.instances[k];
      }
    }
    assert t.instances - a - b == t.instances - c;
  }

  lemma SameOwn(t: Tables, done: set<string>, provider: string, deploymentID: string, now: Time)
    requires provider !in done
    ensures OwnIDs(Reconcile(t, done, deploymentID, now).instances, provider, deploymentID) == OwnIDs(t.instances, provider, deploymentID)
  {
    hide Claims;
    forall id
      ensures id in OwnIDs(Reconcile(t, done, deploymentID, now).instances, provider, deploymentID)
              <==> id in OwnIDs(t.instances, provider, deploymentID)
    {
      OwnAfterRemoval(t.instances, Orphans(t.rows, t.instances, done, deploymentID), provider, deploymentID, id);
    }
  }

  lemma SameReferenced(t: Tables, done: set<string>, provider: string, deploymentID: string, now: Time)
    requires provider !in done
    ensures ReferencedIDs(Reconcile(t, done, deploymentID, now).rows, provider) == ReferencedIDs(t.rows, provider)
  {
    hide IsGhost;
    var rows := Reconcile(t, done, deploymentID, now).rows;
    assert forall id <- t.rows :: t.rows[id].provider == provider ==> rows[id] == t.rows[id];
    assert forall id <- rows :: rows[id].provider == t.rows[id].provider;
  }

  function IDs(list: seq<Session>): set<string> {
    set s | s in list :: s.id
  }

  lemma NoIDs()
    ensures IDs([]) == {}
  {
  }

  lemma NewID(list: seq<Session>, i: nat)
    requires i < |list| && forall a, b :: 0 <= a < b < |list| ==> list[a].id != list[b].id
    ensures list[i].id !in IDs(list[..i]) && IDs(list[..i + 1]) == IDs(list[..i]) + {list[i].id}
  {
    assert list[..i + 1] == list[..i] + [list[i]];
  }

  lemma ListedOnce(rows: Rows, phase: Phase, list: seq<Session>)
    requires Lists(rows, Any().(statuses := phase.Statuses()), list)
    ensures forall a, b :: 0 <= a < b < |list| ==> list[a].id != list[b].id
    ensures forall j :: 0 <= j < |list| ==> list[j].id in rows && rows[list[j].id] == list[j] && list[j].status in phase.Statuses()
  {
    forall j | 0 <= j < |list|
      ensures list[j].id in rows && rows[list[j].id] == list[j] && list[j].status in phase.Statuses()
    {
      assert list[j] in list;
    }
  }

  lemma RecoverNone(phase: Phase, t: Tables, registered: set<string>, now: Time)
    ensures RecoverSome(phase, t, registered, now, {}) == t
  {
    assert DestroyedKeys(phase, t, registered, {}) == {};
  }

  /** Settling one more row of a list changes that row and its instance as it would have at the start. */
  lemma RecoverStep(phase: Phase, t: Tables, registered: set<string>, now: Time, list: seq<Session>, i: nat)
    requires i < |list| && forall a, b :: 0 <= a < b < |list| ==> list[a].id != list[b].id
    requires list[i].id in t.rows && t.rows[list[i].id] == list[i]
    requires DistinctInstances(t.rows)
    ensures var s, mid := list[i], RecoverSome(phase, t, registered, now, IDs(list[..i]));
            var next := RecoverSome(phase, t, registered, now, IDs(list[..i + 1]));
            && next.rows == mid.rows[s.id := phase.Row(s, mid.instances, registered, now)]
            && next.instances == mid.instances - if phase.Destroys(s, mid.instances, registered) then {s.Key()} else {}
  {
    hide Phase.Row, Phase.Destroys, IDs;
    var s, done := list[i], IDs(list[..i]);
    var mid := RecoverSome(phase, t, registered, now, done);
    NewID(list, i);
    OwnInstanceUnchanged(phase, t, registered, now, done, s);
    RowReadsOwnInstance(phase, s, t.instances, mid.instances, registered, now);
    var gone := DestroyedKeys(phase, t, registered, done);
    var more := DestroyedKeys(phase, t, registered, done + {s.id});
    assert more == gone + if phase.Destroys(s, t.instances, registered) then {s.Key()} else {};
  }

  /** Destroying other rows' instances does not change what a row sees of its own. */
  lemma OwnInstanceUnchanged(phase: Phase, t: Tables, registered: set<string>, now: Time, done: set<string>, s: Session)
    requires DistinctInstances(t.rows) && s.id in t.rows && t.rows[s.id] == s && s.id !in done
    ensures s.providerID != "" ==> s.Key() !in DestroyedKeys(phase, t, registered, done)
  {
  }

  lemma RowReadsOwnInstance(phase: Phase, s: Session, a: Instances, b: Instances, registered: set<string>, now: Time)
    requires s.providerID != "" ==> (s.Key() in a <==> s.Key() in b)
    requires s.providerID != "" && s.Key() in a ==> a[s.Key()] == b[s.Key()]
    ensures phase.Row(s, a, registered, now) == phase.Row(s, b, registered, now)
    ensures phase.Destroys(s, a, registered) == phase.Destroys(s, b, registered)
  {
  }

  lemma RecoverDone(phase: Phase, t: Tables, registered: set<string>, now: Time, list: seq<Session>)
    requires Lists(t.rows, Any().(statuses := phase.Statuses()), list) && Filed(t.rows)
    ensures RecoverSome(phase, t, registered, now, IDs(list)) == RecoverAll(phase, t, registered, now)
  {
    forall id | id in t.rows && id !in IDs(list)
      ensures phase.Row(t.rows[id], t.instances, registered, now) == t.rows[id]
      ensures !phase.Destroys(t.rows[id], t.instances, registered)
    {
      assert t.rows[id] !in list;
    }
    hide Phase.Row, Phase.Destroys, IDs;
    var some, every := RecoverSome(phase, t, registered, now, IDs(list)), RecoverAll(phase, t, registered, now);
    assert some.rows == every.rows;
    assert DestroyedKeys(phase, t, registered, IDs(list)) == DestroyedKeys(phase, t, registered, t.rows.Keys);
  }
}
