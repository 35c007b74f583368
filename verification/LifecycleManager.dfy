/** The lifecycle manager: one pass of periodic checks over the session store. */
module LifecycleManager {
  import opened Wrappers
  import opened Clock
  import opened Sessions
  import opened SessionStorage
  import opened Providers
  import opened Reconciliation
  import opened Enforcement
  import opened Reconciler
  import opened Provisioner

  const HARD_MAX_REASON := "hard max duration exceeded"
  const EXPIRED_REASON := "reservation expired"
  const DESTROY_FAILED := ": destroy failed: "

  class Manager {
    const store: SessionStore
    const providers: ProviderRegistry
    const destroyer: Provisioner
    const limits: Limits
    const orphanGracePeriod: Duration

    constructor (destroyer: Provisioner, limits: Limits, orphanGracePeriod: Duration)
      ensures this.destroyer == destroyer && store == destroyer.store && providers == destroyer.providers
      ensures this.limits == limits && this.orphanGracePeriod == orphanGracePeriod
    {
      this.destroyer, store, providers := destroyer, destroyer.store, destroyer.providers;
      this.limits, this.orphanGracePeriod := limits, orphanGracePeriod;
    }

    ghost predicate Valid()
      reads store
    {
      store == destroyer.store && providers == destroyer.providers && store.Valid()
    }

    function CurrentTables(): Tables
      reads store, providers
    {
      Tables(store.rows, providers.instances)
    }

    ghost predicate FaultFree()
      reads store
    {
      providers.reliable && destroyer.destroyRetries > 0 && AllRegistered(store.rows, providers.registered)
    }

    /** What acting on one listed row must do: that row and its instance only, and without faults exactly
        what the check prescribes. */
    ghost predicate ActsOn(check: Check, s: Session, before: Tables, after: Tables, now: Time, faultFree: bool) {
      && OnlyRow(before.rows, after.rows, s.id)
      && Acted(check, limits, s, after.rows[s.id], after.instances, now)
      && Weakened(before.instances, after.instances, KeysOf(check, limits, s, now))
      && (faultFree ==> after.rows[s.id] == check.Row(limits, s, now)
                        && after.instances == before.instances - KeysOf(check, limits, s, now))
    }

    /** Ends a session, or else writes back the copy it was called with, which is still running, with the
        error in it. */
    method EndSession(s: Session, reason: string, now: Time)
      requires Valid() && s.id in store.rows && store.rows[s.id] == s && s.status == Running
      modifies store, providers
      ensures Valid() && OnlyRow(old(store.rows), store.rows, s.id)
      ensures EndedOrKept(s, store.rows[s.id], providers.instances, now)
      ensures Weakened(old(providers.instances), providers.instances, if s.providerID == "" then {} else {s.Key()})
      ensures providers.reliable && destroyer.destroyRetries > 0 && s.provider in providers.registered ==>
                && store.rows[s.id] == Ended(s, now)
                && providers.instances == old(providers.instances) - if s.providerID == "" then {} else {s.Key()}
    {
      hide Weakened, Dead, Filed, UniqueActive, CanUpdate;
      ghost var rows := store.rows;
      var err := destroyer.DestroySession(s.id, now);
      if err.Some? {
        var copy := s.(error := reason + DESTROY_FAILED + err.value.Text());
        WriteBackGoesThrough(rows, store.rows, copy);
        var _ := store.Update(copy);
      }
    }

    method ActOnOverdue(check: Check, s: Session, now: Time)
      requires Valid() && s.id in store.rows && store.rows[s.id] == s && s.status == Running
      requires check.HardMax? || (check.Expiry? && check.Picks(limits, s, now))
      modifies store, providers
      ensures Valid()
      ensures ActsOn(check, s, old(CurrentTables()), CurrentTables(), now, old(FaultFree()))
    {
      hide Weakened, Dead, EndedOrKept, Filed, UniqueActive;
      assert OnlyRow(store.rows, store.rows, s.id) by { SameRows(store.rows, s); }
      if check.HardMax? && (s.hardMaxOverride || now - s.createdAt <= limits.hardMaxHours * HOUR) {
        WeakenedNot(providers.instances, KeysOf(check, limits, s, now));
        assert providers.instances - {} == providers.instances;
        return;
      }
      EndSession(s, if check.HardMax? then HARD_MAX_REASON else EXPIRED_REASON, now);
    }

    method ActOnStuck(s: Session, now: Time)
      requires Valid() && s.id in store.rows && store.rows[s.id] == s
      requires s.status == Stopping || s.status == Provisioning
      modifies store, providers
      ensures Valid()
      ensures ActsOn(Stuck, s, old(CurrentTables()), CurrentTables(), now, old(FaultFree()))
    {
      hide Weakened, Dead, EndedOrKept, Filed, UniqueActive;
      assert OnlyRow(store.rows, store.rows, s.id) by { SameRows(store.rows, s); }
      WeakenedNot(providers.instances, KeysOf(Stuck, limits, s, now));
      assert providers.instances - {} == providers.instances;
      if now - s.createdAt > limits.stuckTimeout {
        var copy := s.(status := Failed);
        if s.status == Stopping {
          copy := copy.(error := STUCK_STOPPING_ERROR);
        } else {
          copy := copy.(error := STUCK_PROVISIONING_ERROR);
        }
        Save(store, copy.(stoppedAt := Some(now)));
      }
    }

    method ActOnFailed(s: Session, now: Time)
      requires Valid() && s.id in store.rows && store.rows[s.id] == s && FailedDestroys.Picks(limits, s, now)
      modifies store, providers
      ensures Valid()
      ensures ActsOn(FailedDestroys, s, old(CurrentTables()), CurrentTables(), now, old(FaultFree()))
    {
      hide Weakened, Dead, EndedOrKept, Filed, UniqueActive;
      var _ := destroyer.DestroySession(s.id, now);
    }

    method ActOn(check: Check, s: Session, now: Time)
      requires Valid() && s.id in store.rows && store.rows[s.id] == s && Listed(check).Matches(s)
      requires check.Expiry? ==> s.expiresAt < now
      modifies store, providers
      ensures Valid()
      ensures ActsOn(check, s, old(CurrentTables()), CurrentTables(), now, old(FaultFree()))
    {
      hide ActsOn;
      match check
      case HardMax =>
        if s.status != Running {
          NothingToDo(s, now);
        } else {
          ActOnOverdue(check, s, now);
        }
      case Expiry => ActOnOverdue(check, s, now);
      case Stuck => ActOnStuck(s, now);
      case FailedDestroys => ActOnFailed(s, now);
    }

    lemma NothingToDo(s: Session, now: Time)
      requires Valid() && s.id in store.rows && store.rows[s.id] == s && s.status != Running
      ensures ActsOn(HardMax, s, CurrentTables(), CurrentTables(), now, FaultFree())
    {
      SameRows(store.rows, s);
      WeakenedNot(providers.instances, KeysOf(HardMax, limits, s, now));
      assert providers.instances - {} == providers.instances;
    }

    /** One check: list, then act on every row listed. */
    method RunCheck(check: Check, now: Time)
      requires Valid()
      modifies store, providers
      ensures Valid() && store.rows.Keys == old(store.rows.Keys)
      ensures forall id <- store.rows :: Acted(check, limits, old(store.rows)[id], store.rows[id], providers.instances, now)
      ensures Weakened(old(providers.instances), providers.instances, FreedKeys(check, limits, old(store.rows), now, old(store.rows.Keys)))
      ensures old(FaultFree()) ==> CurrentTables() == CheckAll(check, limits, old(CurrentTables()), now)
      ensures forall id <- store.rows :: InOrder(limits, old(store.rows)[id], now) ==> store.rows[id] == old(store.rows)[id]
    {
      hide InOrder, ActsOn, Acted, Weakened, CheckSome, FreedKeys, IDs, Lists, Filed, UniqueActive, AllRegistered, OnlyRow, Check.Picks;
      ghost var start, faultFree := CurrentTables(), FaultFree();
      var list := List(check, now);
      ListedRows(check, limits, start.rows, now, list);
      CheckNone(check, limits, start, now);
      assert list[..0] == [] && IDs([]) == {} by { NoIDs(); }
      for i := 0 to |list|
        invariant Valid() && store.rows.Keys == start.rows.Keys
        invariant SoFar(check, limits, start.rows, CurrentTables(), IDs(list[..i]), now)
        invariant Weakened(start.instances, providers.instances, FreedKeys(check, limits, start.rows, now, IDs(list[..i])))
        invariant faultFree == FaultFree()
        invariant faultFree ==> CurrentTables() == CheckSome(check, limits, start, now, IDs(list[..i]))
      {
        ghost var mid := CurrentTables();
        NewID(list, i);
        ActOn(check, list[i], now);
        ActedStep(check, start, mid, CurrentTables(), list[i], IDs(list[..i]), now, faultFree);
      }
      assert list[..|list|] == list;
      CheckDone(check, limits, start, now, list, CurrentTables());
      forall id | id in start.rows && InOrder(limits, start.rows[id], now)
        ensures store.rows[id] == start.rows[id]
      {
        InOrderIsNotPicked(check, limits, start.rows[id], store.rows[id], providers.instances, now);
      }
    }

    /** The rows a check looks at. */
    method List(check: Check, now: Time) returns (list: seq<Session>)
      requires Valid()
      ensures Lists(store.rows, Query(check, now), list)
    {
      match check
      case HardMax => list := store.GetActiveSessions();
      case Expiry => list := store.GetExpiredSessions(now);
      case Stuck => list := store.GetSessionsByStatus({Stopping, Provisioning});
      case FailedDestroys => list := store.GetFailedSessionsWithInstances();
    }

    /** Alerts about rows running past their reservation and the grace period; changes nothing. */
    method CheckOrphans(now: Time) returns (orphans: seq<Session>)
      requires Valid()
      ensures forall s :: s in orphans <==> s.id in store.rows && store.rows[s.id] == s && s.status == Running && now > s.expiresAt + orphanGracePeriod
    {
      var list := store.GetSessionsByStatus({Running});
      orphans := [];
      for i := 0 to |list|
        invariant forall s :: s in orphans <==> s in list[..i] && now > s.expiresAt + orphanGracePeriod
      {
        if now > list[i].expiresAt + orphanGracePeriod {
          orphans := orphans + [list[i]];
        }
      }
      assert list[..|list|] == list;
    }

    /** One pass of all checks. Whatever the providers do: an overdue row is stopped with its instance
        missing or not running, or is as it was but for the error text; every other row is exactly as
        without faults; only instances of enforced rows are touched. Without faults the pass is Enforce. The
        last two clauses say the same in the fields of the rows. */
    method RunChecks(now: Time)
      requires Valid()
      modifies store, providers
      ensures Valid() && store.rows.Keys == old(store.rows.Keys)
      ensures forall id <- store.rows :: Enforced(limits, old(store.rows)[id], store.rows[id], providers.instances, now)
      ensures Weakened(old(providers.instances), providers.instances, EnforcedKeys(limits, old(store.rows), now))
      ensures old(FaultFree()) ==> CurrentTables() == Enforce(limits, old(CurrentTables()), now)
      ensures forall id <- store.rows :: EnforcedTo(limits, old(store.rows)[id], store.rows[id], providers.instances, old(FaultFree()), now)
      ensures old(DistinctInstances(store.rows)) ==> forall id <- store.rows ::
                InstanceKept(limits, old(store.rows)[id], old(providers.instances), providers.instances, old(FaultFree()), now)
    {
      hide Acted, Enforced, Weakened, FreedKeys, CheckAll, Enforce, AllRegistered, EnforcedTo, InstanceKept, DistinctInstances;
      ghost var t0 := CurrentTables();
      RunCheck(HardMax, now);
      ghost var t1 := CurrentTables();
      StillFaultFree(HardMax, t0.rows, t1.rows, t1.instances, now);
      RunCheck(Expiry, now);
      ghost var t2 := CurrentTables();
      StillFaultFree(Expiry, t1.rows, t2.rows, t2.instances, now);
      var _ := CheckOrphans(now);
      RunCheck(Stuck, now);
      ghost var t3 := CurrentTables();
      StillFaultFree(Stuck, t2.rows, t3.rows, t3.instances, now);
      RunCheck(FailedDestroys, now);
      FourChecks(t0, t1, t2, t3, CurrentTables(), now);
      ChecksCompose(limits, t0, now);
      PassInFields(t0, CurrentTables(), old(FaultFree()), now);
    }

    lemma PassInFields(before: Tables, after: Tables, faultFree: bool, now: Time)
      requires before.rows.Keys == after.rows.Keys
      requires forall id <- after.rows :: Enforced(limits, before.rows[id], after.rows[id], after.instances, now)
      requires Weakened(before.instances, after.instances, EnforcedKeys(limits, before.rows, now))
      requires faultFree ==> after == Enforce(limits, before, now)
      ensures forall id <- after.rows :: EnforcedTo(limits, before.rows[id], after.rows[id], after.instances, faultFree, now)
      ensures DistinctInstances(before.rows) ==>
                forall id <- after.rows :: InstanceKept(limits, before.rows[id], before.instances, after.instances, faultFree, now)
    {
      hide Enforced, Weakened, EnforcedKeys, EnforcedRow, EnforcedTo, InstanceKept, DistinctInstances;
      forall id | id in after.rows
        ensures EnforcedTo(limits, before.rows[id], after.rows[id], after.instances, faultFree, now)
      {
        EnforcedInFields(limits, before.rows[id], after.rows[id], after.instances, faultFree, now);
      }
      if DistinctInstances(before.rows) {
        forall id | id in after.rows
          ensures InstanceKept(limits, before.rows[id], before.instances, after.instances, faultFree, now)
        {
          InstanceInFields(limits, before.rows, before.instances, after.instances, faultFree, now, id);
        }
      }
    }

    lemma StillFaultFree(check: Check, before: Rows, after: Rows, instances: Instances, now: Time)
      requires after.Keys == before.Keys && forall id <- after :: Acted(check, limits, before[id], after[id], instances, now)
      ensures AllRegistered(before, providers.registered) ==> AllRegistered(after, providers.registered)
    {
      hide Acted;
      forall id | id in after
        ensures after[id].provider == before[id].provider
      {
        ActedKeepsProvider(check, limits, before[id], after[id], instances, now);
      }
    }

    lemma FourChecks(t0: Tables, t1: Tables, t2: Tables, t3: Tables, t4: Tables, now: Time)
      requires t0.rows.Keys == t1.rows.Keys == t2.rows.Keys == t3.rows.Keys == t4.rows.Keys
      requires forall id <- t1.rows :: Acted(HardMax, limits, t0.rows[id], t1.rows[id], t1.instances, now)
      requires forall id <- t2.rows :: Acted(Expiry, limits, t1.rows[id], t2.rows[id], t2.instances, now)
      requires forall id <- t3.rows :: Acted(Stuck, limits, t2.rows[id], t3.rows[id], t3.instances, now)
      requires forall id <- t4.rows :: Acted(FailedDestroys, limits, t3.rows[id], t4.rows[id], t4.instances, now)
      requires Weakened(t0.instances, t1.instances, FreedKeys(HardMax, limits, t0.rows, now, t0.rows.Keys))
      requires Weakened(t1.instances, t2.instances, FreedKeys(Expiry, limits, t1.rows, now, t1.rows.Keys))
      requires Weakened(t2.instances, t3.instances, FreedKeys(Stuck, limits, t2.rows, now, t2.rows.Keys))
      requires Weakened(t3.instances, t4.instances, FreedKeys(FailedDestroys, limits, t3.rows, now, t3.rows.Keys))
      ensures forall id <- t4.rows :: Enforced(limits, t0.rows[id], t4.rows[id], t4.instances, now)
      ensures Weakened(t0.instances, t4.instances, EnforcedKeys(limits, t0.rows, now))
    {
      hide Acted, Enforced, FreedKeys, EnforcedKeys, Weakened;
      var k1, k2 := FreedKeys(HardMax, limits, t0.rows, now, t0.rows.Keys), FreedKeys(Expiry, limits, t1.rows, now, t1.rows.Keys);
      var k3, k4 := FreedKeys(Stuck, limits, t2.rows, now, t2.rows.Keys), FreedKeys(FailedDestroys, limits, t3.rows, now, t3.rows.Keys);
      WeakenedTwice(t0.instances, t1.instances, t2.instances, k1, k2);
      WeakenedTwice(t2.instances, t3.instances, t4.instances, k3, k4);
      WeakenedTwice(t0.instances, t2.instances, t4.instances, k1 + k2, k3 + k4);
      FreedIsEnforced(limits, t0, t1, t2, t3, now);
      WeakenedWider(t0.instances, t4.instances, k1 + k2 + (k3 + k4), EnforcedKeys(limits, t0.rows, now));
      forall id | id in t4.rows
        ensures Enforced(limits, t0.rows[id], t4.rows[id], t4.instances, now)
      {
        StuckActed(limits, t2.rows[id], t3.rows[id], t3.instances, t2.instances, now);
        ActedFourTimes(limits, t0.rows[id], t1.rows[id], t2.rows[id], t3.rows[id], t4.rows[id], now,
                       t1.instances, t2.instances, t4.instances, k2, k3 + k4);
      }
    }

    /** One more row acted on. */
    lemma ActedStep(check: Check, start: Tables, mid: Tables, end: Tables, s: Session, done: set<string>, now: Time, faultFree: bool)
      requires s.id in start.rows && start.rows[s.id] == s && s.id !in done && mid.rows.Keys == start.rows.Keys
      requires SoFar(check, limits, start.rows, mid, done, now)
      requires ActsOn(check, s, mid, end, now, faultFree)
      requires Weakened(start.instances, mid.instances, FreedKeys(check, limits, start.rows, now, done))
      requires faultFree ==> mid == CheckSome(check, limits, start, now, done)
      ensures end.rows.Keys == start.rows.Keys
      ensures SoFar(check, limits, start.rows, end, done + {s.id}, now)
      ensures Weakened(start.instances, end.instances, FreedKeys(check, limits, start.rows, now, done + {s.id}))
      ensures faultFree ==> end == CheckSome(check, limits, start, now, done + {s.id})
      ensures AllRegistered(mid.rows, providers.registered) == AllRegistered(end.rows, providers.registered)
    {
      hide Acted, Weakened, Check.Picks, Check.Row, FreedKeys, KeysOf;
      OneMoreKey(check, limits, start.rows, s, done, now);
      var keys := KeysOf(check, limits, s, now);
      WeakenedTwice(start.instances, mid.instances, end.instances, FreedKeys(check, limits, start.rows, now, done), keys);
      ActedKeepsProvider(check, limits, s, end.rows[s.id], end.instances, now);
      forall id | id in done && id in start.rows
        ensures Acted(check, limits, start.rows[id], end.rows[id], end.instances, now)
      {
        ActedStays(check, limits, start.rows[id], mid.rows[id], mid.instances, end.instances, keys, now);
      }
      if faultFree {
        assert end.rows == CheckSome(check, limits, start, now, done + {s.id}).rows;
        RemoveBoth(start.instances, FreedKeys(check, limits, start.rows, now, done), keys);
      }
    }
  }

  /** The filter a check lists with, apart from the time. */
  function Listed(check: Check): SessionFilter {
    match check
    case HardMax => Any().(statuses := ACTIVE)
    case Expiry => Any().(statuses := {Running})
    case Stuck => Any().(statuses := {Stopping, Provisioning})
    case FailedDestroys => Any().(statuses := {Failed}, hasProviderID := true)
  }

  function Query(check: Check, now: Time): SessionFilter {
    if check.Expiry? then Listed(check).(expiresBefore := Some(now)) else Listed(check)
  }

  /** The instance of a row the check picks and destroys. */
  function KeysOf(check: Check, limits: Limits, s: Session, now: Time): set<InstanceKey> {
    if check.Destroys() && check.Picks(limits, s, now) && s.providerID != "" then {s.Key()} else {}
  }

  /** Rows acted on so far, and rows still as they were. */
  ghost predicate SoFar(check: Check, limits: Limits, start: Rows, t: Tables, done: set<string>, now: Time)
    requires t.rows.Keys == start.Keys
  {
    && (forall id <- start :: id in done ==> Acted(check, limits, start[id], t.rows[id], t.instances, now))
    && (forall id <- start :: id !in done ==> t.rows[id] == start[id])
  }

  lemma WeakenedWider(before: Instances, after: Instances, keys: set<InstanceKey>, more: set<InstanceKey>)
    requires Weakened(before, after, keys) && keys <= more
    ensures Weakened(before, after, more)
  {
  }

  /** A row is acted on by a check only if it is enforced by the pass, even when earlier checks failed on it. */
  lemma PickedIsEnforced(limits: Limits, s: Session, a: Session, b: Session, c: Session, i1: Instances, i2: Instances, now: Time)
    requires Acted(HardMax, limits, s, a, i1, now) && Acted(Expiry, limits, a, b, i2, now) && Acted(Stuck, limits, b, c, i2, now)
    ensures a.Key() == s.Key() && b.Key() == s.Key() && c.Key() == s.Key()
    ensures HardMax.Picks(limits, s, now) || Expiry.Picks(limits, a, now) || FailedDestroys.Picks(limits, c, now) ==> Enforces(limits, s, now)
  {
    hide Dead;
  }

  lemma FreedIsEnforced(limits: Limits, t0: Tables, t1: Tables, t2: Tables, t3: Tables, now: Time)
    requires t0.rows.Keys == t1.rows.Keys == t2.rows.Keys == t3.rows.Keys
    requires forall id <- t1.rows :: Acted(HardMax, limits, t0.rows[id], t1.rows[id], t1.instances, now)
    requires forall id <- t2.rows :: Acted(Expiry, limits, t1.rows[id], t2.rows[id], t2.instances, now)
    requires forall id <- t3.rows :: Acted(Stuck, limits, t2.rows[id], t3.rows[id], t3.instances, now)
    ensures FreedKeys(HardMax, limits, t0.rows, now, t0.rows.Keys) + FreedKeys(Expiry, limits, t1.rows, now, t1.rows.Keys)
            + (FreedKeys(Stuck, limits, t2.rows, now, t2.rows.Keys) + FreedKeys(FailedDestroys, limits, t3.rows, now, t3.rows.Keys))
            <= EnforcedKeys(limits, t0.rows, now)
  {
    hide Acted, Check.Picks, Enforces, FreedKeys, EnforcedKeys;
    forall id | id in t0.rows
      ensures t1.rows[id].Key() == t0.rows[id].Key() && t2.rows[id].Key() == t0.rows[id].Key() && t3.rows[id].Key() == t0.rows[id].Key()
      ensures HardMax.Picks(limits, t0.rows[id], now) || Expiry.Picks(limits, t1.rows[id], now) || FailedDestroys.Picks(limits, t3.rows[id], now)
              ==> Enforces(limits, t0.rows[id], now)
    {
      StuckActed(limits, t2.rows[id], t3.rows[id], t3.instances, t2.instances, now);
      PickedIsEnforced(limits, t0.rows[id], t1.rows[id], t2.rows[id], t3.rows[id], t1.instances, t2.instances, now);
    }
    FreedWithin(HardMax, limits, t0.rows, t0.rows, now);
    FreedWithin(Expiry, limits, t0.rows, t1.rows, now);
    FreedWithin(FailedDestroys, limits, t0.rows, t3.rows, now);
    StuckFreesNothing(limits, t2.rows, now);
  }

  lemma FreedWithin(check: Check, limits: Limits, start: Rows, rows: Rows, now: Time)
    requires rows.Keys == start.Keys && forall id <- rows :: rows[id].Key() == start[id].Key()
    requires forall id <- rows :: check.Picks(limits, rows[id], now) ==> Enforces(limits, start[id], now)
    ensures FreedKeys(check, limits, rows, now, rows.Keys) <= EnforcedKeys(limits, start, now)
  {
    hide Check.Picks, Enforces;
  }

  lemma SameRows(rows: Rows, s: Session)
    requires s.id in rows && rows[s.id] == s
    ensures OnlyRow(rows, rows, s.id)
  {
    assert rows == rows[s.id := rows[s.id]];
  }

  /** The stale copy fits the table: nothing else became active since it was read. */
  lemma WriteBackGoesThrough(before: Rows, rows: Rows, copy: Session)
    requires Filed(before) && UniqueActive(before) && copy.id in before && OnlyRow(before, rows, copy.id)
    requires copy == before[copy.id].(error := copy.error) && rows[copy.id].SameRow(copy)
    ensures CanUpdate(rows, copy) && Overwrite(rows[copy.id], copy) == copy
  {
    hide OnlyRow;
    OtherRows(before, rows, copy.id);
    assert Overwrite(rows[copy.id], copy) == copy;
    forall id | id in rows
      ensures !Clash(rows[id], copy)
    {
      if id != copy.id {
        assert !Clash(before[id], before[copy.id]);
      }
    }
  }

  lemma OtherRows(before: Rows, after: Rows, id: string)
    requires OnlyRow(before, after, id)
    ensures before.Keys == after.Keys && forall other <- after :: other != id ==> after[other] == before[other]
  {
  }

  lemma ActedKeepsProvider(check: Check, limits: Limits, s: Session, after: Session, instances: Instances, now: Time)
    requires Acted(check, limits, s, after, instances, now)
    ensures after.provider == s.provider
  {
  }

  /** The stuck check does not depend on the instances. */
  lemma StuckActed(limits: Limits, s: Session, after: Session, a: Instances, b: Instances, now: Time)
    requires Acted(Stuck, limits, s, after, a, now)
    ensures Acted(Stuck, limits, s, after, b, now)
  {
  }

  lemma OneMoreKey(check: Check, limits: Limits, rows: Rows, s: Session, done: set<string>, now: Time)
    requires s.id in rows && rows[s.id] == s
    ensures FreedKeys(check, limits, rows, now, done + {s.id}) == FreedKeys(check, limits, rows, now, done) + KeysOf(check, limits, s, now)
  {
    hide Check.Picks;
  }

  lemma RemoveBoth(instances: Instances, a: set<InstanceKey>, b: set<InstanceKey>)
    ensures instances - a - b == instances - (a + b)
  {
  }

  lemma CheckNone(check: Check, limits: Limits, t: Tables, now: Time)
    ensures CheckSome(check, limits, t, now, {}) == t
    ensures Weakened(t.instances, t.instances, FreedKeys(check, limits, t.rows, now, {}))
  {
    assert FreedKeys(check, limits, t.rows, now, {}) == {};
  }

  lemma ListedRows(check: Check, limits: Limits, rows: Rows, now: Time, list: seq<Session>)
    requires Lists(rows, Query(check, now), list)
    ensures forall a, b :: 0 <= a < b < |list| ==> list[a].id != list[b].id
    ensures forall j :: 0 <= j < |list| ==> list[j].id in rows && rows[list[j].id] == list[j] && Query(check, now).Matches(list[j])
  {
    forall j | 0 <= j < |list|
      ensures list[j].id in rows && rows[list[j].id] == list[j] && Query(check, now).Matches(list[j])
    {
      assert list[j] in list;
    }
  }

  /** A check picks only rows it lists. */
  lemma PicksMatch(check: Check, limits: Limits, s: Session, now: Time)
    requires check.Picks(limits, s, now)
    ensures Query(check, now).Matches(s)
  {
  }

  lemma CheckDone(check: Check, limits: Limits, start: Tables, now: Time, list: seq<Session>, end: Tables)
    requires Lists(start.rows, Query(check, now), list) && Filed(start.rows) && end.rows.Keys == start.rows.Keys
    requires SoFar(check, limits, start.rows, end, IDs(list), now)
    ensures forall id <- start.rows :: Acted(check, limits, start.rows[id], end.rows[id], end.instances, now)
    ensures CheckSome(check, limits, start, now, IDs(list)) == CheckAll(check, limits, start, now)
    ensures FreedKeys(check, limits, start.rows, now, IDs(list)) == FreedKeys(check, limits, start.rows, now, start.rows.Keys)
  {
    hide Check.Picks, Query, SessionFilter.Matches, Acted, Check.Row, Lists, IDs;
    forall id | id in start.rows && id !in IDs(list)
      ensures !check.Picks(limits, start.rows[id], now)
    {
      UnlistedIsNotPicked(check, limits, start.rows, now, list, id);
    }
    forall id | id in start.rows && id !in IDs(list)
      ensures check.Row(limits, start.rows[id], now) == start.rows[id]
      ensures Acted(check, limits, start.rows[id], end.rows[id], end.instances, now)
    {
      NotPicked(check, limits, start.rows[id], end.instances, now);
    }
    assert FreedKeys(check, limits, start.rows, now, IDs(list)) == FreedKeys(check, limits, start.rows, now, start.rows.Keys);
    assert CheckSome(check, limits, start, now, IDs(list)).rows == CheckAll(check, limits, start, now).rows;
  }

  lemma UnlistedIsNotPicked(check: Check, limits: Limits, rows: Rows, now: Time, list: seq<Session>, id: string)
    requires Lists(rows, Query(check, now), list) && Filed(rows) && id in rows && id !in IDs(list)
    ensures !check.Picks(limits, rows[id], now)
  {
    hide Check.Picks, Query, SessionFilter.Matches;
    assert rows[id] !in list;
    if check.Picks(limits, rows[id], now) {
      PicksMatch(check, limits, rows[id], now);
    }
  }

  lemma NotPicked(check: Check, limits: Limits, s: Session, instances: Instances, now: Time)
    requires !check.Picks(limits, s, now)
    ensures check.Row(limits, s, now) == s && Acted(check, limits, s, s, instances, now)
  {
    hide Check.Picks;
  }
}
