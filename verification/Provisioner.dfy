/** Creating sessions in two phases, and ending them: the destroy call with its verification loop, and
    failing a session. */
module Provisioner {
  import opened Wrappers
  import opened Clock
  import opened Sessions
  import opened SessionStorage
  import opened Providers
  import opened Reconciliation
  import opened Enforcement
  import opened Reconciler

  datatype DestroyError = SessionNotFound | ProviderNotFound | Cancelled | NotVerified
  {
    function Text(): string {
      match this
      case SessionNotFound => "session not found"
      case ProviderNotFound => "provider not found"
      case Cancelled => "context canceled"
      case NotVerified => "failed to verify destruction"
    }
  }

  const PROVIDER_MISSING := "provider not found: "
  const CREATE_FAILED := "provider create failed: "
  const DEFAULT_USER := "root"

  datatype LaunchResult = Refused | NoProvider | DiskRejected | LaunchFailed | NotRecorded | Launched(session: Session)

  /** Whether the second and the third write of a launch go through. */
  datatype Writes = Writes(marked: bool, recorded: bool)

  function FailedRow(s: Session, reason: string, now: Time): Session {
    s.(status := Failed, error := reason, stoppedAt := Some(now))
  }

  function LaunchedRow(s: Session, p: ProviderInstance): Session {
    s.(status := Provisioning, providerID := p.id, sshHost := p.instance.sshHost, sshPort := p.instance.sshPort,
       sshUser := if p.instance.sshUser == "" then DEFAULT_USER else p.instance.sshUser)
  }

  /** What a launch makes of the tables, for each way it can end. Its row is in the table before the
      provider is asked; at most one instance appears, under a new key, and only a launched row names it. */
  ghost predicate LaunchLeads(before: Tables, after: Tables, s: Session, p: ProviderInstance, writes: Writes, reliable: bool,
                              r: LaunchResult, now: Time)
  {
    var key := InstanceKey(s.provider, p.id);
    match r
    case Refused => after == before
    case NoProvider => after == before.(rows := before.rows[s.id := FailedRow(s, PROVIDER_MISSING + s.provider, now)])
    case DiskRejected => after == before.(rows := before.rows[s.id := s])
    case LaunchFailed =>
      && after.rows == before.rows[s.id := FailedRow(s.(status := Provisioning), CREATE_FAILED, now)]
      && (after.instances == before.instances || NewInstance(before, after, key, p))
    case NotRecorded =>
      && !writes.recorded && p.id != "" && key !in before.instances
      && after.rows == before.rows[s.id := if writes.marked then s.(status := Provisioning) else s]
      && DestroyMayLead(before.instances[key := p.instance], after.instances, key, reliable)
    case Launched(row) =>
      writes.recorded && row == LaunchedRow(s, p) && after.rows == before.rows[s.id := row] && NewInstance(before, after, key, p)
  }

  ghost predicate NewInstance(before: Tables, after: Tables, key: InstanceKey, p: ProviderInstance) {
    p.id != "" && key !in before.instances && after.instances == before.instances[key := p.instance]
  }

  /** One row rewritten, the rest untouched. */
  ghost predicate OnlyRow(before: Rows, after: Rows, id: string) {
    id in before && id in after && after == before[id := after[id]]
  }

  class Provisioner {
    const store: SessionStore
    const providers: ProviderRegistry
    const destroyRetries: int

    constructor (store: SessionStore, providers: ProviderRegistry, destroyRetries: int)
      ensures this.store == store && this.providers == providers && this.destroyRetries == destroyRetries
    {
      this.store, this.providers, this.destroyRetries := store, providers, destroyRetries;
    }

    function CurrentTables(): Tables
      reads store, providers
    {
      Tables(store.rows, providers.instances)
    }

    /** The row first, then the provider, then the row again. `p` is what the provider would create. When the
        instance cannot be recorded it is destroyed again, if the provider will. */
    method CreateSession(s: Session, p: ProviderInstance, diskFits: bool, writes: Writes, now: Time) returns (r: LaunchResult)
      requires store.Valid() && s.status == Pending && s.providerID == "" && p.instance.sessionTag == s.id
      modifies store, providers
      ensures store.Valid() && LaunchLeads(old(CurrentTables()), CurrentTables(), s, p, writes, providers.reliable, r, now)
      ensures r.Refused? <==> s.id in old(store.rows) || Clashes(old(store.rows), s)
      ensures r.NoProvider? ==> s.provider !in providers.registered
      ensures (r.LaunchFailed? || r.NotRecorded?) && providers.reliable ==> providers.instances == old(providers.instances)
      ensures r.Launched? ==>
                r.session == s.(status := Provisioning, providerID := p.id, sshHost := p.instance.sshHost, sshPort := p.instance.sshPort,
                                sshUser := if p.instance.sshUser != "" then p.instance.sshUser else "root")
    {
      hide Clashes, Weakened, UniqueActive, Filed, DestroyMayLead;
      var clash := store.FindClash(s);
      if clash {
        return Refused;
      }
      var err := store.Create(s);
      if err.Some? {
        return Refused;
      }
      if s.provider !in providers.registered {
        FailSession(s, PROVIDER_MISSING + s.provider, now);
        return NoProvider;
      }
      if !diskFits {
        return DiskRejected;
      }
      r := Launch(s, p, writes, now);
    }

    /** The second and third write of a launch and the provider call between them. */
    method Launch(s: Session, p: ProviderInstance, writes: Writes, now: Time) returns (r: LaunchResult)
      requires store.Valid() && s.id in store.rows && store.rows[s.id] == s
      requires s.status == Pending && s.providerID == "" && p.instance.sessionTag == s.id
      modifies store, providers
      ensures store.Valid() && (r.LaunchFailed? || r.NotRecorded? || r.Launched?)
      ensures LaunchLeads(old(CurrentTables()), CurrentTables(), s, p, writes, providers.reliable, r, now)
      ensures (r.LaunchFailed? || r.NotRecorded?) && providers.reliable ==> providers.instances == old(providers.instances)
    {
      hide Weakened, UniqueActive, Filed, DestroyMayLead;
      ghost var start, rows := providers.instances, store.rows;
      var copy := s.(status := Provisioning);
      if writes.marked {
        Save(store, copy);
      }
      assert store.rows == rows[s.id := if writes.marked then copy else s];
      var created := providers.CreateInstance(s.provider, p.id, p.instance);
      if created.Err? {
        FailSession(copy, CREATE_FAILED, now);
        return LaunchFailed;
      }
      copy := copy.(providerID := created.value.id, sshHost := created.value.instance.sshHost,
                    sshPort := created.value.instance.sshPort, sshUser := created.value.instance.sshUser);
      if copy.sshUser == "" {
        copy := copy.(sshUser := DEFAULT_USER);
      }
      if !writes.recorded {
        var _ := providers.DestroyInstance(s.provider, created.value.id);
        CreatedAndGone(start, InstanceKey(s.provider, p.id), p.instance, providers.instances, providers.reliable);
        return NotRecorded;
      }
      Save(store, copy);
      r := Launched(copy);
    }

    /** Destroy and check, as often as allowed. Success means the provider reported the instance missing
        or not running, or there was none. A reliable provider is done after the first round. */
    method DestroyWithVerification(s: Session) returns (err: Option<DestroyError>)
      modifies providers
      ensures Weakened(old(providers.instances), providers.instances, if s.providerID == "" then {} else {s.Key()})
      ensures err.None? ==> Dead(s, providers.instances)
      ensures s.providerID == "" ==> err.None?
      ensures err != Some(SessionNotFound) && err != Some(ProviderNotFound)
      ensures providers.reliable && destroyRetries > 0 ==> err.None?
      ensures providers.reliable && destroyRetries > 0 && s.providerID != "" ==> providers.instances == old(providers.instances) - {s.Key()}
      ensures s.providerID == "" ==> providers.instances == old(providers.instances)
    {
      hide Weakened, DestroyMayLead;
      WeakenedNot(providers.instances, if s.providerID == "" then {} else {s.Key()});
      if s.providerID == "" {
        return None;
      }
      var attempt := 0;
      while attempt < destroyRetries
        invariant Weakened(old(providers.instances), providers.instances, {s.Key()})
        invariant providers.reliable ==> attempt == 0
        invariant attempt == 0 ==> providers.instances == old(providers.instances)
      {
        label call:
        var _ := providers.DestroyInstance(s.provider, s.providerID);
        WeakenedByCall(old@call(providers.instances), providers.instances, s.Key(), providers.reliable);
        GoneByCall(old@call(providers.instances), providers.instances, s.Key(), providers.reliable);
        WeakenedTwice(old(providers.instances), old@call(providers.instances), providers.instances, {s.Key()}, {s.Key()});
        assert {s.Key()} + {s.Key()} == {s.Key()};
        var cancelled: bool := *;
        if cancelled && !providers.reliable {
          return Some(Cancelled);
        }
        var status := providers.GetInstanceStatus(s.provider, s.providerID);
        if status.Err? {
          if status.error == InstanceNotFound {
            return None;
          }
        } else if !status.value.running {
          return None;
        }
        attempt := attempt + 1;
      }
      err := Some(NotVerified);
    }

    /** Ends a session, whatever the providers do. A stopping or stopped session is left alone; a failed
        one lets go of its instance after one attempt at it; an active one ends stopped and dead, or is
        left stopping with an error returned. */
    method DestroySession(id: string, now: Time) returns (err: Option<DestroyError>)
      requires store.Valid()
      modifies store, providers
      ensures store.Valid()
      ensures err == Some(SessionNotFound) <==> id !in old(store.rows)
      ensures id !in old(store.rows) ==> store.rows == old(store.rows)
      ensures id in old(store.rows) ==> OnlyRow(old(store.rows), store.rows, id)
      ensures id in old(store.rows) ==>
                var s, r := old(store.rows)[id], store.rows[id];
                if s.IsActive() then
                  && (err.None? ==> r == Ended(s, now) && Dead(s, providers.instances))
                  && (err.Some? ==> r == s.(status := Stopping))
                else
                  && err.None?
                  && r == if s.status == Failed && s.providerID != "" then LetGo(s, now) else s
      ensures id in old(store.rows) && old(store.rows)[id].status == Failed && old(store.rows)[id].providerID != "" ==>
                LetsGo(old(CurrentTables()), CurrentTables(), old(store.rows)[id], providers.registered, providers.reliable, now)
      ensures Weakened(old(providers.instances), providers.instances,
                       if id in old(store.rows) then DestroyKeys(old(store.rows)[id]) else {})
      ensures id in old(store.rows) && providers.reliable && destroyRetries > 0 && old(store.rows)[id].provider in providers.registered ==>
                && err.None?
                && providers.instances == old(providers.instances) - DestroyKeys(old(store.rows)[id])
    {
      hide Weakened, Dead, Filed, UniqueActive, DestroyMayLead;
      ghost var start := providers.instances;
      WeakenedNot(start, if id in store.rows then DestroyKeys(store.rows[id]) else {});
      assert start - {} == start;
      assert id in store.rows ==> store.rows[id].id == id by { FiledAt(store.rows, id); }
      assert id in store.rows ==> store.rows == store.rows[id := store.rows[id]];
      var got := store.Get(id);
      if got.Err? {
        return Some(SessionNotFound);
      }
      var s := got.value;
      if s.IsTerminal() || s.status == Stopping {
        if s.status == Failed && s.providerID != "" {
          if s.provider in providers.registered {
            var _ := providers.DestroyInstance(s.provider, s.providerID);
            WeakenedByCall(start, providers.instances, s.Key(), providers.reliable);
            GoneByCall(start, providers.instances, s.Key(), providers.reliable);
          }
          Save(store, s.(providerID := "", status := Stopped, stoppedAt := Some(now)));
        }
        return None;
      }
      var copy := s.(status := Stopping);
      Save(store, copy);
      if copy.provider !in providers.registered {
        return Some(ProviderNotFound);
      }
      err := DestroyWithVerification(copy);
      if err.Some? {
        return;
      }
      copy := copy.(status := Stopped, stoppedAt := Some(now));
      Save(store, copy);
      DeadOf(s, s.(status := Stopping), providers.instances);
    }

    /** Marks a session failed after one attempt to destroy its instance; it goes on naming it. */
    method FailSession(s: Session, reason: string, now: Time)
      requires store.Valid() && s.id in store.rows && s.SameRow(store.rows[s.id])
      modifies store, providers
      ensures store.Valid()
      ensures store.rows == old(store.rows)[s.id := FailedRow(s, reason, now)]
      ensures s.providerID == "" ==> providers.instances == old(providers.instances)
      ensures Weakened(old(providers.instances), providers.instances, if s.providerID == "" then {} else {s.Key()})
      ensures providers.reliable && s.providerID != "" && s.provider in providers.registered
              ==> providers.instances == old(providers.instances) - {s.Key()}
    {
      hide Weakened, Filed, UniqueActive, DestroyMayLead;
      ghost var start := providers.instances;
      WeakenedNot(start, if s.providerID == "" then {} else {s.Key()});
      if s.providerID != "" && s.provider in providers.registered {
        var _ := providers.DestroyInstance(s.provider, s.providerID);
        WeakenedByCall(start, providers.instances, s.Key(), providers.reliable);
        GoneByCall(start, providers.instances, s.Key(), providers.reliable);
      }
      Save(store, s.(status := Failed, error := reason, stoppedAt := Some(now)));
    }
  }

  /** The instance a destroy call on a row goes for. */
  function DestroyKeys(s: Session): set<InstanceKey> {
    if s.providerID != "" && (s.IsActive() || s.status == Failed) then {s.Key()} else {}
  }

  lemma FiledAt(rows: Rows, id: string)
    requires Filed(rows)
    ensures id in rows ==> rows[id].id == id
  {
  }

  lemma CreatedAndGone(before: Instances, key: InstanceKey, instance: Instance, after: Instances, reliable: bool)
    requires key !in before && DestroyMayLead(before[key := instance], after, key, reliable)
    ensures reliable ==> after == before
  {
    if reliable {
      GoneByCall(before[key := instance], after, key, reliable);
      assert before[key := instance] - {key} == before;
    }
  }

  lemma WeakenedNot(instances: Instances, keys: set<InstanceKey>)
    ensures Weakened(instances, instances, keys)
  {
  }

  lemma SameOutside(before: Instances, after: Instances, key: InstanceKey, k: InstanceKey)
    requires after - {key} == before - {key} && k != key
    ensures k in after <==> k in before
    ensures k in after ==> after[k] == before[k]
  {
    assert k in after <==> k in after - {key};
    assert k in before <==> k in before - {key};
    if k in after {
      assert (after - {key})[k] == (before - {key})[k];
    }
  }

  lemma WeakenedByCall(before: Instances, after: Instances, key: InstanceKey, reliable: bool)
    requires DestroyMayLead(before, after, key, reliable)
    ensures Weakened(before, after, {key})
  {
    forall k | k != key
      ensures k in after <==> k in before
      ensures k in after ==> after[k] == before[k]
    {
      SameOutside(before, after, key, k);
    }
  }

  lemma GoneByCall(before: Instances, after: Instances, key: InstanceKey, reliable: bool)
    requires DestroyMayLead(before, after, key, reliable)
    ensures reliable ==> after == before - {key}
  {
    forall k | k != key
      ensures k in after <==> k in before
      ensures k in after ==> after[k] == before[k]
    {
      SameOutside(before, after, key, k);
    }
  }
}
