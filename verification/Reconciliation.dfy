/** What one reconciliation pass and one recovery pass do, as functions of the session table and the
    instance table, and what follows from them. */
module Reconciliation {
  import opened Wrappers
  import opened Clock
  import opened Sessions
  import opened Providers

  const GHOST_GRACE_PERIOD: Duration := 10 * MINUTE

  const GHOST_ERROR := "Instance not found on provider during reconciliation"
  const NO_INSTANCE_ERROR := "Provisioning failed - no provider instance ID"
  const RESTART_ERROR := "Instance not found after restart"

  /** The IDs a full listing of a provider shows as this deployment's. An empty deployment ID claims all. */
  function OwnIDs(instances: Instances, provider: string, deploymentID: string): set<string> {
    set k | k in instances && k.provider == provider && Claims(deploymentID, instances[k].deploymentTag) :: k.id
  }

  predicate Claims(deploymentID: string, tag: string) {
    deploymentID == "" || IsOurs(tag, deploymentID)
  }

  /** The instance IDs that active rows of a provider name. */
  function ReferencedIDs(rows: Rows, provider: string): set<string> {
    set id | id in rows && References(rows[id], provider) :: rows[id].providerID
  }

  predicate References(s: Session, provider: string) {
    s.provider == provider && s.IsActive() && s.providerID != ""
  }

  /** Statuses and ages that a ghost check acts on. */
  predicate GhostEligible(s: Session, now: Time) {
    (s.status == Running || s.status == Provisioning) && now - s.createdAt >= GHOST_GRACE_PERIOD
  }

  function Ghosted(s: Session, now: Time): Session {
    s.(status := Stopped, error := GHOST_ERROR, stoppedAt := Some(now))
  }

  predicate IsGhost(s: Session, instances: Instances, deploymentID: string, now: Time) {
    && References(s, s.provider) && GhostEligible(s, now)
    && s.providerID !in OwnIDs(instances, s.provider, deploymentID)
  }

  /** Listed as ours and named by no active row. */
  predicate IsOrphan(k: InstanceKey, rows: Rows, instances: Instances, deploymentID: string) {
    && k in instances && Claims(deploymentID, instances[k].deploymentTag)
    && k.id !in ReferencedIDs(rows, k.provider)
  }

  function Orphans(rows: Rows, instances: Instances, providers: set<string>, deploymentID: string): set<InstanceKey> {
    set k | k in instances && k.provider in providers && IsOrphan(k, rows, instances, deploymentID)
  }

  function ReconciledRow(s: Session, instances: Instances, providers: set<string>, deploymentID: string, now: Time): Session {
    if s.provider in providers && IsGhost(s, instances, deploymentID, now) then Ghosted(s, now) else s
  }

  /** The session table after a fault-free pass over some providers. */
  function ReconciledRows(rows: Rows, instances: Instances, providers: set<string>, deploymentID: string, now: Time): Rows {
    map id | id in rows :: ReconciledRow(rows[id], instances, providers, deploymentID, now)
  }

  // ---- Recovery of sessions stuck by a crash ----

  /** A stuck row after the first half of recovery. */
  function RecoveredStuck(s: Session, instances: Instances, registered: set<string>, now: Time): Session {
    if !(s.status == Provisioning || s.status == Stopping) || s.provider !in registered then s
    else if s.providerID == "" then
      s.(status := Failed, error := NO_INSTANCE_ERROR, stoppedAt := Some(now))
    else if s.Key() !in instances then
      if s.status == Provisioning
      then s.(status := Failed, error := RESTART_ERROR, stoppedAt := Some(now))
      else s.(status := Stopped, stoppedAt := Some(now))
    else if !instances[s.Key()].running then s.(status := Stopped, stoppedAt := Some(now))
    else if s.status == Provisioning then Connected(s.(status := Running), instances[s.Key()])
    else s
  }

  /** The connection details a status answer carries replace the ones of the row. */
  function Connected(s: Session, i: Instance): Session {
    s.(sshHost := if i.sshHost != "" then i.sshHost else s.sshHost,
       sshPort := if i.sshPort != 0 then i.sshPort else s.sshPort,
       sshUser := if i.sshUser != "" then i.sshUser else s.sshUser)
  }

  /** Whether the first half destroys the instance of a row. */
  predicate RetriesDestroy(s: Session, instances: Instances, registered: set<string>) {
    && s.status == Stopping && s.provider in registered && s.providerID != ""
    && s.Key() in instances && instances[s.Key()].running
  }

  /** A failed row after the second half of recovery. */
  function RecoveredFailed(s: Session, instances: Instances, registered: set<string>, now: Time): Session {
    if s.status != Failed || s.providerID == "" || s.provider !in registered then s
    else if s.Key() in instances && instances[s.Key()].running
    then s.(providerID := "", status := Stopped, stoppedAt := Some(now))
    else s.(providerID := "")
  }

  predicate DestroysLeak(s: Session, instances: Instances, registered: set<string>) {
    && s.status == Failed && s.providerID != "" && s.provider in registered
    && s.Key() in instances && instances[s.Key()].running
  }

  /** The two halves of recovery: rows stuck in provisioning or stopping, then failed rows. */
  datatype Phase = OfStuck | OfFailed
  {
    function Statuses(): set<SessionStatus> {
      if OfStuck? then {Provisioning, Stopping} else {Failed}
    }

    function Row(s: Session, instances: Instances, registered: set<string>, now: Time): Session {
      if OfStuck? then RecoveredStuck(s, instances, registered, now) else RecoveredFailed(s, instances, registered, now)
    }

    predicate Destroys(s: Session, instances: Instances, registered: set<string>) {
      if OfStuck? then RetriesDestroy(s, instances, registered) else DestroysLeak(s, instances, registered)
    }
  }

  /** Both tables. */
  datatype Tables = Tables(rows: Rows, instances: Instances)

  function DestroyedKeys(phase: Phase, t: Tables, registered: set<string>, ids: set<string>): set<InstanceKey> {
    set id | id in t.rows && id in ids && phase.Destroys(t.rows[id], t.instances, registered) :: t.rows[id].Key()
  }

  /** One half of recovery, over the rows with the given IDs. */
  function RecoverSome(phase: Phase, t: Tables, registered: set<string>, now: Time, ids: set<string>): Tables {
    Tables(map id | id in t.rows :: if id in ids then phase.Row(t.rows[id], t.instances, registered, now) else t.rows[id],
           t.instances - DestroyedKeys(phase, t, registered, ids))
  }

  function RecoverAll(phase: Phase, t: Tables, registered: set<string>, now: Time): Tables {
    RecoverSome(phase, t, registered, now, t.rows.Keys)
  }

  function Recover(t: Tables, registered: set<string>, now: Time): Tables {
    RecoverAll(OfFailed, RecoverAll(OfStuck, t, registered, now), registered, now)
  }

  function Reconcile(t: Tables, providers: set<string>, deploymentID: string, now: Time): Tables {
    Tables(ReconciledRows(t.rows, t.instances, providers, deploymentID, now),
           t.instances - Orphans(t.rows, t.instances, providers, deploymentID))
  }

  /** The startup sweep: recover stuck rows, recover failed rows, reconcile every provider. */
  function Sweep(t: Tables, registered: set<string>, deploymentID: string, now: Time): Tables {
    Reconcile(Recover(t, registered, now), registered, deploymentID, now)
  }

  // ---- What a pass achieves ----

  /** Every instance listed as ours is named by an active row. */
  ghost predicate NoOrphans(t: Tables, providers: set<string>, deploymentID: string) {
    forall k <- t.instances :: k.provider in providers && Claims(deploymentID, t.instances[k].deploymentTag)
                               ==> k.id in ReferencedIDs(t.rows, k.provider)
  }

  /** Every row old enough for the ghost check has its instance. */
  ghost predicate NoGhosts(t: Tables, providers: set<string>, deploymentID: string, now: Time) {
    forall id <- t.rows :: t.rows[id].provider in providers ==> !IsGhost(t.rows[id], t.instances, deploymentID, now)
  }

  lemma ReferencedBy(rows: Rows, id: string)
    requires id in rows && References(rows[id], rows[id].provider)
    ensures rows[id].providerID in ReferencedIDs(rows, rows[id].provider)
  {
  }

  lemma OwnAfterRemoval(instances: Instances, gone: set<InstanceKey>, provider: string, deploymentID: string, id: string)
    ensures id in OwnIDs(instances - gone, provider, deploymentID)
            <==> id in OwnIDs(instances, provider, deploymentID) && InstanceKey(provider, id) !in gone
  {
    if id in OwnIDs(instances, provider, deploymentID) {
      var k :| k in instances && k.provider == provider && Claims(deploymentID, instances[k].deploymentTag) && k.id == id;
      assert k == InstanceKey(provider, id);
      if k !in gone {
        assert k in instances - gone;
      }
    }
    if id in OwnIDs(instances - gone, provider, deploymentID) {
      var k :| k in instances - gone && k.provider == provider && Claims(deploymentID, instances[k].deploymentTag) && k.id == id;
      assert k in instances;
    }
  }

  /** After a fault-free pass: no orphan and no ghost is left, for whatever tables it starts from. */
  lemma ReconcileCleans(t: Tables, providers: set<string>, deploymentID: string, now: Time)
    ensures Reconcile(t, providers, deploymentID, now).rows.Keys == t.rows.Keys
    ensures NoOrphans(Reconcile(t, providers, deploymentID, now), providers, deploymentID)
    ensures NoGhosts(Reconcile(t, providers, deploymentID, now), providers, deploymentID, now)
  {
    hide OwnIDs, ReferencedIDs, Claims, GhostEligible, References;
    var next := Reconcile(t, providers, deploymentID, now);
    forall k | k in next.instances && k.provider in providers && Claims(deploymentID, next.instances[k].deploymentTag)
      ensures k.id in ReferencedIDs(next.rows, k.provider)
    {
      OwnInstanceStays(t, providers, deploymentID, now, k);
    }
    forall id | id in next.rows && next.rows[id].provider in providers
      ensures !IsGhost(next.rows[id], next.instances, deploymentID, now)
    {
      NotGhostAfter(t, providers, deploymentID, now, id);
    }
  }

  lemma OwnInstanceStays(t: Tables, providers: set<string>, deploymentID: string, now: Time, k: InstanceKey)
    requires k in t.instances && k.provider in providers && Claims(deploymentID, t.instances[k].deploymentTag)
    requires k !in Orphans(t.rows, t.instances, providers, deploymentID)
    ensures k.id in ReferencedIDs(ReconciledRows(t.rows, t.instances, providers, deploymentID, now), k.provider)
  {
    var rows := ReconciledRows(t.rows, t.instances, providers, deploymentID, now);
    var id :| id in t.rows && References(t.rows[id], k.provider) && t.rows[id].providerID == k.id;
    assert k.id in OwnIDs(t.instances, k.provider, deploymentID);
    assert rows[id] == t.rows[id];
    ReferencedBy(rows, id);
  }

  lemma NotGhostAfter(t: Tables, providers: set<string>, deploymentID: string, now: Time, id: string)
    requires id in t.rows && t.rows[id].provider in providers
    ensures var next := Reconcile(t, providers, deploymentID, now);
            !IsGhost(next.rows[id], next.instances, deploymentID, now)
  {
    hide Claims;
    var s := t.rows[id];
    if !IsGhost(s, t.instances, deploymentID, now) && References(s, s.provider) && GhostEligible(s, now) {
      OwnAfterRemoval(t.instances, Orphans(t.rows, t.instances, providers, deploymentID), s.provider, deploymentID, s.providerID);
      ReferencedBy(t.rows, id);
    }
  }

  /** A row whose instance is listed as ours is left as it is, and so is that instance. */
  lemma BackedRowIsUntouched(t: Tables, providers: set<string>, deploymentID: string, now: Time, id: string)
    requires id in t.rows && References(t.rows[id], t.rows[id].provider)
    requires t.rows[id].Key() in t.instances && Claims(deploymentID, t.instances[t.rows[id].Key()].deploymentTag)
    ensures var next, key := Reconcile(t, providers, deploymentID, now), t.rows[id].Key();
            next.rows[id] == t.rows[id] && key in next.instances && next.instances[key] == t.instances[key]
  {
    ReferencedBy(t.rows, id);
    assert t.rows[id].providerID in OwnIDs(t.instances, t.rows[id].provider, deploymentID);
  }

  // ---- The startup sweep ----

  /** A running row with a live instance that the listing shows as ours. */
  ghost predicate Healthy(t: Tables, deploymentID: string, id: string) {
    && id in t.rows && t.rows[id].status == Running && t.rows[id].providerID != ""
    && t.rows[id].Key() in t.instances
    && Claims(deploymentID, t.instances[t.rows[id].Key()].deploymentTag)
  }

  /** A healthy session is exactly as before, and so is its instance. */
  ghost predicate KeepsSession(before: Tables, after: Tables, deploymentID: string, id: string) {
    Healthy(before, deploymentID, id) ==>
      && Healthy(after, deploymentID, id) && after.rows[id] == before.rows[id]
      && after.instances[before.rows[id].Key()] == before.instances[before.rows[id].Key()]
  }

  ghost predicate AllRegistered(rows: Rows, registered: set<string>) {
    forall id <- rows :: rows[id].provider in registered
  }

  /** Recovery never changes which instance a row names, except to let go of it. */
  lemma RecoveryKeepsKeys(phase: Phase, t: Tables, registered: set<string>, now: Time)
    ensures RecoverAll(phase, t, registered, now).rows.Keys == t.rows.Keys
    ensures forall id <- t.rows :: var s := RecoverAll(phase, t, registered, now).rows[id];
              s.providerID == "" || s.Key() == t.rows[id].Key()
  {
    forall id | id in t.rows
      ensures var s := phase.Row(t.rows[id], t.instances, registered, now); s.providerID == "" || s.Key() == t.rows[id].Key()
    {
      RowKeepsKey(phase, t.rows[id], t.instances, registered, now);
    }
    hide Phase.Row;
  }

  lemma RowKeepsKey(phase: Phase, s: Session, instances: Instances, registered: set<string>, now: Time)
    ensures var r := phase.Row(s, instances, registered, now); r.providerID == "" || r.Key() == s.Key()
  {
  }

  lemma KeptByOnePhase(phase: Phase, t: Tables, registered: set<string>, deploymentID: string, now: Time, id: string)
    requires DistinctInstances(t.rows) && Healthy(t, deploymentID, id)
    ensures var next := RecoverAll(phase, t, registered, now);
            && Healthy(next, deploymentID, id) && next.rows[id] == t.rows[id]
            && next.instances[t.rows[id].Key()] == t.instances[t.rows[id].Key()]
  {
    hide Claims;
    assert t.rows[id].Key() !in DestroyedKeys(phase, t, registered, t.rows.Keys);
  }

  lemma RecoveryKeepsDistinct(phase: Phase, t: Tables, registered: set<string>, now: Time)
    requires DistinctInstances(t.rows)
    ensures DistinctInstances(RecoverAll(phase, t, registered, now).rows)
  {
    hide RecoverAll;
    RecoveryKeepsKeys(phase, t, registered, now);
  }

  lemma HealthyAfterRecovery(t: Tables, registered: set<string>, deploymentID: string, now: Time, id: string)
    requires DistinctInstances(t.rows) && Healthy(t, deploymentID, id)
    ensures var next := Recover(t, registered, now);
            && Healthy(next, deploymentID, id) && next.rows[id] == t.rows[id]
            && next.instances[t.rows[id].Key()] == t.instances[t.rows[id].Key()]
  {
    hide RecoverAll;
    KeptByOnePhase(OfStuck, t, registered, deploymentID, now, id);
    RecoveryKeepsDistinct(OfStuck, t, registered, now);
    KeptByOnePhase(OfFailed, RecoverAll(OfStuck, t, registered, now), registered, deploymentID, now, id);
  }

  lemma StuckRowLeaves(s: Session, instances: Instances, registered: set<string>, now: Time)
    requires s.provider in registered
    ensures var r := RecoveredStuck(s, instances, registered, now); r.status != Provisioning && r.SameRow(s)
  {
  }

  lemma FailedRowLetsGo(s: Session, instances: Instances, registered: set<string>, now: Time)
    requires s.provider in registered && s.status != Provisioning
    ensures var r := RecoveredFailed(s, instances, registered, now);
            r.status != Provisioning && (r.status == Failed ==> r.providerID == "") && r.SameRow(s)
  {
  }

  /** No row is left provisioning, and no failed row still names an instance. */
  lemma NothingStuckAfterRecovery(t: Tables, registered: set<string>, now: Time, id: string)
    requires id in t.rows && t.rows[id].provider in registered
    ensures var next := Recover(t, registered, now);
            && id in next.rows
            && next.rows[id].status != Provisioning
            && (next.rows[id].status == Failed ==> next.rows[id].providerID == "")
            && next.rows[id].SameRow(t.rows[id])
  {
    hide RecoveredStuck, RecoveredFailed, Session.SameRow, DestroyedKeys;
    var stuck := RecoverAll(OfStuck, t, registered, now);
    StuckRowLeaves(t.rows[id], t.instances, registered, now);
    assert stuck.rows[id] == RecoveredStuck(t.rows[id], t.instances, registered, now);
    SameRowIs(stuck.rows[id], t.rows[id]);
    FailedRowLetsGo(stuck.rows[id], stuck.instances, registered, now);
    SameRowTransitive(RecoveredFailed(stuck.rows[id], stuck.instances, registered, now), stuck.rows[id], t.rows[id]);
  }

  lemma SameRowIs(a: Session, b: Session)
    requires a.SameRow(b)
    ensures a.provider == b.provider
  {
  }

  lemma SameRowTransitive(a: Session, b: Session, c: Session)
    requires a.SameRow(b) && b.SameRow(c)
    ensures a.SameRow(c)
  {
  }

  lemma SweepKeepsHealthy(t: Tables, registered: set<string>, deploymentID: string, now: Time, id: string)
    requires DistinctInstances(t.rows)
    ensures KeepsSession(t, Sweep(t, registered, deploymentID, now), deploymentID, id)
  {
    hide Recover, Orphans, IsGhost;
    if Healthy(t, deploymentID, id) {
      HealthyAfterRecovery(t, registered, deploymentID, now, id);
      BackedRowIsUntouched(Recover(t, registered, now), registered, deploymentID, now, id);
    }
  }

  /** Crash recovery, from any tables: after a fault-free sweep every instance listed as ours is named by
      an active row, every row old enough for the ghost check has its instance, no row is provisioning,
      no failed row names an instance, and healthy sessions and their instances are as before. */
  lemma SweepRecovers(t: Tables, registered: set<string>, deploymentID: string, now: Time)
    requires DistinctInstances(t.rows) && AllRegistered(t.rows, registered)
    ensures var next := Sweep(t, registered, deploymentID, now);
            && NoOrphans(next, registered, deploymentID)
            && NoGhosts(next, registered, deploymentID, now)
            && next.rows.Keys == t.rows.Keys
            && (forall id <- next.rows :: next.rows[id].status != Provisioning)
            && (forall id <- next.rows :: next.rows[id].status == Failed ==> next.rows[id].providerID == "")
            && (forall id :: KeepsSession(t, next, deploymentID, id))
  {
    hide RecoverAll, NoOrphans, NoGhosts, Orphans, IsGhost, KeepsSession, DistinctInstances;
    var recovered, next := Recover(t, registered, now), Sweep(t, registered, deploymentID, now);
    ReconcileCleans(recovered, registered, deploymentID, now);
    RecoveryKeepsKeys(OfStuck, t, registered, now);
    RecoveryKeepsKeys(OfFailed, RecoverAll(OfStuck, t, registered, now), registered, now);
    forall id | id in next.rows
      ensures next.rows[id].status != Provisioning && (next.rows[id].status == Failed ==> next.rows[id].providerID == "")
    {
      NothingStuckAfterRecovery(t, registered, now, id);
    }
    forall id
      ensures KeepsSession(t, next, deploymentID, id)
    {
      SweepKeepsHealthy(t, registered, deploymentID, now, id);
    }
  }

  // ---- Listings without tags ----

  /** A live, listed session is stopped as a ghost exactly when it is old enough and its listed tag is
      not the deployment's. */
  lemma LiveSessionGhosted(s: Session, instances: Instances, deploymentID: string, now: Time)
    requires s.status == Running && s.providerID != "" && s.Key() in instances
    ensures IsGhost(s, instances, deploymentID, now)
            <==> now - s.createdAt >= GHOST_GRACE_PERIOD && !Claims(deploymentID, instances[s.Key()].deploymentTag)
  {
    if s.providerID in OwnIDs(instances, s.provider, deploymentID) {
      var k :| k in instances && k.provider == s.provider && Claims(deploymentID, instances[k].deploymentTag) && k.id == s.providerID;
      assert k == s.Key();
    }
  }

  /** So a provider whose listing carries no tag loses all its sessions ten minutes after they start,
      as soon as a deployment ID is set; and none of its instances is ever an orphan. */
  lemma UntaggedListing(t: Tables, providers: set<string>, deploymentID: string, now: Time, provider: string)
    requires deploymentID != "" && provider in providers
    requires forall k <- t.instances :: k.provider == provider ==> t.instances[k].deploymentTag == ""
    ensures forall k <- t.instances :: k.provider == provider ==> k in Reconcile(t, providers, deploymentID, now).instances
    ensures forall id <- t.rows :: t.rows[id].provider == provider && References(t.rows[id], provider) && GhostEligible(t.rows[id], now)
              ==> Reconcile(t, providers, deploymentID, now).rows[id] == Ghosted(t.rows[id], now)
  {
    assert OwnIDs(t.instances, provider, deploymentID) == {};
  }

  // ---- The same in the fields of the tables ----

  /** Listed under this deployment: any instance without a deployment ID, otherwise one whose tag and the
      deployment ID agree as far as the shorter of them goes. */
  ghost predicate Tagged(i: Instance, deploymentID: string) {
    deploymentID == "" || (i.deploymentTag != "" && (i.deploymentTag <= deploymentID || deploymentID <= i.deploymentTag))
  }

  lemma ClaimsExactlyWhen(i: Instance, deploymentID: string)
    ensures Claims(deploymentID, i.deploymentTag) <==> Tagged(i, deploymentID)
  {
  }

  lemma OwnExactlyWhen(s: Session, instances: Instances, deploymentID: string)
    ensures s.providerID in OwnIDs(instances, s.provider, deploymentID)
            <==> s.Key() in instances && Tagged(instances[s.Key()], deploymentID)
  {
    hide Claims, Tagged;
    if s.Key() in instances {
      ClaimsExactlyWhen(instances[s.Key()], deploymentID);
    }
    if s.providerID in OwnIDs(instances, s.provider, deploymentID) {
      var k :| k in instances && k.provider == s.provider && Claims(deploymentID, instances[k].deploymentTag) && k.id == s.providerID;
      assert k == s.Key();
    }
  }

  lemma OwnAreTagged(instances: Instances, provider: string, deploymentID: string)
    ensures forall k <- instances :: k.provider == provider ==>
              (k.id in OwnIDs(instances, provider, deploymentID) <==> Tagged(instances[k], deploymentID))
  {
    hide Claims, Tagged;
    forall k | k in instances && k.provider == provider
      ensures k.id in OwnIDs(instances, provider, deploymentID) <==> Tagged(instances[k], deploymentID)
    {
      ClaimsExactlyWhen(instances[k], deploymentID);
      if k.id in OwnIDs(instances, provider, deploymentID) {
        var other :| other in instances && other.provider == provider && Claims(deploymentID, instances[other].deploymentTag) && other.id == k.id;
        assert other == k;
      }
    }
  }

  /** Another deployment's instances, whose tag neither begins the deployment ID nor begins with it, and
      instances without a tag are as before. */
  ghost predicate LeavesOthers(before: Instances, after: Instances, deploymentID: string) {
    forall k <- before ::
      deploymentID != "" && (before[k].deploymentTag == ""
                             || (!(before[k].deploymentTag <= deploymentID) && !(deploymentID <= before[k].deploymentTag)))
      ==> k in after && after[k] == before[k]
  }

  /** An active row names the instance. */
  ghost predicate Named(rows: Rows, k: InstanceKey) {
    k.id != "" && exists id <- rows :: rows[id].Key() == k && rows[id].status in {Pending, Provisioning, Running}
  }

  lemma ReferencedIsNamed(rows: Rows, k: InstanceKey)
    ensures k.id in ReferencedIDs(rows, k.provider) <==> Named(rows, k)
  {
    if k.id in ReferencedIDs(rows, k.provider) {
      var id :| id in rows && References(rows[id], k.provider) && rows[id].providerID == k.id;
      assert rows[id].Key() == k;
    }
  }

  /** A pass takes exactly the tagged instances that no active row names, and leaves the others as they are. */
  ghost predicate TakesUnnamed(before: Tables, after: Instances, providers: set<string>, deploymentID: string) {
    && after.Keys <= before.instances.Keys
    && forall k <- before.instances ::
         if k.provider in providers && Tagged(before.instances[k], deploymentID) && !Named(before.rows, k)
         then k !in after
         else k in after && after[k] == before.instances[k]
  }

  /** Whatever a provider does, a pass leaves every instance alone that an active row names, that is not tagged
      for the deployment, or whose provider is not asked. */
  ghost predicate KeepsNamed(before: Tables, after: Instances, providers: set<string>, deploymentID: string) {
    && after.Keys <= before.instances.Keys
    && forall k <- before.instances ::
         (k.provider in providers && Tagged(before.instances[k], deploymentID) ==> Named(before.rows, k))
         ==> k in after && after[k] == before.instances[k]
  }

  ghost predicate StopsOnlyOld(before: Rows, after: Rows, providers: set<string>, now: Time) {
    && after.Keys == before.Keys
    && forall id <- after :: StoppedOld(before[id], after[id], providers, now)
  }

  /** And it stops no row but one that names an instance and has been running or provisioning for ten minutes. */
  ghost predicate StoppedOld(s: Session, after: Session, providers: set<string>, now: Time) {
    || after == s
    || (&& s.provider in providers && s.status in {Running, Provisioning} && s.providerID != "" && now - s.createdAt >= 10 * MINUTE
        && after == s.(status := Stopped, error := GHOST_ERROR, stoppedAt := Some(now)))
  }

  lemma PassNothing(t: Tables, providers: set<string>, deploymentID: string, now: Time)
    ensures KeepsNamed(t, t.instances, providers, deploymentID) && StopsOnlyOld(t.rows, t.rows, providers, now)
  {
  }

  lemma KeptOthers(before: Tables, after: Instances, providers: set<string>, deploymentID: string)
    requires KeepsNamed(before, after, providers, deploymentID)
    ensures LeavesOthers(before.instances, after, deploymentID)
  {
    hide Named;
  }

  /** One more provider, whatever it does. */
  lemma KeepsNamedStep(start: Tables, mid: Tables, after: Tables, done: set<string>, provider: string, deploymentID: string, now: Time)
    requires provider !in done
    requires KeepsNamed(start, mid.instances, done, deploymentID) && KeepsNamed(mid, after.instances, {provider}, deploymentID)
    requires StopsOnlyOld(start.rows, mid.rows, done, now) && StopsOnlyOld(mid.rows, after.rows, {provider}, now)
    ensures KeepsNamed(start, after.instances, done + {provider}, deploymentID)
    ensures StopsOnlyOld(start.rows, after.rows, done + {provider}, now)
  {
    StopsOnlyOldStep(start.rows, mid.rows, after.rows, done, provider, now);
    hide Tagged, Named, StopsOnlyOld;
    forall k | k in start.instances && k.provider == provider
      ensures Named(mid.rows, k) == Named(start.rows, k)
    {
      SameNamed(start.rows, mid.rows, done, k, now);
    }
  }

  lemma StopsOnlyOldStep(before: Rows, mid: Rows, after: Rows, done: set<string>, provider: string, now: Time)
    requires StopsOnlyOld(before, mid, done, now) && StopsOnlyOld(mid, after, {provider}, now)
    ensures StopsOnlyOld(before, after, done + {provider}, now)
  {
  }

  lemma SameNamed(before: Rows, after: Rows, done: set<string>, k: InstanceKey, now: Time)
    requires k.provider !in done && StopsOnlyOld(before, after, done, now)
    ensures Named(after, k) == Named(before, k)
  {
    assert forall id <- before :: before[id].provider == after[id].provider && (before[id].provider == k.provider ==> before[id] == after[id]);
  }

  /** A row after a pass: stopped if it has been running or provisioning for ten minutes and its instance is
      missing or not tagged for the deployment, and as before otherwise. */
  ghost predicate PassedRow(s: Session, after: Session, instances: Instances, providers: set<string>, deploymentID: string, now: Time) {
    if s.provider in providers && s.status in {Running, Provisioning} && s.providerID != "" && now - s.createdAt >= 10 * MINUTE
       && !(s.Key() in instances && Tagged(instances[s.Key()], deploymentID))
    then after == s.(status := Stopped, error := GHOST_ERROR, stoppedAt := Some(now))
    else after == s
  }

  ghost predicate PassedRows(before: Tables, after: Rows, providers: set<string>, deploymentID: string, now: Time) {
    && after.Keys == before.rows.Keys
    && forall id <- after :: PassedRow(before.rows[id], after[id], before.instances, providers, deploymentID, now)
  }

  /** A fault-free pass, in the fields of the tables. */
  lemma PassInFields(t: Tables, providers: set<string>, deploymentID: string, now: Time)
    ensures var next := Reconcile(t, providers, deploymentID, now);
            && LeavesOthers(t.instances, next.instances, deploymentID)
            && TakesUnnamed(t, next.instances, providers, deploymentID)
            && PassedRows(t, next.rows, providers, deploymentID, now)
  {
    hide Claims, Tagged, Named, OwnIDs, ReferencedIDs;
    OrphansAreUnnamed(t, providers, deploymentID);
    OthersStay(t.instances, Orphans(t.rows, t.instances, providers, deploymentID), deploymentID);
    forall id | id in t.rows
      ensures PassedRow(t.rows[id], ReconciledRow(t.rows[id], t.instances, providers, deploymentID, now), t.instances, providers, deploymentID, now)
    {
      OwnExactlyWhen(t.rows[id], t.instances, deploymentID);
    }
  }

  lemma OrphansAreUnnamed(t: Tables, providers: set<string>, deploymentID: string)
    ensures forall k :: k in Orphans(t.rows, t.instances, providers, deploymentID)
              <==> k in t.instances && k.provider in providers && Tagged(t.instances[k], deploymentID) && !Named(t.rows, k)
  {
    hide Claims, Tagged, Named, ReferencedIDs;
    forall k | k in t.instances
      ensures Claims(deploymentID, t.instances[k].deploymentTag) <==> Tagged(t.instances[k], deploymentID)
      ensures k.id in ReferencedIDs(t.rows, k.provider) <==> Named(t.rows, k)
    {
      ClaimsExactlyWhen(t.instances[k], deploymentID);
      ReferencedIsNamed(t.rows, k);
    }
  }

  lemma OthersStay(instances: Instances, gone: set<InstanceKey>, deploymentID: string)
    requires forall k <- gone :: k in instances && Tagged(instances[k], deploymentID)
    ensures LeavesOthers(instances, instances - gone, deploymentID)
  {
  }

  /** What a startup sweep makes of a row, one case per way a crash can leave it. */
  ghost predicate SweptRow(s: Session, after: Session, instances: Instances, registered: set<string>, deploymentID: string, now: Time) {
    if s.provider !in registered then after == s
    else match s.status
      case Pending | Stopped => after == s
      case Running => PassedRow(s, after, instances, registered, deploymentID, now)
      case Provisioning =>
        if s.providerID == "" then
          after == s.(status := Failed, error := NO_INSTANCE_ERROR, stoppedAt := Some(now))
        else if s.Key() !in instances then
          after == s.(status := Failed, error := RESTART_ERROR, stoppedAt := Some(now), providerID := "")
        else if !instances[s.Key()].running then
          after == s.(status := Stopped, stoppedAt := Some(now))
        else
          var i := instances[s.Key()];
          var up := s.(status := Running,
                       sshHost := if i.sshHost != "" then i.sshHost else s.sshHost,
                       sshPort := if i.sshPort != 0 then i.sshPort else s.sshPort,
                       sshUser := if i.sshUser != "" then i.sshUser else s.sshUser);
          if Tagged(i, deploymentID) || now - s.createdAt < 10 * MINUTE then after == up
          else after == up.(status := Stopped, error := GHOST_ERROR, stoppedAt := Some(now))
      case Stopping =>
        if s.providerID == "" then
          after == s.(status := Failed, error := NO_INSTANCE_ERROR, stoppedAt := Some(now))
        else if s.Key() in instances && instances[s.Key()].running then after == s
        else after == s.(status := Stopped, stoppedAt := Some(now))
      case Failed =>
        if s.providerID != "" && s.Key() in instances && instances[s.Key()].running
        then after == s.(status := Stopped, stoppedAt := Some(now), providerID := "")
        else after == s.(providerID := "")
  }

  /** What it makes of the instance a row names: a session that starts or runs keeps it, one that ends or has
      failed loses it while it runs, and otherwise the pass takes it if it is tagged. */
  ghost predicate SweptInstance(s: Session, before: Instances, after: Instances, registered: set<string>, deploymentID: string) {
    s.providerID != "" && s.Key() in before ==>
      var i := before[s.Key()];
      if s.provider in registered && !(s.status in {Pending, Running} || (s.status == Provisioning && i.running))
         && ((s.status in {Stopping, Failed} && i.running) || Tagged(i, deploymentID))
      then s.Key() !in after
      else s.Key() in after && after[s.Key()] == i
  }

  /** The sweep, row by row and in the fields of the tables. */
  lemma SweepInFields(t: Tables, registered: set<string>, deploymentID: string, now: Time, id: string)
    requires DistinctInstances(t.rows) && id in t.rows
    ensures var next := Sweep(t, registered, deploymentID, now);
            && id in next.rows
            && SweptRow(t.rows[id], next.rows[id], t.instances, registered, deploymentID, now)
            && SweptInstance(t.rows[id], t.instances, next.instances, registered, deploymentID)
  {
    hide RecoverAll, Phase.Row, Phase.Destroys, Named, Tagged, PassedRow, DistinctInstances, SweptRow, SweptInstance, Reconcile;
    var mid := RecoverAll(OfStuck, t, registered, now);
    var rec := RecoverAll(OfFailed, mid, registered, now);
    RecoveryKeepsDistinct(OfStuck, t, registered, now);
    RecoveredOne(OfStuck, t, registered, now, id);
    RecoveredOne(OfFailed, mid, registered, now, id);
    NamedByItsRow(t, mid, rec, registered, now, id);
    PassInFields(rec, registered, deploymentID, now);
    SweptRowOf(t.rows[id], mid.rows[id], rec.rows[id], Sweep(t, registered, deploymentID, now).rows[id],
               t.instances, mid.instances, rec.instances, registered, deploymentID, now);
    SweptInstanceOf(t.rows[id], mid.rows[id], rec.rows[id], Sweep(t, registered, deploymentID, now).instances,
                    t.instances, mid.instances, rec.instances, Named(rec.rows, t.rows[id].Key()), registered, deploymentID, now);
  }

  /** After one half of recovery the instance of a row is as before, unless that half destroys it. */
  ghost predicate OwnInstance(phase: Phase, s: Session, before: Instances, after: Instances, registered: set<string>) {
    s.providerID != "" ==>
      && (s.Key() in after <==> s.Key() in before && !phase.Destroys(s, before, registered))
      && (s.Key() in after ==> after[s.Key()] == before[s.Key()])
  }

  lemma SweptRowOf(s: Session, m: Session, r: Session, after: Session, i0: Instances, i1: Instances, i2: Instances,
                   registered: set<string>, deploymentID: string, now: Time)
    requires m == OfStuck.Row(s, i0, registered, now) && OwnInstance(OfStuck, s, i0, i1, registered)
    requires r == OfFailed.Row(m, i1, registered, now) && OwnInstance(OfFailed, m, i1, i2, registered)
    requires PassedRow(r, after, i2, registered, deploymentID, now)
    ensures SweptRow(s, after, i0, registered, deploymentID, now)
  {
    hide Tagged;
    if s.status == Provisioning {
      SweptUp(s, m, r, after, i0, i1, i2, registered, deploymentID, now);
    }
  }

  lemma SweptUp(s: Session, m: Session, r: Session, after: Session, i0: Instances, i1: Instances, i2: Instances,
                registered: set<string>, deploymentID: string, now: Time)
    requires s.status == Provisioning
    requires m == OfStuck.Row(s, i0, registered, now) && OwnInstance(OfStuck, s, i0, i1, registered)
    requires r == OfFailed.Row(m, i1, registered, now) && OwnInstance(OfFailed, m, i1, i2, registered)
    requires PassedRow(r, after, i2, registered, deploymentID, now)
    ensures SweptRow(s, after, i0, registered, deploymentID, now)
  {
    hide Tagged;
  }

  lemma SweptInstanceOf(s: Session, m: Session, r: Session, i3: Instances, i0: Instances, i1: Instances, i2: Instances,
                        named: bool, registered: set<string>, deploymentID: string, now: Time)
    requires m == OfStuck.Row(s, i0, registered, now) && OwnInstance(OfStuck, s, i0, i1, registered)
    requires r == OfFailed.Row(m, i1, registered, now) && OwnInstance(OfFailed, m, i1, i2, registered)
    requires s.providerID != "" ==> (named <==> r.providerID != "" && r.status in {Pending, Provisioning, Running})
    requires i3.Keys <= i2.Keys
    requires s.Key() in i2 ==>
               if s.provider in registered && Tagged(i2[s.Key()], deploymentID) && !named then s.Key() !in i3
               else s.Key() in i3 && i3[s.Key()] == i2[s.Key()]
    ensures SweptInstance(s, i0, i3, registered, deploymentID)
  {
    hide Tagged;
  }

  /** One half of recovery decides about the instance a row names by that row alone. */
  lemma RecoveredOne(phase: Phase, t: Tables, registered: set<string>, now: Time, id: string)
    requires DistinctInstances(t.rows) && id in t.rows
    ensures var s, next := t.rows[id], RecoverAll(phase, t, registered, now);
            && id in next.rows && next.rows[id] == phase.Row(s, t.instances, registered, now)
            && OwnInstance(phase, s, t.instances, next.instances, registered)
  {
    hide Phase.Row;
  }

  lemma NamedByItsRow(t: Tables, mid: Tables, rec: Tables, registered: set<string>, now: Time, id: string)
    requires DistinctInstances(t.rows) && id in t.rows
    requires mid == RecoverAll(OfStuck, t, registered, now) && rec == RecoverAll(OfFailed, mid, registered, now)
    ensures id in rec.rows
    ensures t.rows[id].providerID != "" ==>
              (Named(rec.rows, t.rows[id].Key()) <==> rec.rows[id].providerID != "" && rec.rows[id].status in {Pending, Provisioning, Running})
  {
    hide RecoverAll;
    RecoveryKeepsKeys(OfStuck, t, registered, now);
    RecoveryKeepsKeys(OfFailed, mid, registered, now);
  }

  ghost predicate NoRowNames(rows: Rows, k: InstanceKey) {
    forall id <- rows :: rows[id].providerID != "" ==> rows[id].Key() != k
  }

  /** An instance no row names is destroyed exactly when its provider is registered and it is tagged. */
  ghost predicate SweptUnnamed(before: Tables, after: Instances, registered: set<string>, deploymentID: string) {
    && after.Keys <= before.instances.Keys
    && forall k <- before.instances :: NoRowNames(before.rows, k) ==>
         if k.provider in registered && Tagged(before.instances[k], deploymentID) then k !in after
         else k in after && after[k] == before.instances[k]
  }

  lemma SweepTakesUnnamed(t: Tables, registered: set<string>, deploymentID: string, now: Time)
    ensures SweptUnnamed(t, Sweep(t, registered, deploymentID, now).instances, registered, deploymentID)
  {
    hide RecoverAll, Tagged, Reconcile, NoRowNames, LeavesOthers, Named, PassedRow;
    var mid := RecoverAll(OfStuck, t, registered, now);
    var rec := RecoverAll(OfFailed, mid, registered, now);
    RecoveryKeepsUnnamed(OfStuck, t, registered, now);
    RecoveryKeepsUnnamed(OfFailed, mid, registered, now);
    PassInFields(rec, registered, deploymentID, now);
    forall k | NoRowNames(rec.rows, k)
      ensures !Named(rec.rows, k)
    {
      NotNamed(rec.rows, k);
    }
  }

  lemma NotNamed(rows: Rows, k: InstanceKey)
    requires NoRowNames(rows, k)
    ensures !Named(rows, k)
  {
  }

  /** Recovery destroys only what rows name, and makes no row name anything new. */
  lemma RecoveryKeepsUnnamed(phase: Phase, t: Tables, registered: set<string>, now: Time)
    ensures var next := RecoverAll(phase, t, registered, now);
            && next.instances.Keys <= t.instances.Keys
            && forall k <- t.instances :: NoRowNames(t.rows, k) ==>
                 k in next.instances && next.instances[k] == t.instances[k] && NoRowNames(next.rows, k)
  {
    hide RecoverAll, Phase.Destroys, Phase.Row;
    RecoveryKeepsKeys(phase, t, registered, now);
    DestroysOnlyNamed(phase, t, registered, now);
  }

  lemma DestroysOnlyNamed(phase: Phase, t: Tables, registered: set<string>, now: Time)
    ensures var next := RecoverAll(phase, t, registered, now);
            && next.instances.Keys <= t.instances.Keys
            && forall k <- t.instances :: NoRowNames(t.rows, k) ==> k in next.instances && next.instances[k] == t.instances[k]
  {
    hide Phase.Row;
    assert forall id <- t.rows :: phase.Destroys(t.rows[id], t.instances, registered) ==> t.rows[id].providerID != "";
  }
}
