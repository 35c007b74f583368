/** The code inside the protocol. The passes of the manager and of the startup sweep, run from any reachable
    world, write only what any actor may write, so every reachable world's invariant holds after them; and
    whatever a launch does is a run of protocol steps. */
module ProtocolPasses {
  import opened Clock
  import opened Sessions
  import opened Providers
  import opened Reconciliation
  import opened SessionStorage
  import opened Enforcement
  import opened Provisioner
  import opened Protocol

  /** Tables reached by writes any actor may make, and by instances that only stop or vanish. */
  ghost predicate Permitted(before: Tables, after: Tables) {
    && after.rows.Keys == before.rows.Keys
    && (forall id <- before.rows :: MayWrite(before.rows[id], after.rows[id]))
    && Weakened(before.instances, after.instances, before.instances.Keys)
  }

  lemma PermittedKeepsInv(w: World, after: Tables)
    requires Inv(w) && Permitted(w.tables, after)
    ensures Inv(w.(tables := after))
  {
    hide Tracked, MayWrite, MakersTracked, PassTracked;
    forall id | id in after.rows
      ensures Tracked(w.origin, w.owner, after.rows[id]) && after.rows[id].id == id
    {
      RowOf(w, id);
      WriteIsTracked(w.origin, w.owner, w.Rows()[id], after.rows[id]);
      assert after.rows[id].id == w.Rows()[id].id by { SameID(w.Rows()[id], after.rows[id]); }
    }
  }

  lemma SameID(copy: Session, updated: Session)
    requires MayWrite(copy, updated)
    ensures updated.id == copy.id
  {
  }

  lemma EnforcedMayWrite(limits: Limits, s: Session, after: Session, instances: Instances, now: Time)
    requires Enforced(limits, s, after, instances, now)
    ensures MayWrite(s, after)
  {
    hide Check.Picks;
  }

  /** A manager pass, with whatever provider faults. */
  lemma EnforcementStaysInside(w: World, limits: Limits, after: Tables)
    requires Inv(w) && after.rows.Keys == w.Rows().Keys
    requires forall id <- after.rows :: Enforced(limits, w.Rows()[id], after.rows[id], after.instances, w.now)
    requires Weakened(w.Live(), after.instances, EnforcedKeys(limits, w.Rows(), w.now))
    ensures Inv(w.(tables := after))
  {
    hide Inv, Enforced, EnforcedKeys, MayWrite;
    forall id | id in after.rows
      ensures MayWrite(w.Rows()[id], after.rows[id])
    {
      EnforcedMayWrite(limits, w.Rows()[id], after.rows[id], after.instances, w.now);
    }
    PermittedKeepsInv(w, after);
  }

  lemma PhaseMayWrite(phase: Phase, s: Session, instances: Instances, registered: set<string>, now: Time)
    ensures MayWrite(s, phase.Row(s, instances, registered, now))
  {
  }

  lemma ReconciledMayWrite(s: Session, instances: Instances, providers: set<string>, deploymentID: string, now: Time)
    ensures MayWrite(s, ReconciledRow(s, instances, providers, deploymentID, now))
  {
    hide IsGhost;
  }

  lemma PermittedTwice(a: Tables, b: Tables, c: Tables)
    requires Permitted(a, b) && Permitted(b, c)
    ensures Permitted(a, c)
  {
    forall id | id in a.rows
      ensures MayWrite(a.rows[id], c.rows[id])
    {
      MayWriteTwice(a.rows[id], b.rows[id], c.rows[id]);
    }
    hide MayWrite;
  }

  lemma MayWriteTwice(a: Session, b: Session, c: Session)
    requires MayWrite(a, b) && MayWrite(b, c)
    ensures MayWrite(a, c)
  {
  }

  lemma RecoveryPermitted(phase: Phase, t: Tables, registered: set<string>, now: Time)
    ensures Permitted(t, RecoverAll(phase, t, registered, now))
  {
    hide MayWrite, Phase.Row, DestroyedKeys;
    forall id | id in t.rows
      ensures MayWrite(t.rows[id], phase.Row(t.rows[id], t.instances, registered, now))
    {
      PhaseMayWrite(phase, t.rows[id], t.instances, registered, now);
    }
  }

  lemma ReconcilePermitted(t: Tables, providers: set<string>, deploymentID: string, now: Time)
    ensures Permitted(t, Reconcile(t, providers, deploymentID, now))
  {
    hide MayWrite, ReconciledRow, Orphans;
    forall id | id in t.rows
      ensures MayWrite(t.rows[id], ReconciledRow(t.rows[id], t.instances, providers, deploymentID, now))
    {
      ReconciledMayWrite(t.rows[id], t.instances, providers, deploymentID, now);
    }
  }

  /** A startup sweep. */
  lemma SweepStaysInside(w: World, registered: set<string>, deploymentID: string)
    requires Inv(w)
    ensures Inv(w.(tables := Sweep(w.tables, registered, deploymentID, w.now)))
  {
    hide Inv, Permitted, RecoverAll, Reconcile;
    var stuck := RecoverAll(OfStuck, w.tables, registered, w.now);
    RecoveryPermitted(OfStuck, w.tables, registered, w.now);
    RecoveryPermitted(OfFailed, stuck, registered, w.now);
    var recovered := Recover(w.tables, registered, w.now);
    PermittedTwice(w.tables, stuck, recovered);
    ReconcilePermitted(recovered, registered, deploymentID, w.now);
    PermittedTwice(w.tables, recovered, Sweep(w.tables, registered, deploymentID, w.now));
    PermittedKeepsInv(w, Sweep(w.tables, registered, deploymentID, w.now));
  }

  // ---- Launching ----

  lemma StepFirst(w: World, step: Step, next: World, rest: seq<Step>, end: World, deploymentID: string)
    requires Enabled(w, step) && Apply(w, step, deploymentID) == next && Leads(next, rest, end, deploymentID)
    ensures Leads(w, [step] + rest, end, deploymentID)
  {
    hide Enabled, Apply;
    assert ([step] + rest)[1..] == rest;
  }

  lemma LeadsNowhere(w: World, deploymentID: string)
    ensures Leads(w, [], w, deploymentID)
  {
  }

  /** A run of steps leads to a world with these tables. */
  ghost predicate CanLeadTo(w: World, tables: Tables, deploymentID: string) {
    exists steps: seq<Step>, end: World :: Leads(w, steps, end, deploymentID) && end.tables == tables
  }

  lemma ThenCanLeadTo(w: World, step: Step, tables: Tables, deploymentID: string)
    requires Enabled(w, step) && CanLeadTo(Apply(w, step, deploymentID), tables, deploymentID)
    ensures CanLeadTo(w, tables, deploymentID)
  {
    hide Enabled, Apply, Leads;
    var steps: seq<Step>, end: World :| Leads(Apply(w, step, deploymentID), steps, end, deploymentID) && end.tables == tables;
    StepFirst(w, step, Apply(w, step, deploymentID), steps, end, deploymentID);
  }

  lemma IsThere(w: World, deploymentID: string)
    ensures CanLeadTo(w, w.tables, deploymentID)
  {
    hide Leads;
    LeadsNowhere(w, deploymentID);
  }

  /** A session just created by a create call: its row, the call's copy of it, and how far the call is. */
  ghost predicate Fresh(w: World, start: World, row: Session, copy: Session, stage: Stage) {
    && row.id !in start.Rows() && w.Rows() == start.Rows()[row.id := row] && w.Live() == start.Live()
    && copy.SameRow(row) && copy.id in w.makers && w.makers[copy.id] == Maker(copy, stage)
    && w.born == start.born && w.now == start.now
  }

  lemma CreatedFresh(w: World, s: Session, deploymentID: string)
    requires Enabled(w, CreateRow(s))
    ensures Fresh(Apply(w, CreateRow(s), deploymentID), w, s, s, RowCreated)
  {
  }

  lemma MarkedFresh(w: World, start: World, s: Session, stored: bool, deploymentID: string)
    requires Fresh(w, start, s, s, RowCreated)
    ensures Enabled(w, MarkProvisioning(s.id, stored))
    ensures Fresh(Apply(w, MarkProvisioning(s.id, stored), deploymentID), start, if stored then s.(status := Provisioning) else s,
                  s.(status := Provisioning), MarkedProvisioning)
  {
  }

  /** The provider creates the instance and says so, or not. */
  ghost predicate Asked(w: World, start: World, row: Session, copy: Session, p: ProviderInstance, stage: Stage) {
    && row.id !in start.Rows() && w.Rows() == start.Rows()[row.id := row] && w.now == start.now
    && w.Live() == start.Live()[InstanceKey(copy.provider, p.id) := p.instance]
    && copy.SameRow(row) && copy.id in w.makers && w.makers[copy.id] == Maker(copy, stage)
  }

  lemma CallAsks(w: World, start: World, row: Session, copy: Session, p: ProviderInstance, reported: bool, deploymentID: string)
    requires Fresh(w, start, row, copy, MarkedProvisioning)
    requires p.id != "" && p.instance.sessionTag == copy.id && InstanceKey(copy.provider, p.id) !in start.born
    ensures var key := InstanceKey(copy.provider, p.id);
            var call := CallCreate(copy.id, key, p.instance, reported);
            Enabled(w, call) && Asked(Apply(w, call, deploymentID), start, row, copy, p, if reported then InstanceCreated(key) else CreateFailed)
  {
  }

  lemma LaunchedTables(w: World, start: World, row: Session, s: Session, p: ProviderInstance, writes: Writes, reliable: bool, after: Tables, deploymentID: string)
    requires Fresh(w, start, row, s.(status := Provisioning), MarkedProvisioning)
    requires LaunchLeads(start.tables, after, s, p, writes, reliable, Launched(LaunchedRow(s, p)), start.now)
    requires p.instance.sessionTag == s.id && InstanceKey(s.provider, p.id) !in start.born
    ensures CanLeadTo(w, after, deploymentID)
  {
    var key, copy := InstanceKey(s.provider, p.id), s.(status := Provisioning);
    var call := CallCreate(s.id, key, p.instance, true);
    CallAsks(w, start, row, copy, p, true, deploymentID);
    var asked := Apply(w, call, deploymentID);
    RecordedTables(asked, start, row, s, p, after, deploymentID);
    hide Enabled, Apply, CanLeadTo, Fresh, Asked;
    ThenCanLeadTo(w, call, after, deploymentID);
  }

  lemma RecordedTables(w: World, start: World, row: Session, s: Session, p: ProviderInstance, after: Tables, deploymentID: string)
    requires Asked(w, start, row, s.(status := Provisioning), p, InstanceCreated(InstanceKey(s.provider, p.id)))
    requires after.rows == start.Rows()[s.id := LaunchedRow(s, p)] && after.instances == w.Live()
    ensures CanLeadTo(w, after, deploymentID)
  {
    var step := RecordInstance(s.id, LaunchedRow(s, p), true);
    var recorded := Apply(w, step, deploymentID);
    assert recorded.tables == after;
    hide Apply, CanLeadTo;
    IsThere(recorded, deploymentID);
    ThenCanLeadTo(w, step, after, deploymentID);
  }

  lemma UnrecordedTables(w: World, start: World, row: Session, s: Session, p: ProviderInstance, writes: Writes, reliable: bool, after: Tables, deploymentID: string)
    requires Fresh(w, start, row, s.(status := Provisioning), MarkedProvisioning)
    requires row == if writes.marked then s.(status := Provisioning) else s
    requires LaunchLeads(start.tables, after, s, p, writes, reliable, NotRecorded, start.now)
    requires p.instance.sessionTag == s.id && InstanceKey(s.provider, p.id) !in start.born
    ensures CanLeadTo(w, after, deploymentID)
  {
    var key, copy := InstanceKey(s.provider, p.id), s.(status := Provisioning);
    var call := CallCreate(s.id, key, p.instance, true);
    CallAsks(w, start, row, copy, p, true, deploymentID);
    var asked := Apply(w, call, deploymentID);
    AbandonedTables(asked, start, row, s, p, after, reliable, deploymentID);
    hide Enabled, Apply, CanLeadTo, Fresh, Asked;
    ThenCanLeadTo(w, call, after, deploymentID);
  }

  lemma AbandonedTables(w: World, start: World, row: Session, s: Session, p: ProviderInstance, after: Tables, reliable: bool, deploymentID: string)
    requires Asked(w, start, row, s.(status := Provisioning), p, InstanceCreated(InstanceKey(s.provider, p.id)))
    requires after.rows == w.Rows() && DestroyMayLead(w.Live(), after.instances, InstanceKey(s.provider, p.id), reliable)
    ensures CanLeadTo(w, after, deploymentID)
  {
    hide DestroyMayLead, StoreRow;
    var key := InstanceKey(s.provider, p.id);
    var step := RecordInstance(s.id, LaunchedRow(s, p), false);
    var abandoned := Apply(w, step, deploymentID);
    var effect := EffectOf(w.Live(), after.instances, key, reliable);
    var cleanup := ProviderChanges(key, effect);
    var cleaned := Apply(abandoned, cleanup, deploymentID);
    assert cleaned.tables == after;
    hide Apply, CanLeadTo;
    IsThere(cleaned, deploymentID);
    ThenCanLeadTo(abandoned, cleanup, after, deploymentID);
    ThenCanLeadTo(w, step, after, deploymentID);
  }

  /** What a destroy call did, as a change at the provider. */
  ghost function EffectOf(before: Instances, after: Instances, key: InstanceKey, reliable: bool): (effect: Effect)
    requires DestroyMayLead(before, after, key, reliable)
    ensures after == Struck(before, key, effect)
  {
    SameElsewhere(before, after, key);
    if key !in after then Removed else if after[key] == before[key] then Nothing else StoppedOnly
  }

  lemma SameElsewhere(before: Instances, after: Instances, key: InstanceKey)
    requires after - {key} == before - {key}
    ensures forall k :: k != key ==> (k in after <==> k in before) && (k in after ==> after[k] == before[k])
  {
    forall k | k != key
      ensures (k in after <==> k in before) && (k in after ==> after[k] == before[k])
    {
      SameOutside(before, after, key, k);
    }
  }

  lemma FailedTables(w: World, start: World, row: Session, s: Session, p: ProviderInstance, writes: Writes, reliable: bool, after: Tables, deploymentID: string)
    requires Fresh(w, start, row, s.(status := Provisioning), MarkedProvisioning)
    requires LaunchLeads(start.tables, after, s, p, writes, reliable, LaunchFailed, start.now)
    requires p.instance.sessionTag == s.id && InstanceKey(s.provider, p.id) !in start.born && s.providerID == ""
    ensures CanLeadTo(w, after, deploymentID)
  {
    var call := if after.instances == start.Live() then CallCreateFails(s.id)
                else CallCreate(s.id, InstanceKey(s.provider, p.id), p.instance, false);
    var asked := Apply(w, call, deploymentID);
    assert asked.Live() == after.instances && asked.makers[s.id] == Maker(s.(status := Provisioning), CreateFailed);
    GivingUpTables(asked, start, row, s, after, deploymentID);
    hide Apply, CanLeadTo;
    ThenCanLeadTo(w, call, after, deploymentID);
  }

  lemma GivingUpTables(w: World, start: World, row: Session, s: Session, after: Tables, deploymentID: string)
    requires w.Rows() == start.Rows()[s.id := row] && w.Live() == after.instances && s.SameRow(row)
    requires s.id in w.makers && w.makers[s.id] == Maker(s.(status := Provisioning), CreateFailed) && s.providerID == ""
    requires after.rows == start.Rows()[s.id := FailedRow(s.(status := Provisioning), CREATE_FAILED, start.now)]
    ensures CanLeadTo(w, after, deploymentID)
  {
    var failed := FailedRow(s.(status := Provisioning), CREATE_FAILED, start.now);
    var next := Apply(w, FailMaker(s.id, failed), deploymentID);
    assert next.tables == after;
    hide Apply, CanLeadTo;
    IsThere(next, deploymentID);
    ThenCanLeadTo(w, FailMaker(s.id, failed), after, deploymentID);
  }

  lemma NoProviderTables(w: World, start: World, s: Session, after: Tables, deploymentID: string)
    requires Fresh(w, start, s, s, RowCreated) && start.tables.rows == start.Rows()
    requires after == start.tables.(rows := start.Rows()[s.id := FailedRow(s, PROVIDER_MISSING + s.provider, start.now)])
    requires !Clashes(start.Rows(), s) && Filed(start.Rows())
    ensures CanLeadTo(w, after, deploymentID)
  {
    var row := FailedRow(s, PROVIDER_MISSING + s.provider, start.now);
    var read := Apply(w, Read(s.id), deploymentID);
    assert CanUpdate(read.Rows(), row);
    var written := Apply(read, Write(s, row), deploymentID);
    assert written.tables == after;
    hide Enabled, Apply, CanLeadTo;
    IsThere(written, deploymentID);
    ThenCanLeadTo(read, Write(s, row), after, deploymentID);
    ThenCanLeadTo(w, Read(s.id), after, deploymentID);
  }

  /** However a launch ends, what it did to the tables is a run of the protocol. */
  lemma LaunchIsARun(w: World, after: Tables, s: Session, p: ProviderInstance, writes: Writes, reliable: bool, r: LaunchResult, deploymentID: string)
    requires LaunchLeads(w.tables, after, s, p, writes, reliable, r, w.now) && Filed(w.Rows())
    requires s.status == Pending && s.providerID == "" && s.createdAt == w.now && p.instance.sessionTag == s.id
    requires r.Refused? <==> s.id in w.Rows() || Clashes(w.Rows(), s)
    requires InstanceKey(s.provider, p.id) !in w.born
    ensures CanLeadTo(w, after, deploymentID)
  {
    hide Clashes, CanLeadTo, Fresh, Apply;
    if r.Refused? {
      IsThere(w, deploymentID);
      return;
    }
    var created := Apply(w, CreateRow(s), deploymentID);
    CreatedFresh(w, s, deploymentID);
    match r {
    case DiskRejected => CreatedTables(created, w, s, after, deploymentID);
    case NoProvider => NoProviderTables(created, w, s, after, deploymentID);
    case _ => AfterMarking(created, w, after, s, p, writes, reliable, r, deploymentID);
    }
    ThenCanLeadTo(w, CreateRow(s), after, deploymentID);
  }

  lemma CreatedTables(w: World, start: World, s: Session, after: Tables, deploymentID: string)
    requires Fresh(w, start, s, s, RowCreated) && after == start.tables.(rows := start.Rows()[s.id := s])
    ensures CanLeadTo(w, after, deploymentID)
  {
    assert w.tables == after;
    hide CanLeadTo;
    IsThere(w, deploymentID);
  }

  lemma AfterMarking(w: World, start: World, after: Tables, s: Session, p: ProviderInstance, writes: Writes, reliable: bool, r: LaunchResult, deploymentID: string)
    requires Fresh(w, start, s, s, RowCreated) && (r.LaunchFailed? || r.NotRecorded? || r.Launched?)
    requires LaunchLeads(start.tables, after, s, p, writes, reliable, r, start.now)
    requires s.providerID == "" && p.instance.sessionTag == s.id && InstanceKey(s.provider, p.id) !in start.born
    ensures CanLeadTo(w, after, deploymentID)
  {
    hide CanLeadTo, Fresh, Apply, Enabled;
    var mark := MarkProvisioning(s.id, writes.marked);
    MarkedFresh(w, start, s, writes.marked, deploymentID);
    var marked, row := Apply(w, mark, deploymentID), if writes.marked then s.(status := Provisioning) else s;
    match r {
    case LaunchFailed => FailedTables(marked, start, row, s, p, writes, reliable, after, deploymentID);
    case NotRecorded => UnrecordedTables(marked, start, row, s, p, writes, reliable, after, deploymentID);
    case Launched(_) => LaunchedTables(marked, start, row, s, p, writes, reliable, after, deploymentID);
    }
    ThenCanLeadTo(w, mark, after, deploymentID);
  }
}
