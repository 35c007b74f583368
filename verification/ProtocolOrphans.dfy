/** Exactly which instances a reconciliation pass can destroy, over all runs of the protocol, and exactly when
    an instance is one that its session's row does not name. */
module ProtocolOrphans {
  import opened Clock
  import opened Sessions
  import opened SessionStorage
  import opened Reconciliation
  import opened Protocol

  // ---- One pass ----

  /** Some way to go on with the same pass destroys an instance. */
  ghost predicate PassMayDestroy(w: World, id: string, deploymentID: string)
    requires Enabled(w, ReadActiveRows)
  {
    exists steps: seq<Step>, end: World, effect: Effect ::
      && Leads(Apply(w, ReadActiveRows, deploymentID), steps, end, deploymentID)
      && SamePass(steps) && DestroyOrphan(id, effect) in steps
  }

  ghost predicate SamePass(steps: seq<Step>) {
    forall i :: 0 <= i < |steps| ==> !steps[i].EndPass? && !steps[i].Crash?
  }

  /** A pass that is about to read the table can destroy exactly the listed instances that no active row
      names at that moment, whatever anybody does before, in between and after. */
  lemma PassDestroysExactly(w: World, id: string, deploymentID: string)
    requires Enabled(w, ReadActiveRows)
    ensures PassMayDestroy(w, id, deploymentID) <==> id in w.pass.seen && id !in ReferencedIDs(w.Rows(), w.pass.provider)
  {
    hide ReferencedIDs, Leads;
    var read := Apply(w, ReadActiveRows, deploymentID);
    if PassMayDestroy(w, id, deploymentID) {
      var steps: seq<Step>, end: World, effect: Effect :|
        Leads(read, steps, end, deploymentID) && SamePass(steps) && DestroyOrphan(id, effect) in steps;
      OnlyOrphansFall(read, steps, end, id, effect, deploymentID);
    }
    if id in w.pass.seen && id !in ReferencedIDs(w.Rows(), w.pass.provider) {
      DestroyAtOnce(read, id, deploymentID);
    }
  }

  lemma DestroyAtOnce(w: World, id: string, deploymentID: string)
    requires Enabled(w, DestroyOrphan(id, Removed))
    ensures exists end :: Leads(w, [DestroyOrphan(id, Removed)], end, deploymentID) && SamePass([DestroyOrphan(id, Removed)])
  {
    hide Enabled, Apply;
    var step := DestroyOrphan(id, Removed);
    var next := Apply(w, step, deploymentID);
    assert [step][1..] == [];
    assert Leads(next, [], next, deploymentID);
    assert Leads(w, [step], next, deploymentID);
  }

  /** What a pass saw and read stays what it compares until it ends. */
  ghost predicate SameComparison(w: World, next: World) {
    next.pass.Compared? && w.pass.Compared? && next.pass.seen == w.pass.seen && next.pass.local == w.pass.local
  }

  lemma StepKeepsComparison(w: World, step: Step, deploymentID: string)
    requires w.pass.Compared? && Enabled(w, step) && !step.EndPass? && !step.Crash?
    ensures SameComparison(w, Apply(w, step, deploymentID))
  {
    hide StoreRow, Struck, CanUpdate, Clashes, OwnIDs;
  }

  lemma {:induction false} OnlyOrphansFall(w: World, steps: seq<Step>, end: World, id: string, effect: Effect, deploymentID: string)
    requires w.pass.Compared? && Leads(w, steps, end, deploymentID) && SamePass(steps) && DestroyOrphan(id, effect) in steps
    ensures id in w.pass.seen && id !in w.pass.local
    decreases |steps|
  {
    hide Apply;
    if steps[0] != DestroyOrphan(id, effect) {
      StepKeepsComparison(w, steps[0], deploymentID);
      assert steps == [steps[0]] + steps[1..];
      OnlyOrphansFall(Apply(w, steps[0], deploymentID), steps[1..], end, id, effect, deploymentID);
    }
  }

  // ---- Whether a row names its instance ----

  /** How a session's row came to name its instance or not to: its create call is under way, ended without
      storing the instance's ID, or stored it; and after that the last writer of the row kept or cleared it. */
  datatype Naming = Unrecorded | Abandoned | Recorded | Cleared

  ghost function NamingAfterStep(w: World, step: Step, id: string, n: Naming): Naming
    requires Enabled(w, step)
  {
    match step
    case CreateRow(s) => if s.id == id then Unrecorded else n
    case RecordInstance(i, _, stored) => if i != id then n else if stored then Recorded else Abandoned
    case FailMaker(i, _) => if i == id then Abandoned else n
    case Crash => if id in w.makers then Abandoned else n
    case Write(_, updated) =>
      if updated.id != id || !CanUpdate(w.Rows(), updated) || n.Unrecorded? || n.Abandoned? then n
      else if updated.providerID == "" then Cleared else Recorded
    case MarkGhost(pid) => if w.pass.local[pid].id == id then Recorded else n
    case _ => n
  }

  ghost function NamingAfter(w: World, steps: seq<Step>, end: World, id: string, n: Naming, deploymentID: string): Naming
    requires Leads(w, steps, end, deploymentID)
    decreases |steps|
  {
    if steps == [] then n
    else NamingAfter(Apply(w, steps[0], deploymentID), steps[1..], end, id, NamingAfterStep(w, steps[0], id, n), deploymentID)
  }

  /** Until the ID is stored no version of the row names the instance; after that the row tells. */
  ghost predicate NamingInv(w: World, id: string, n: Naming) {
    && RowNaming(w.Rows(), w.makers.Keys, id, n)
    && (n.Unrecorded? || n.Abandoned? ==> NobodyNames(w.copies, w.pass, id))
  }

  ghost predicate RowNaming(rows: Rows, making: set<string>, id: string, n: Naming) {
    && (id in rows ==> (n.Unrecorded? <==> id in making))
    && (id !in rows ==> n.Unrecorded? && id !in making)
    && (id in rows ==> (rows[id].providerID != "" <==> n.Recorded?))
  }

  ghost predicate NobodyNames(copies: set<Session>, pass: Pass, id: string) {
    && (forall s <- copies :: s.id == id ==> s.providerID == "")
    && (pass.Compared? ==> forall pid <- pass.local :: pass.local[pid].id != id)
  }

  lemma StepKeepsNaming(w: World, step: Step, id: string, n: Naming, deploymentID: string)
    requires Inv(w) && Enabled(w, step) && NamingInv(w, id, n)
    ensures NamingInv(Apply(w, step, deploymentID), id, NamingAfterStep(w, step, id, n))
  {
    hide Inv;
    match step
    case CreateRow(s) => OwnRowStep(w, step, id, n, deploymentID);
    case MarkProvisioning(_, _) => OwnRowStep(w, step, id, n, deploymentID);
    case RecordInstance(_, _, _) => OwnRowStep(w, step, id, n, deploymentID);
    case FailMaker(_, _) => OwnRowStep(w, step, id, n, deploymentID);
    case Write(_, _) => WriterStep(w, step, id, n, deploymentID);
    case MarkGhost(_) => WriterStep(w, step, id, n, deploymentID);
    case Read(_) => QuietStep(w, step, id, n, deploymentID);
    case ReadActiveRows => ReadStep(w, id, n, deploymentID);
    case CallCreate(_, _, _, _) => QuietStep(w, step, id, n, deploymentID);
    case CallCreateFails(_) => QuietStep(w, step, id, n, deploymentID);
    case DestroyCall(_, _) => QuietStep(w, step, id, n, deploymentID);
    case ProviderChanges(_, _) => QuietStep(w, step, id, n, deploymentID);
    case ListInstances(_) => QuietStep(w, step, id, n, deploymentID);
    case DestroyOrphan(_, _) => QuietStep(w, step, id, n, deploymentID);
    case EndPass => QuietStep(w, step, id, n, deploymentID);
    case Tick(_) => QuietStep(w, step, id, n, deploymentID);
    case Crash => QuietStep(w, step, id, n, deploymentID);
  }

  /** A store rewrites one row. */
  lemma StoredRow(rows: Rows, s: Session)
    ensures StoreRow(rows, s).Keys == rows.Keys
    ensures forall id <- rows :: id != s.id ==> StoreRow(rows, s)[id] == rows[id]
    ensures s.id in rows ==> StoreRow(rows, s)[s.id].providerID == s.providerID
  {
  }

  /** What a step does to the parts of the world that naming depends on. */
  ghost predicate Does(w: World, step: Step, deploymentID: string, rows: Rows, making: set<string>, copies: set<Session>)
    requires Enabled(w, step)
  {
    var next := Apply(w, step, deploymentID);
    next.Rows() == rows && next.makers.Keys == making && next.copies == copies && next.pass == w.pass
  }

  lemma CreateDoes(w: World, s: Session, deploymentID: string)
    requires Enabled(w, CreateRow(s))
    ensures Does(w, CreateRow(s), deploymentID, w.Rows()[s.id := s], w.makers.Keys + {s.id}, w.copies)
  {
    hide Clashes;
  }

  lemma MarkDoes(w: World, id: string, stored: bool, deploymentID: string)
    requires Enabled(w, MarkProvisioning(id, stored))
    ensures var marked := w.makers[id].session.(status := Provisioning);
            Does(w, MarkProvisioning(id, stored), deploymentID, if stored then StoreRow(w.Rows(), marked) else w.Rows(), w.makers.Keys, w.copies)
  {
    hide StoreRow;
  }

  lemma RecordDoes(w: World, id: string, updated: Session, stored: bool, deploymentID: string)
    requires Enabled(w, RecordInstance(id, updated, stored))
    ensures Does(w, RecordInstance(id, updated, stored), deploymentID, if stored then StoreRow(w.Rows(), updated) else w.Rows(),
                 w.makers.Keys - {id}, if stored then w.copies + {updated} else w.copies)
  {
    hide StoreRow;
  }

  lemma FailDoes(w: World, id: string, failed: Session, deploymentID: string)
    requires Enabled(w, FailMaker(id, failed))
    ensures Does(w, FailMaker(id, failed), deploymentID, StoreRow(w.Rows(), failed), w.makers.Keys - {id}, w.copies + {failed})
  {
    hide StoreRow;
  }

  lemma WriteDoes(w: World, copy: Session, updated: Session, deploymentID: string)
    requires Enabled(w, Write(copy, updated))
    ensures Does(w, Write(copy, updated), deploymentID, if CanUpdate(w.Rows(), updated) then StoreRow(w.Rows(), updated) else w.Rows(),
                 w.makers.Keys, w.copies + {updated})
  {
    hide StoreRow, CanUpdate;
  }

  lemma GhostDoes(w: World, pid: string, deploymentID: string)
    requires Enabled(w, MarkGhost(pid))
    ensures Does(w, MarkGhost(pid), deploymentID, StoreRow(w.Rows(), Ghosted(w.pass.local[pid], w.now)), w.makers.Keys, w.copies)
  {
    hide StoreRow;
  }

  /** Steps of create calls: their copies carry the ID the maps file them under. */
  lemma OwnRowStep(w: World, step: Step, id: string, n: Naming, deploymentID: string)
    requires Inv(w) && Enabled(w, step) && NamingInv(w, id, n)
    requires step.CreateRow? || step.MarkProvisioning? || step.RecordInstance? || step.FailMaker?
    ensures NamingInv(Apply(w, step, deploymentID), id, NamingAfterStep(w, step, id, n))
  {
    hide Inv, Clashes, StoreRow, Apply;
    match step
    case CreateRow(s) => CreateDoes(w, s, deploymentID);
    case MarkProvisioning(i, stored) =>
      MakerFacts(w, i);
      MarkDoes(w, i, stored, deploymentID);
      StoredRow(w.Rows(), w.makers[i].session.(status := Provisioning));
    case RecordInstance(_, _, _) => EndsCall(w, step, id, n, deploymentID);
    case FailMaker(_, _) => EndsCall(w, step, id, n, deploymentID);
  }

  lemma EndsCall(w: World, step: Step, id: string, n: Naming, deploymentID: string)
    requires Inv(w) && Enabled(w, step) && NamingInv(w, id, n) && (step.RecordInstance? || step.FailMaker?)
    ensures NamingInv(Apply(w, step, deploymentID), id, NamingAfterStep(w, step, id, n))
  {
    hide Inv, StoreRow, Apply;
    MakerFacts(w, step.id);
    match step
    case RecordInstance(i, updated, stored) =>
      RecordDoes(w, i, updated, stored, deploymentID);
      StoredRow(w.Rows(), updated);
    case FailMaker(i, failed) =>
      FailDoes(w, i, failed, deploymentID);
      StoredRow(w.Rows(), failed);
  }

  lemma MakerFacts(w: World, id: string)
    requires Inv(w) && id in w.makers
    ensures id in w.Rows() && w.makers[id].session.id == id && w.makers[id].session.providerID == ""
    ensures w.makers[id].stage.InstanceCreated? ==> w.makers[id].stage.key.id != ""
  {
    hide InstancesTracked, PassTracked;
    MakerOf(w, id);
  }

  lemma WriterStep(w: World, step: Step, id: string, n: Naming, deploymentID: string)
    requires Inv(w) && Enabled(w, step) && NamingInv(w, id, n) && (step.Write? || step.MarkGhost?)
    ensures NamingInv(Apply(w, step, deploymentID), id, NamingAfterStep(w, step, id, n))
  {
    hide Apply, StoreRow, RowsTracked, InstancesTracked, MakersTracked, PassTracked, Tracked, Clashes;
    match step
    case Write(copy, updated) =>
      WriteDoes(w, copy, updated, deploymentID);
      StoredRow(w.Rows(), updated);
    case MarkGhost(pid) =>
      LocalOf(w, pid);
      TrackedHasRow(w, w.pass.local[pid]);
      GhostDoes(w, pid, deploymentID);
      StoredRow(w.Rows(), Ghosted(w.pass.local[pid], w.now));
  }

  lemma TrackedHasRow(w: World, s: Session)
    requires RowsTracked(w.Rows(), w.copies, w.origin, w.owner) && Tracked(w.origin, w.owner, s)
    ensures s.id in w.Rows()
  {
  }

  lemma ReadStep(w: World, id: string, n: Naming, deploymentID: string)
    requires Inv(w) && Enabled(w, ReadActiveRows) && NamingInv(w, id, n)
    ensures NamingInv(Apply(w, ReadActiveRows, deploymentID), id, n)
  {
    hide InstancesTracked, MakersTracked, Tracked, ReferencedIDs;
    var local := LocalMap(w.Rows(), w.pass.provider);
    forall pid | pid in local && local[pid].id == id
      ensures n.Recorded?
    {
      var other :| other in w.Rows() && w.Rows()[other] == local[pid];
    }
  }

  lemma QuietStep(w: World, step: Step, id: string, n: Naming, deploymentID: string)
    requires Inv(w) && Enabled(w, step) && NamingInv(w, id, n)
    requires !step.CreateRow? && !step.MarkProvisioning? && !step.RecordInstance? && !step.FailMaker?
    requires !step.Write? && !step.MarkGhost? && !step.ReadActiveRows?
    ensures NamingInv(Apply(w, step, deploymentID), id, NamingAfterStep(w, step, id, n))
  {
    hide InstancesTracked, MakersTracked, Tracked, Struck, OwnIDs;
  }

  lemma {:induction false} RunKeepsNaming(w: World, steps: seq<Step>, end: World, id: string, n: Naming, deploymentID: string)
    requires Inv(w) && Leads(w, steps, end, deploymentID) && NamingInv(w, id, n)
    ensures Inv(end) && NamingInv(end, id, NamingAfter(w, steps, end, id, n, deploymentID))
    decreases |steps|
  {
    hide Inv, Enabled, Apply, NamingInv, NamingAfterStep;
    if steps != [] {
      StepKeeps(w, steps[0], deploymentID);
      StepKeepsNaming(w, steps[0], id, n, deploymentID);
      RunKeepsNaming(Apply(w, steps[0], deploymentID), steps[1..], end, id, NamingAfterStep(w, steps[0], id, n), deploymentID);
    }
  }

  /** The history of a session's row over a run from the start. */
  ghost function NamingOf(now: Time, steps: seq<Step>, end: World, id: string, deploymentID: string): Naming
    requires Leads(Start(now), steps, end, deploymentID)
  {
    NamingAfter(Start(now), steps, end, id, Unrecorded, deploymentID)
  }

  /** The create call has asked the provider and not yet come to storing the answer. */
  predicate PastProviderCall(w: World, id: string) {
    id in w.makers && (w.makers[id].stage.InstanceCreated? || w.makers[id].stage.CreateFailed?)
  }

  predicate Names(s: Session, key: InstanceKey) {
    s.providerID != "" && s.Key() == key
  }

  /** The window. In every reachable world a row fails to name the instance created for its session exactly
      when its create call is past the provider call but has not stored the ID, ended without storing it, or
      the row's last writer since cleared it. */
  lemma UnnamedExactlyWhen(now: Time, steps: seq<Step>, end: World, key: InstanceKey, deploymentID: string)
    requires Leads(Start(now), steps, end, deploymentID) && key in end.owner
    ensures var id := end.owner[key];
            var n := NamingOf(now, steps, end, id, deploymentID);
            && id in end.Rows()
            && (!Names(end.Rows()[id], key) <==> PastProviderCall(end, id) || n.Abandoned? || n.Cleared?)
            && (PastProviderCall(end, id) <==> n.Unrecorded?)
  {
    hide Leads, NamingAfter;
    var id := end.owner[key];
    StartInv(now);
    RunKeepsNaming(Start(now), steps, end, id, Unrecorded, deploymentID);
    OwnedRow(end, key);
  }

  /** The owner of an instance has a row, which names that instance if it names any, and a create call that
      is still under way is past asking the provider. */
  lemma OwnedRow(w: World, key: InstanceKey)
    requires Inv(w) && key in w.owner
    ensures var id := w.owner[key];
            && id in w.Rows()
            && (w.Rows()[id].providerID != "" <==> Names(w.Rows()[id], key))
            && (id in w.makers <==> PastProviderCall(w, id))
  {
    hide PassTracked, MakersTracked, Tracked;
    var id := w.owner[key];
    RowOf(w, id);
    if w.Rows()[id].providerID != "" {
      OwnerOf(w.origin, w.owner, w.Rows()[id]);
    }
    if id in w.makers {
      MakerPastCall(w, key);
    }
  }

  lemma MakerPastCall(w: World, key: InstanceKey)
    requires MakersTracked(w.makers, w.origin, w.owner) && key in w.owner && w.owner[key] in w.makers
    ensures PastProviderCall(w, w.owner[key])
  {
    hide Tracked;
    MakerOf(w, w.owner[key]);
  }

  /** An instance ID is referenced exactly by the active row of its session naming it. */
  lemma ReferencedExactlyWhen(w: World, key: InstanceKey)
    requires Inv(w) && key in w.owner && key.id != ""
    ensures key.id in ReferencedIDs(w.Rows(), key.provider)
            <==> w.Rows()[w.owner[key]].IsActive() && Names(w.Rows()[w.owner[key]], key)
  {
    hide PassTracked, MakersTracked, Tracked, InstancesTracked;
    OwnedRow(w, key);
    if key.id in ReferencedIDs(w.Rows(), key.provider) {
      var id :| id in w.Rows() && References(w.Rows()[id], key.provider) && w.Rows()[id].providerID == key.id;
      RowOf(w, id);
      OwnerOf(w.origin, w.owner, w.Rows()[id]);
      assert w.Rows()[id].Key() == key;
    }
  }

  /** Both together. In every reachable world a pass about to read the table can destroy an instance it has
      seen exactly when the instance's session is not active, or its create call is past the provider call
      with the ID not stored, ended without storing it, or the ID was cleared again. */
  lemma PassDestroysActiveExactlyWhen(now: Time, steps: seq<Step>, w: World, key: InstanceKey, deploymentID: string)
    requires Leads(Start(now), steps, w, deploymentID) && Enabled(w, ReadActiveRows)
    requires key in w.owner && key.id != "" && key.provider == w.pass.provider && key.id in w.pass.seen
    ensures var id := w.owner[key];
            var n := NamingOf(now, steps, w, id, deploymentID);
            && id in w.Rows()
            && (PassMayDestroy(w, key.id, deploymentID)
                <==> !w.Rows()[id].IsActive() || PastProviderCall(w, id) || n.Abandoned? || n.Cleared?)
  {
    hide Leads, PassMayDestroy, NamingOf, ReferencedIDs, Enabled;
    StartInv(now);
    RunKeeps(Start(now), steps, w, deploymentID);
    UnnamedExactlyWhen(now, steps, w, key, deploymentID);
    ReferencedExactlyWhen(w, key);
    PassDestroysExactly(w, key.id, deploymentID);
  }
}
