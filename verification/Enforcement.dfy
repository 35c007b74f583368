/** What one periodic enforcement pass does, as functions of the two tables, and what follows from them. */
module Enforcement {
  import opened Wrappers
  import opened Clock
  import opened Sessions
  import opened Providers
  import opened Reconciliation

  const STUCK_STOPPING_ERROR := "Session stuck in stopping state - manual cleanup may be required"
  const STUCK_PROVISIONING_ERROR := "Session stuck in provisioning state - provisioning timeout"

  /** The limits a manager enforces. */
  datatype Limits = Limits(hardMaxHours: int, stuckTimeout: Duration)

  /** The checks of a pass that change anything, in the order they run. */
  datatype Check = HardMax | Expiry | Stuck | FailedDestroys
  {
    predicate Picks(limits: Limits, s: Session, now: Time) {
      match this
      case HardMax => s.status == Running && !s.hardMaxOverride && now - s.createdAt > limits.hardMaxHours * HOUR
      case Expiry => s.status == Running && s.expiresAt < now
      case Stuck => (s.status == Stopping || s.status == Provisioning) && now - s.createdAt > limits.stuckTimeout
      case FailedDestroys => s.status == Failed && s.providerID != ""
    }

    /** Whether the check destroys the instances of the rows it picks. */
    predicate Destroys() {
      !Stuck?
    }

    /** A row after the check, if nothing fails. */
    function Row(limits: Limits, s: Session, now: Time): Session {
      if !Picks(limits, s, now) then s
      else match this
        case HardMax => Ended(s, now)
        case Expiry => Ended(s, now)
        case Stuck => GivenUp(s, now)
        case FailedDestroys => LetGo(s, now)
    }
  }

  function Ended(s: Session, now: Time): Session {
    s.(status := Stopped, stoppedAt := Some(now))
  }

  function GivenUp(s: Session, now: Time): Session {
    s.(status := Failed, stoppedAt := Some(now),
       error := if s.status == Stopping then STUCK_STOPPING_ERROR else STUCK_PROVISIONING_ERROR)
  }

  function LetGo(s: Session, now: Time): Session {
    s.(providerID := "", status := Stopped, stoppedAt := Some(now))
  }

  /** Running longer than it may. */
  predicate Overdue(limits: Limits, s: Session, now: Time) {
    HardMax.Picks(limits, s, now) || Expiry.Picks(limits, s, now)
  }

  /** A row after the whole pass, if nothing fails: one case per situation it can be in. */
  function EnforcedRow(limits: Limits, s: Session, now: Time): Session {
    if Overdue(limits, s, now) then Ended(s, now)
    else if Stuck.Picks(limits, s, now) then
      if s.providerID == "" then GivenUp(s, now) else LetGo(GivenUp(s, now), now)
    else if FailedDestroys.Picks(limits, s, now) then LetGo(s, now)
    else s
  }

  /** The instance keys of the rows with given IDs that a check picks and destroys. */
  function FreedKeys(check: Check, limits: Limits, rows: Rows, now: Time, ids: set<string>): set<InstanceKey> {
    if check.Destroys()
    then set id | id in rows && id in ids && check.Picks(limits, rows[id], now) && rows[id].providerID != "" :: rows[id].Key()
    else {}
  }

  /** A check over the rows with given IDs, without faults. */
  function CheckSome(check: Check, limits: Limits, t: Tables, now: Time, ids: set<string>): Tables {
    Tables(map id | id in t.rows :: if id in ids then check.Row(limits, t.rows[id], now) else t.rows[id],
           t.instances - FreedKeys(check, limits, t.rows, now, ids))
  }

  function CheckAll(check: Check, limits: Limits, t: Tables, now: Time): Tables {
    CheckSome(check, limits, t, now, t.rows.Keys)
  }

  /** The instances a pass destroys: those of rows that are overdue, stuck too long, or failed. */
  function EnforcedKeys(limits: Limits, rows: Rows, now: Time): set<InstanceKey> {
    set id | id in rows && rows[id].providerID != "" && Enforces(limits, rows[id], now) :: rows[id].Key()
  }

  predicate Enforces(limits: Limits, s: Session, now: Time) {
    Overdue(limits, s, now) || Stuck.Picks(limits, s, now) || FailedDestroys.Picks(limits, s, now)
  }

  /** The whole pass without faults. */
  function Enforce(limits: Limits, t: Tables, now: Time): Tables {
    Tables(map id | id in t.rows :: EnforcedRow(limits, t.rows[id], now), t.instances - EnforcedKeys(limits, t.rows, now))
  }

  /** The four checks one after the other are one pass. */
  lemma ChecksCompose(limits: Limits, t: Tables, now: Time)
    ensures CheckAll(FailedDestroys, limits, CheckAll(Stuck, limits, CheckAll(Expiry, limits, CheckAll(HardMax, limits, t, now), now), now), now)
            == Enforce(limits, t, now)
  {
    hide Check.Picks, Check.Row, EnforcedRow, Enforces, FreedKeys, EnforcedKeys, CheckAll, CheckSome;
    var a := CheckAll(HardMax, limits, t, now);
    var b := CheckAll(Expiry, limits, a, now);
    var c := CheckAll(Stuck, limits, b, now);
    var d := CheckAll(FailedDestroys, limits, c, now);
    Checked(HardMax, limits, t, now);
    Checked(Expiry, limits, a, now);
    Checked(Stuck, limits, b, now);
    Checked(FailedDestroys, limits, c, now);
    forall id | id in t.rows
      ensures d.rows[id] == EnforcedRow(limits, t.rows[id], now)
    {
      RowsCompose(limits, t.rows[id], now);
    }
    KeysCompose(limits, t.rows, a.rows, b.rows, c.rows, now);
    StuckFreesNothing(limits, b.rows, now);
    var k1, k2 := FreedKeys(HardMax, limits, t.rows, now, t.rows.Keys), FreedKeys(Expiry, limits, a.rows, now, a.rows.Keys);
    var k4 := FreedKeys(FailedDestroys, limits, c.rows, now, c.rows.Keys);
    assert d.instances == t.instances - (k1 + k2 + k4);
  }

  lemma Checked(check: Check, limits: Limits, t: Tables, now: Time)
    ensures var r := CheckAll(check, limits, t, now);
            && r.rows.Keys == t.rows.Keys && (forall id <- t.rows :: r.rows[id] == check.Row(limits, t.rows[id], now))
            && r.instances == t.instances - FreedKeys(check, limits, t.rows, now, t.rows.Keys)
  {
    hide Check.Row, FreedKeys;
  }

  lemma StuckFreesNothing(limits: Limits, rows: Rows, now: Time)
    ensures FreedKeys(Stuck, limits, rows, now, rows.Keys) == {}
  {
  }

  /** What the four checks make of one row, and which of them free its instance. */
  lemma RowsCompose(limits: Limits, s: Session, now: Time)
    ensures var a := HardMax.Row(limits, s, now);
            var b := Expiry.Row(limits, a, now);
            var c := Stuck.Row(limits, b, now);
            && FailedDestroys.Row(limits, c, now) == EnforcedRow(limits, s, now)
            && a.Key() == s.Key() && b.Key() == s.Key() && c.Key() == s.Key()
            && (Enforces(limits, s, now) <==> HardMax.Picks(limits, s, now) || Expiry.Picks(limits, a, now)
                                              || (FailedDestroys.Picks(limits, c, now) && s.providerID != "")
                                              || (s.providerID == "" && Enforces(limits, s, now)))
  {
  }

  lemma KeysCompose(limits: Limits, rows: Rows, a: Rows, b: Rows, c: Rows, now: Time)
    requires a.Keys == rows.Keys && b.Keys == rows.Keys && c.Keys == rows.Keys
    requires forall id <- rows :: a[id] == HardMax.Row(limits, rows[id], now)
    requires forall id <- rows :: b[id] == Expiry.Row(limits, a[id], now)
    requires forall id <- rows :: c[id] == Stuck.Row(limits, b[id], now)
    ensures FreedKeys(HardMax, limits, rows, now, rows.Keys) + FreedKeys(Expiry, limits, a, now, a.Keys)
            + FreedKeys(FailedDestroys, limits, c, now, c.Keys) == EnforcedKeys(limits, rows, now)
  {
    hide Check.Picks, Check.Row, EnforcedRow, Enforces;
    forall id | id in rows
      ensures a[id].Key() == rows[id].Key() && b[id].Key() == rows[id].Key() && c[id].Key() == rows[id].Key()
      ensures rows[id].providerID != "" ==>
        (Enforces(limits, rows[id], now) <==>
           HardMax.Picks(limits, rows[id], now) || Expiry.Picks(limits, a[id], now) || FailedDestroys.Picks(limits, c[id], now))
    {
      RowsCompose(limits, rows[id], now);
    }
  }

  // ---- What a fault-free pass achieves ----

  /** After a pass nothing is overdue, nothing has been stopping or provisioning too long, no failed row
      names an instance; what was none of these is as before, and so is every other instance. */
  lemma PassEnforces(limits: Limits, t: Tables, now: Time, id: string)
    requires id in t.rows
    ensures var s := Enforce(limits, t, now).rows[id];
            && !Enforces(limits, s, now)
            && (!Enforces(limits, t.rows[id], now) ==> s == t.rows[id])
            && (Enforces(limits, t.rows[id], now) ==> s.IsTerminal() && s.stoppedAt == Some(now))
            && (Enforces(limits, t.rows[id], now) && t.rows[id].providerID != "" ==> t.rows[id].Key() !in Enforce(limits, t, now).instances)
  {
  }

  lemma OthersKeepInstances(limits: Limits, t: Tables, now: Time, id: string)
    requires DistinctInstances(t.rows) && id in t.rows && !Enforces(limits, t.rows[id], now) && t.rows[id].providerID != ""
    ensures var key := t.rows[id].Key();
            key in t.instances ==> key in Enforce(limits, t, now).instances && Enforce(limits, t, now).instances[key] == t.instances[key]
  {
    hide Enforces;
  }

  // ---- Faulty providers ----

  /** Nothing but the named instances is touched, and those can only stop running or vanish. */
  ghost predicate Weakened(before: Instances, after: Instances, keys: set<InstanceKey>) {
    && after.Keys <= before.Keys
    && (forall k <- before :: k !in keys ==> k in after && after[k] == before[k])
    && (forall k <- after :: after[k] == before[k] || after[k] == before[k].(running := false))
  }

  /** No instance of the row runs: it names none, or the named one is missing or not running. */
  predicate Dead(s: Session, instances: Instances) {
    s.providerID != "" && s.Key() in instances ==> !instances[s.Key()].running
  }

  /** An attempt to end a row: it is stopped and dead, or as it was but for the error text. */
  ghost predicate EndedOrKept(s: Session, after: Session, instances: Instances, now: Time) {
    || (after == Ended(s, now).(error := after.error) && Dead(s, instances))
    || after == s.(error := after.error)
  }

  /** A row after one check, whatever the providers do. */
  ghost predicate Acted(check: Check, limits: Limits, s: Session, after: Session, instances: Instances, now: Time) {
    if check.Picks(limits, s, now) && (check.HardMax? || check.Expiry?)
    then EndedOrKept(s, after, instances, now)
    else after == check.Row(limits, s, now)
  }

  /** A row after the whole pass, whatever the providers do. */
  ghost predicate Enforced(limits: Limits, s: Session, after: Session, instances: Instances, now: Time) {
    if Overdue(limits, s, now) then EndedOrKept(s, after, instances, now) else after == EnforcedRow(limits, s, now)
  }

  lemma WeakenedTwice(a: Instances, b: Instances, c: Instances, first: set<InstanceKey>, second: set<InstanceKey>)
    requires Weakened(a, b, first) && Weakened(b, c, second)
    ensures Weakened(a, c, first + second)
  {
  }

  lemma DeadStays(s: Session, before: Instances, after: Instances, keys: set<InstanceKey>)
    requires Weakened(before, after, keys) && Dead(s, before)
    ensures Dead(s, after)
  {
  }

  lemma ActedStays(check: Check, limits: Limits, s: Session, r: Session, before: Instances, after: Instances,
                   keys: set<InstanceKey>, now: Time)
    requires Acted(check, limits, s, r, before, now) && Weakened(before, after, keys)
    ensures Acted(check, limits, s, r, after, now)
  {
    hide Check.Picks, Check.Row, Weakened, Dead;
    if Dead(s, before) {
      DeadStays(s, before, after, keys);
    }
  }

  /** Four checks with faults on one row: the row is enforced, and an instance that ran out of luck stays dead. */
  lemma ActedFourTimes(limits: Limits, s: Session, a: Session, b: Session, c: Session, d: Session, now: Time,
                       i1: Instances, i2: Instances, i4: Instances, k2: set<InstanceKey>, k4: set<InstanceKey>)
    requires Acted(HardMax, limits, s, a, i1, now) && Acted(Expiry, limits, a, b, i2, now)
    requires Acted(Stuck, limits, b, c, i2, now) && Acted(FailedDestroys, limits, c, d, i4, now)
    requires Weakened(i1, i2, k2) && Weakened(i2, i4, k4)
    ensures Enforced(limits, s, d, i4, now)
  {
    hide Weakened, Acted, Enforced, Check.Row;
    TwoDestroyChecks(limits, s, a, b, now, i1, i2, k2);
    TwoMoreChecks(limits, s, b, c, d, now, i2, i4, k4);
  }

  lemma TwoDestroyChecks(limits: Limits, s: Session, a: Session, b: Session, now: Time, i1: Instances, i2: Instances, k2: set<InstanceKey>)
    requires Acted(HardMax, limits, s, a, i1, now) && Acted(Expiry, limits, a, b, i2, now) && Weakened(i1, i2, k2)
    ensures if Overdue(limits, s, now) then EndedOrKept(s, b, i2, now) else b == s
  {
    hide Weakened, Dead;
    if Dead(s, i1) {
      DeadStays(s, i1, i2, k2);
    }
    DeadOf(s, a, i2);
  }

  lemma TwoMoreChecks(limits: Limits, s: Session, b: Session, c: Session, d: Session, now: Time, i2: Instances, i4: Instances, k4: set<InstanceKey>)
    requires if Overdue(limits, s, now) then EndedOrKept(s, b, i2, now) else b == s
    requires Acted(Stuck, limits, b, c, i2, now) && Acted(FailedDestroys, limits, c, d, i4, now) && Weakened(i2, i4, k4)
    ensures Enforced(limits, s, d, i4, now)
  {
    hide Weakened, Dead;
    if Dead(s, i2) {
      DeadStays(s, i2, i4, k4);
    }
  }

  lemma DeadOf(s: Session, a: Session, instances: Instances)
    requires s.Key() == a.Key()
    ensures Dead(s, instances) == Dead(a, instances)
  {
  }

  /** A row kept because its destroy failed is still overdue at any later pass. */
  lemma KeptIsStillOverdue(limits: Limits, s: Session, after: Session, now: Time, later: Time)
    requires Overdue(limits, s, now) && after == s.(error := after.error) && now <= later
    ensures Overdue(limits, after, later)
  {
  }

  // ---- The same in the fields of the rows ----

  /** A row a pass has no business with: running within its reservation, and within the hard limit unless that
      is overridden; on its way up or down for no longer than the timeout; failed without an instance; or
      pending or stopped. */
  ghost predicate InOrder(limits: Limits, s: Session, now: Time) {
    match s.status
    case Running => s.expiresAt >= now && (s.hardMaxOverride || now - s.createdAt <= limits.hardMaxHours * HOUR)
    case Provisioning | Stopping => now - s.createdAt <= limits.stuckTimeout
    case Failed => s.providerID == ""
    case Pending | Stopped => true
  }

  /** A row after a pass: as it was if it is in order. Otherwise a running one is stopped, one that is stuck
      fails, and it or one that had failed lets go of the instance it names. With faults a running one may
      be left as it was but for the error text, and is stopped only when its instance is dead. */
  ghost predicate EnforcedTo(limits: Limits, s: Session, after: Session, instances: Instances, faultFree: bool, now: Time) {
    if InOrder(limits, s, now) then after == s
    else match s.status
      case Running =>
        if faultFree then after == s.(status := Stopped, stoppedAt := Some(now))
        else
          || after == s.(error := after.error)
          || (&& after == s.(status := Stopped, stoppedAt := Some(now), error := after.error)
              && (s.providerID != "" && s.Key() in instances ==> !instances[s.Key()].running))
      case Failed => after == s.(status := Stopped, stoppedAt := Some(now), providerID := "")
      case _ =>
        && after.error == (if s.status == Stopping then STUCK_STOPPING_ERROR else STUCK_PROVISIONING_ERROR)
        && after == s.(status := if s.providerID == "" then Failed else Stopped, stoppedAt := Some(now), providerID := "", error := after.error)
  }

  /** The instance of a row that is in order is as before, and without faults every other row loses its own. */
  ghost predicate InstanceKept(limits: Limits, s: Session, before: Instances, after: Instances, faultFree: bool, now: Time) {
    s.providerID != "" && s.Key() in before ==>
      && (InOrder(limits, s, now) ==> s.Key() in after && after[s.Key()] == before[s.Key()])
      && (faultFree && !InOrder(limits, s, now) ==> s.Key() !in after)
  }

  /** What a pass enforces is exactly what is not in order. */
  lemma EnforcesExactlyWhen(limits: Limits, s: Session, now: Time)
    ensures Enforces(limits, s, now) <==> !InOrder(limits, s, now)
  {
  }

  /** What every check leaves alone. */
  lemma InOrderIsNotPicked(check: Check, limits: Limits, s: Session, after: Session, instances: Instances, now: Time)
    requires InOrder(limits, s, now) && Acted(check, limits, s, after, instances, now)
    ensures after == s
  {
  }

  lemma EnforcedInFields(limits: Limits, s: Session, after: Session, instances: Instances, faultFree: bool, now: Time)
    requires Enforced(limits, s, after, instances, now) && (faultFree ==> after == EnforcedRow(limits, s, now))
    ensures EnforcedTo(limits, s, after, instances, faultFree, now)
  {
  }

  lemma InstanceInFields(limits: Limits, rows: Rows, before: Instances, after: Instances, faultFree: bool, now: Time, id: string)
    requires DistinctInstances(rows) && id in rows && Weakened(before, after, EnforcedKeys(limits, rows, now))
    requires faultFree ==> after == before - EnforcedKeys(limits, rows, now)
    ensures InstanceKept(limits, rows[id], before, after, faultFree, now)
  {
    hide Enforces, InOrder;
    EnforcesExactlyWhen(limits, rows[id], now);
  }

  // ---- What is let go of ----

  /** A failed row lets go of its instance: one destroy call if the provider is registered, whatever it does. */
  ghost predicate LetsGo(before: Tables, after: Tables, s: Session, registered: set<string>, reliable: bool, now: Time) {
    && after.rows == before.rows[s.id := LetGo(s, now)]
    && if s.provider in registered then DestroyMayLead(before.instances, after.instances, s.Key(), reliable)
       else after.instances == before.instances
  }

  /** Over all that the provider may do, the instance is dead once its row has let go of it exactly when the
      provider is registered and reliable, or it was dead before. The number of destroy rounds plays no part. */
  lemma LetGoIsDeadExactlyWhen(before: Tables, s: Session, registered: set<string>, reliable: bool, now: Time)
    ensures (forall after :: LetsGo(before, after, s, registered, reliable, now) ==> Dead(s, after.instances))
            <==> (s.provider in registered && reliable) || Dead(s, before.instances)
  {
    if !(s.provider in registered && reliable) && !Dead(s, before.instances) {
      Survives(before, s, registered, reliable, now);
    }
  }

  /** The run that shows it: the destroy call has no effect. */
  lemma Survives(before: Tables, s: Session, registered: set<string>, reliable: bool, now: Time)
    requires !(s.provider in registered && reliable)
    ensures LetsGo(before, Tables(before.rows[s.id := LetGo(s, now)], before.instances), s, registered, reliable, now)
  {
  }

  /** A survivor is named by no active row, so the next fault-free reconciliation of a tagged listing
      destroys it. */
  lemma SurvivorIsOrphan(before: Tables, after: Tables, s: Session, registered: set<string>, reliable: bool, now: Time, deploymentID: string)
    requires Filed(before.rows) && DistinctInstances(before.rows) && s.id in before.rows && before.rows[s.id] == s
    requires s.providerID != "" && LetsGo(before, after, s, registered, reliable, now) && s.Key() in after.instances
    requires Claims(deploymentID, after.instances[s.Key()].deploymentTag)
    ensures IsOrphan(s.Key(), after.rows, after.instances, deploymentID)
    ensures s.provider in registered ==> s.Key() !in Reconcile(after, registered, deploymentID, now).instances
  {
    hide Claims, DestroyMayLead;
    forall i | i in after.rows && References(after.rows[i], s.provider)
      ensures after.rows[i].providerID != s.providerID
    {
      assert i != s.id && before.rows[i].Key() == after.rows[i].Key();
    }
  }

  /** The same for a whole pass: what it lets go of while the instance survives is an orphan. */
  lemma LetGoIsOrphan(limits: Limits, before: Tables, after: Tables, now: Time, id: string, deploymentID: string)
    requires DistinctInstances(before.rows) && after.rows.Keys == before.rows.Keys && id in before.rows
    requires forall i <- before.rows :: Enforced(limits, before.rows[i], after.rows[i], after.instances, now)
    requires before.rows[id].providerID != "" && after.rows[id].providerID == ""
    requires before.rows[id].Key() in after.instances
    requires Claims(deploymentID, after.instances[before.rows[id].Key()].deploymentTag)
    ensures IsOrphan(before.rows[id].Key(), after.rows, after.instances, deploymentID)
  {
    hide Enforced, Claims;
    var key := before.rows[id].Key();
    forall i | i in after.rows && References(after.rows[i], key.provider)
      ensures after.rows[i].providerID != key.id
    {
      EnforcedNames(limits, before.rows[i], after.rows[i], after.instances, now);
    }
  }

  /** A pass never makes a row name another instance. */
  lemma EnforcedNames(limits: Limits, s: Session, after: Session, instances: Instances, now: Time)
    requires Enforced(limits, s, after, instances, now)
    ensures after.provider == s.provider && (after.providerID == s.providerID || after.providerID == "")
  {
    hide Check.Picks;
  }
}
