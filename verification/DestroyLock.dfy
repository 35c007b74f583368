/** Any number of concurrent DestroySession calls on one session, and the other writers of its row. The
    per-session lock is taken out of the lock table before it is released, so later callers can hold a different
    lock. */
module DestroyLock {
  import opened Wrappers
  import opened Sessions

  type Lock = nat

  /** Where a call is. From Holding on it owns its lock. */
  datatype Call =
    | Entered
    | Waiting(lock: Lock)
    | Holding(lock: Lock)
    | Decided(lock: Lock)          // read an open row: about to mark it stopping
    | MustClear(lock: Lock)        // read a failed row that names an instance
    | Marked(lock: Lock)           // wrote stopping
    | Destroying(lock: Lock)       // inside the verified destroy
    | Clearing(lock: Lock)         // asked the provider, about to write stopped
    | Leaving(lock: Lock)
    | Unlisted(lock: Lock)         // lock removed from the table, still held
    | Finished

  datatype World = World(calls: map<nat, Call>, table: Option<Lock>, held: set<Lock>, next: Lock,
                         status: SessionStatus, named: bool, attempts: nat)

  /** What may go wrong: store reads fail, store writes fail, or another writer makes a row that was past
      destroying ready for it again, as the manager does when it writes back its running copy. */
  datatype Faults = Faults(get: bool, update: bool, reopened: bool)

  datatype Step =
    | Arrive
    | GetLock
    | Acquire
    | ReadRow(ok: bool)
    | MarkStopping(ok: bool)
    | StartDestroy(registered: bool)
    | EndDestroy(verified: bool, ok: bool)
    | AskProvider
    | WriteStopped(ok: bool)
    | RemoveLock
    | Unlock
    | Rewrite(status: SessionStatus, named: bool)  // by any other writer of the row

  predicate Open(status: SessionStatus) {
    status == Pending || status == Provisioning || status == Running
  }

  /** A row in this state can start a destruction. */
  predicate Ready(status: SessionStatus, named: bool) {
    Open(status) || (status == Failed && named)
  }

  predicate Enabled(w: World, t: nat, step: Step, faults: Faults) {
    match step
    case Arrive => t !in w.calls
    case GetLock => t in w.calls && w.calls[t].Entered?
    case Acquire => t in w.calls && w.calls[t].Waiting? && w.calls[t].lock !in w.held
    case ReadRow(ok) => t in w.calls && w.calls[t].Holding? && (ok || faults.get)
    case MarkStopping(ok) => t in w.calls && w.calls[t].Decided? && (ok || faults.update)
    case StartDestroy(_) => t in w.calls && w.calls[t].Marked?
    case EndDestroy(_, ok) => t in w.calls && w.calls[t].Destroying? && (ok || faults.update)
    case AskProvider => t in w.calls && w.calls[t].MustClear?
    case WriteStopped(ok) => t in w.calls && w.calls[t].Clearing? && (ok || faults.update)
    case RemoveLock => t in w.calls && w.calls[t].Leaving?
    case Unlock => t in w.calls && w.calls[t].Unlisted?
    case Rewrite(status, named) => faults.reopened || Ready(w.status, w.named) || !Ready(status, named)
  }

  function Move(w: World, t: nat, call: Call): World {
    w.(calls := w.calls[t := call])
  }

  function Apply(w: World, t: nat, step: Step, faults: Faults): World
    requires Enabled(w, t, step, faults)
  {
    match step
    case Arrive => Move(w, t, Entered)
    case GetLock =>
      if w.table.Some? then Move(w, t, Waiting(w.table.value))
      else Move(w, t, Waiting(w.next)).(table := Some(w.next), next := w.next + 1)
    case Acquire => Move(w, t, Holding(w.calls[t].lock)).(held := w.held + {w.calls[t].lock})
    case ReadRow(ok) =>
      if !ok then Move(w, t, Leaving(w.calls[t].lock))
      else if Open(w.status) then Move(w, t, Decided(w.calls[t].lock))
      else if w.status == Failed && w.named then Move(w, t, MustClear(w.calls[t].lock))
      else Move(w, t, Leaving(w.calls[t].lock))
    case MarkStopping(ok) => Move(w, t, Marked(w.calls[t].lock)).(status := if ok then Stopping else w.status)
    case StartDestroy(registered) =>
      if registered then Move(w, t, Destroying(w.calls[t].lock)).(attempts := w.attempts + 1)
      else Move(w, t, Leaving(w.calls[t].lock))
    case EndDestroy(verified, ok) =>
      Move(w, t, Leaving(w.calls[t].lock)).(status := if verified && ok then Stopped else w.status)
    case AskProvider => Move(w, t, Clearing(w.calls[t].lock)).(attempts := w.attempts + 1)
    case WriteStopped(ok) =>
      Move(w, t, Leaving(w.calls[t].lock)).(status := if ok then Stopped else w.status, named := if ok then false else w.named)
    case RemoveLock => Move(w, t, Unlisted(w.calls[t].lock)).(table := None)
    case Unlock => Move(w, t, Finished).(held := w.held - {w.calls[t].lock})
    case Rewrite(status, named) => w.(status := status, named := named)
  }

  function Start(status: SessionStatus, named: bool): World {
    World(map[], None, {}, 0, status, named, 0)
  }

  ghost predicate Leads(w: World, steps: seq<(nat, Step)>, end: World, faults: Faults)
    decreases |steps|
  {
    if steps == [] then w == end
    else
      && Enabled(w, steps[0].0, steps[0].1, faults)
      && Leads(Apply(w, steps[0].0, steps[0].1, faults), steps[1..], end, faults)
  }

  // ---- Without faults ----

  const RELIABLE := Faults(false, false, false)

  predicate InSection(c: Call) {
    c.Holding? || c.Decided? || c.MustClear? || c.Clearing?
  }

  /** A call that will start a destruction, or is in one. */
  predicate Armed(c: Call) {
    c.Decided? || c.MustClear? || c.Marked? || InDestroy(c)
  }

  /** A call in its destruction: the verified one, or the single call for a failed session. */
  predicate InDestroy(c: Call) {
    c.Destroying? || c.Clearing?
  }

  /** While the row is ready no lock was ever dropped: all callers share the one in the table, and one of
      them at most is past it. */
  ghost predicate ReadyInv(w: World) {
    && (forall t <- w.calls :: w.calls[t].Entered? || w.calls[t].Waiting? || InSection(w.calls[t]))
    && (forall t <- w.calls :: !w.calls[t].Entered? ==> w.table == Some(w.calls[t].lock))
    && (forall t <- w.calls :: InSection(w.calls[t]) ==> w.calls[t].lock in w.held)
    && (forall a <- w.calls, b <- w.calls :: InSection(w.calls[a]) && InSection(w.calls[b]) ==> a == b)
    && (w.attempts > 0 ==> exists t <- w.calls :: w.calls[t].Clearing?)
    && w.attempts <= 1
  }

  /** Once it is not ready, at most one call will start a destruction or is in one, and if it will no other has. */
  ghost predicate ClosedInv(w: World) {
    && (forall a <- w.calls, b <- w.calls :: Armed(w.calls[a]) && Armed(w.calls[b]) ==> a == b)
    && (forall t <- w.calls :: Armed(w.calls[t]) && !InDestroy(w.calls[t]) ==> w.attempts == 0)
    && w.attempts <= 1
  }

  ghost predicate Inv(w: World) {
    if Ready(w.status, w.named) then ReadyInv(w) else ClosedInv(w)
  }

  lemma StepKeeps(w: World, t: nat, step: Step)
    requires Inv(w) && Enabled(w, t, step, RELIABLE)
    ensures Inv(Apply(w, t, step, RELIABLE))
  {
    hide ReadyInv, ClosedInv, Apply, Enabled;
    if step.Rewrite? {
      RewriteKeeps(w, t, step.status, step.named);
    } else if !Ready(w.status, w.named) {
      ClosedStepKeeps(w, t, step);
    } else if step.Arrive? || step.GetLock? || step.Acquire? {
      LockStepKeeps(w, t, step);
    } else if step.ReadRow? || step.AskProvider? {
      SectionStepKeeps(w, t, step);
    } else {
      ClosingStepKeeps(w, t, step);
    }
  }

  /** Other writers may write what they like, short of making the row ready again. */
  lemma RewriteKeeps(w: World, t: nat, status: SessionStatus, named: bool)
    requires Inv(w) && Enabled(w, t, Rewrite(status, named), RELIABLE)
    ensures Inv(Apply(w, t, Rewrite(status, named), RELIABLE))
  {
    if Ready(w.status, w.named) {
      ReadyIsClosed(w);
    }
  }

  /** A ready row meets what a closed one must. */
  lemma ReadyIsClosed(w: World)
    requires ReadyInv(w)
    ensures ClosedInv(w)
  {
    forall t | t in w.calls && Armed(w.calls[t])
      ensures InSection(w.calls[t]) && (!InDestroy(w.calls[t]) ==> w.attempts == 0)
    {
      if !w.calls[t].Clearing? {
        AloneHasNotStarted(w, t);
      }
    }
  }

  /** What the other calls are is not changed by a step of one call. */
  ghost predicate OthersSame(w: World, next: World, t: nat) {
    && (forall u <- next.calls :: u != t ==> u in w.calls && next.calls[u] == w.calls[u])
    && (forall u <- w.calls :: u in next.calls && (u != t ==> next.calls[u] == w.calls[u]))
  }

  /** A step on a closed row: nobody gets armed, and only an armed call starts a destruction. */
  lemma ClosedCallMoves(w: World, t: nat, step: Step)
    requires !Ready(w.status, w.named) && Enabled(w, t, step, RELIABLE) && !step.Rewrite?
    ensures var next := Apply(w, t, step, RELIABLE);
            && !Ready(next.status, next.named) && OthersSame(w, next, t) && t in next.calls
            && (Armed(next.calls[t]) ==> t in w.calls && Armed(w.calls[t]))
            && (next.attempts == w.attempts || (t in w.calls && Armed(w.calls[t]) && !InDestroy(w.calls[t]) && next.attempts == w.attempts + 1))
            && (Armed(next.calls[t]) && !InDestroy(next.calls[t]) ==> !InDestroy(w.calls[t]) && next.attempts == w.attempts)
  {
  }

  lemma ClosedStepKeeps(w: World, t: nat, step: Step)
    requires !Ready(w.status, w.named) && ClosedInv(w) && Enabled(w, t, step, RELIABLE) && !step.Rewrite?
    ensures !Ready(Apply(w, t, step, RELIABLE).status, Apply(w, t, step, RELIABLE).named) && ClosedInv(Apply(w, t, step, RELIABLE))
  {
    ClosedCallMoves(w, t, step);
    hide Apply, Enabled, Ready, Armed, InDestroy;
  }

  lemma LockStepKeeps(w: World, t: nat, step: Step)
    requires Ready(w.status, w.named) && ReadyInv(w) && Enabled(w, t, step, RELIABLE)
    requires step.Arrive? || step.GetLock? || step.Acquire?
    ensures Inv(Apply(w, t, step, RELIABLE))
  {
    hide ReadyInv;
    match step
    case Acquire => AcquireKeeps(w, t);
    case Arrive => ArriveKeeps(w, t);
    case GetLock => GetLockKeeps(w, t);
  }

  lemma ArriveKeeps(w: World, t: nat)
    requires ReadyInv(w) && Enabled(w, t, Arrive, RELIABLE)
    ensures ReadyInv(Apply(w, t, Arrive, RELIABLE))
  {
    StillClearing(w, Apply(w, t, Arrive, RELIABLE), t);
  }

  lemma GetLockKeeps(w: World, t: nat)
    requires ReadyInv(w) && Enabled(w, t, GetLock, RELIABLE)
    ensures ReadyInv(Apply(w, t, GetLock, RELIABLE))
  {
    StillClearing(w, Apply(w, t, GetLock, RELIABLE), t);
  }

  lemma AcquireKeeps(w: World, t: nat)
    requires ReadyInv(w) && Enabled(w, t, Acquire, RELIABLE)
    ensures ReadyInv(Apply(w, t, Acquire, RELIABLE))
  {
    var next := Apply(w, t, Acquire, RELIABLE);
    StillClearing(w, next, t);
    assert OthersSame(w, next, t);
    assert forall u <- w.calls :: !InSection(w.calls[u]);
  }

  lemma SectionStepKeeps(w: World, t: nat, step: Step)
    requires Ready(w.status, w.named) && ReadyInv(w) && Enabled(w, t, step, RELIABLE)
    requires step.ReadRow? || step.AskProvider?
    ensures Inv(Apply(w, t, step, RELIABLE))
  {
    var next := Apply(w, t, step, RELIABLE);
    assert InSection(w.calls[t]) && InSection(next.calls[t]);
    AloneHasNotStarted(w, t);
    assert next.attempts > 0 ==> next.calls[t].Clearing?;
    assert OthersSame(w, next, t);
  }

  lemma AloneHasNotStarted(w: World, t: nat)
    requires ReadyInv(w) && t in w.calls && InSection(w.calls[t]) && !w.calls[t].Clearing?
    ensures w.attempts == 0
  {
    assert forall c <- w.calls :: w.calls[c].Clearing? ==> InSection(w.calls[c]);
  }

  lemma StillClearing(w: World, next: World, t: nat)
    requires ReadyInv(w) && OthersSame(w, next, t)
    requires t in w.calls ==> !w.calls[t].Clearing?
    ensures w.attempts > 0 ==> exists u <- next.calls :: next.calls[u].Clearing?
  {
    if w.attempts > 0 {
      var c :| c in w.calls && w.calls[c].Clearing?;
      assert next.calls[c].Clearing?;
    }
  }

  /** The write that closes the row: its writer was alone past the lock. */
  lemma ClosingStepKeeps(w: World, t: nat, step: Step)
    requires Ready(w.status, w.named) && ReadyInv(w) && Enabled(w, t, step, RELIABLE)
    requires !step.Arrive? && !step.GetLock? && !step.Acquire? && !step.ReadRow? && !step.AskProvider? && !step.Rewrite?
    ensures Inv(Apply(w, t, step, RELIABLE))
  {
    assert step.MarkStopping? || step.WriteStopped?;
    assert InSection(w.calls[t]);
    if step.MarkStopping? {
      AloneHasNotStarted(w, t);
    }
  }

  lemma {:induction false} RunKeeps(w: World, steps: seq<(nat, Step)>, end: World)
    requires Inv(w) && Leads(w, steps, end, RELIABLE)
    ensures Inv(end)
    decreases |steps|
  {
    hide Inv, Enabled, Apply;
    if steps != [] {
      StepKeeps(w, steps[0].0, steps[0].1);
      RunKeeps(Apply(w, steps[0].0, steps[0].1, RELIABLE), steps[1..], end);
    }
  }

  /** Two calls are in their destructions at the same time. */
  ghost predicate TwoIn(w: World) {
    exists a <- w.calls, b <- w.calls :: a != b && InDestroy(w.calls[a]) && InDestroy(w.calls[b])
  }

  /** When nothing goes wrong, for any number of calls, in any order, from any status, and whatever other
      writers do short of making the row ready again: one destruction at most is started. */
  lemma DestroyedOnce(status: SessionStatus, named: bool, steps: seq<(nat, Step)>, end: World)
    requires Leads(Start(status, named), steps, end, RELIABLE)
    ensures end.attempts <= 1 && !TwoIn(end)
  {
    hide Leads, ReadyInv, ClosedInv;
    StartInv(status, named);
    RunKeeps(Start(status, named), steps, end);
    if Ready(end.status, end.named) {
      ReadyIsClosed(end);
    }
    ClosedBounds(end);
  }

  lemma StartInv(status: SessionStatus, named: bool)
    ensures Inv(Start(status, named))
  {
  }

  lemma ClosedBounds(w: World)
    requires ClosedInv(w)
    ensures w.attempts <= 1 && !TwoIn(w)
  {
  }

  // ---- With faults ----

  ghost predicate Takes(w: World, t: nat, step: Step, next: World, faults: Faults) {
    Enabled(w, t, step, faults) && next == Apply(w, t, step, faults)
  }

  /** Some run from here has two calls in their destructions at once, as its second and third or later attempt. */
  ghost predicate CanLetTwoIn(w: World, faults: Faults) {
    exists steps, end :: Leads(w, steps, end, faults) && TwoIn(end) && end.attempts >= 2
  }

  lemma IsTwoIn(w: World, faults: Faults)
    requires TwoIn(w) && w.attempts >= 2
    ensures CanLetTwoIn(w, faults)
  {
    hide TwoIn;
    assert Leads(w, [], w, faults);
  }

  lemma Then(w: World, t: nat, step: Step, next: World, faults: Faults)
    requires Takes(w, t, step, next, faults) && CanLetTwoIn(next, faults)
    ensures CanLetTwoIn(w, faults)
  {
    hide TwoIn, Enabled, Apply;
    var steps, end :| Leads(next, steps, end, faults) && TwoIn(end) && end.attempts >= 2;
    var longer := [(t, step)] + steps;
    assert longer[1..] == steps && longer[0] == (t, step);
    assert Leads(w, longer, end, faults);
  }

  /** A running session with an instance, at some point of a run. */
  function At(calls: map<nat, Call>, table: Option<Lock>, held: set<Lock>, next: Lock, attempts: nat): World {
    World(calls, table, held, next, Running, true, attempts)
  }

  /** The first caller has left and dropped the lock that the second one waits for. */
  function FirstLeft(attempts: nat): World {
    At(map[1 := Finished, 2 := Waiting(0)], None, {}, 1, attempts)
  }

  lemma BothDestroy(attempts: nat, faults: Faults)
    ensures CanLetTwoIn(At(map[1 := Finished, 2 := Decided(0), 3 := Decided(1)], Some(1), {0, 1}, 2, attempts), faults)
  {
    var w0 := At(map[1 := Finished, 2 := Decided(0), 3 := Decided(1)], Some(1), {0, 1}, 2, attempts);
    var w1 := Apply(w0, 2, MarkStopping(true), faults);
    var w2 := Apply(w1, 3, MarkStopping(true), faults);
    var w3 := Apply(w2, 2, StartDestroy(true), faults);
    var w4 := Apply(w3, 3, StartDestroy(true), faults);
    assert 2 in w4.calls && 3 in w4.calls && InDestroy(w4.calls[2]) && InDestroy(w4.calls[3]) && w4.attempts == attempts + 2;
    hide CanLetTwoIn, Apply;
    IsTwoIn(w4, faults);
    Then(w3, 3, StartDestroy(true), w4, faults);
    Then(w2, 2, StartDestroy(true), w3, faults);
    Then(w1, 3, MarkStopping(true), w2, faults);
    Then(w0, 2, MarkStopping(true), w1, faults);
  }

  lemma BothDecide(attempts: nat, faults: Faults)
    ensures CanLetTwoIn(At(map[1 := Finished, 2 := Waiting(0), 3 := Waiting(1)], Some(1), {}, 2, attempts), faults)
  {
    var w0 := At(map[1 := Finished, 2 := Waiting(0), 3 := Waiting(1)], Some(1), {}, 2, attempts);
    var w1 := Apply(w0, 2, Acquire, faults);
    var w2 := Apply(w1, 3, Acquire, faults);
    var w3 := Apply(w2, 2, ReadRow(true), faults);
    var w4 := Apply(w3, 3, ReadRow(true), faults);
    assert w4 == At(map[1 := Finished, 2 := Decided(0), 3 := Decided(1)], Some(1), {0, 1}, 2, attempts);
    hide CanLetTwoIn, Apply;
    BothDestroy(attempts, faults);
    Then(w3, 3, ReadRow(true), w4, faults);
    Then(w2, 2, ReadRow(true), w3, faults);
    Then(w1, 3, Acquire, w2, faults);
    Then(w0, 2, Acquire, w1, faults);
  }

  /** Once a lock is dropped under a waiting caller and the row is ready, a third caller gets a new lock and both
      go in. */
  lemma ThirdComes(attempts: nat, faults: Faults)
    ensures CanLetTwoIn(FirstLeft(attempts), faults)
  {
    var w0 := FirstLeft(attempts);
    var w1 := Apply(w0, 3, Arrive, faults);
    var w2 := Apply(w1, 3, GetLock, faults);
    assert w2 == At(map[1 := Finished, 2 := Waiting(0), 3 := Waiting(1)], Some(1), {}, 2, attempts);
    hide CanLetTwoIn, Apply;
    BothDecide(attempts, faults);
    Then(w1, 3, GetLock, w2, faults);
    Then(w0, 3, Arrive, w1, faults);
  }

  /** Two callers have asked for the lock and the first one holds it. */
  function FirstHolds(): World {
    At(map[1 := Holding(0), 2 := Waiting(0)], Some(0), {0}, 1, 0)
  }

  lemma TwoCome(faults: Faults)
    requires CanLetTwoIn(FirstHolds(), faults)
    ensures CanLetTwoIn(Start(Running, true), faults)
  {
    var w0 := Start(Running, true);
    var w1 := Apply(w0, 1, Arrive, faults);
    var w2 := Apply(w1, 2, Arrive, faults);
    var w3 := Apply(w2, 1, GetLock, faults);
    var w4 := Apply(w3, 2, GetLock, faults);
    var w5 := Apply(w4, 1, Acquire, faults);
    assert w5 == FirstHolds();
    hide CanLetTwoIn, Apply;
    Then(w4, 1, Acquire, w5, faults);
    Then(w3, 2, GetLock, w4, faults);
    Then(w2, 1, GetLock, w3, faults);
    Then(w1, 2, Arrive, w2, faults);
    Then(w0, 1, Arrive, w1, faults);
  }

  /** A failed read: the first caller leaves without having done anything. */
  lemma FailedReadLetsTwoIn(faults: Faults)
    requires faults.get
    ensures CanLetTwoIn(Start(Running, true), faults)
  {
    var w0 := FirstHolds();
    var w1 := Apply(w0, 1, ReadRow(false), faults);
    var w2 := Apply(w1, 1, RemoveLock, faults);
    var w3 := Apply(w2, 1, Unlock, faults);
    assert w3 == FirstLeft(0);
    hide CanLetTwoIn, Apply;
    ThirdComes(0, faults);
    Then(w2, 1, Unlock, w3, faults);
    Then(w1, 1, RemoveLock, w2, faults);
    Then(w0, 1, ReadRow(false), w1, faults);
    TwoCome(faults);
  }

  /** The first caller destroys without being able to verify it, having marked the row or failed to. */
  function FirstDestroys(status: SessionStatus): World {
    World(map[1 := Destroying(0), 2 := Waiting(0)], Some(0), {0}, 1, status, true, 1)
  }

  function FirstGone(status: SessionStatus): World {
    World(map[1 := Finished, 2 := Waiting(0)], None, {}, 1, status, true, 1)
  }

  lemma FirstStarts(marked: bool, faults: Faults)
    requires (marked || faults.update) && CanLetTwoIn(FirstDestroys(if marked then Stopping else Running), faults)
    ensures CanLetTwoIn(FirstHolds(), faults)
  {
    var w0 := FirstHolds();
    var w1 := Apply(w0, 1, ReadRow(true), faults);
    var w2 := Apply(w1, 1, MarkStopping(marked), faults);
    var w3 := Apply(w2, 1, StartDestroy(true), faults);
    assert w3 == FirstDestroys(if marked then Stopping else Running);
    hide CanLetTwoIn, Apply;
    Then(w2, 1, StartDestroy(true), w3, faults);
    Then(w1, 1, MarkStopping(marked), w2, faults);
    Then(w0, 1, ReadRow(true), w1, faults);
  }

  /** The first caller after its destruction, before and after taking its lock off the table. */
  function FirstLeaves(status: SessionStatus): World {
    World(map[1 := Leaving(0), 2 := Waiting(0)], Some(0), {0}, 1, status, true, 1)
  }

  function FirstUnlists(status: SessionStatus): World {
    World(map[1 := Unlisted(0), 2 := Waiting(0)], None, {0}, 1, status, true, 1)
  }

  lemma NotVerified(status: SessionStatus, faults: Faults)
    ensures Takes(FirstDestroys(status), 1, EndDestroy(false, true), FirstLeaves(status), faults)
  {
  }

  lemma TakesLockOff(status: SessionStatus, faults: Faults)
    ensures Takes(FirstLeaves(status), 1, RemoveLock, FirstUnlists(status), faults)
  {
  }

  lemma Unlocks(status: SessionStatus, faults: Faults)
    ensures Takes(FirstUnlists(status), 1, Unlock, FirstGone(status), faults)
  {
  }

  lemma FirstGivesUp(status: SessionStatus, faults: Faults)
    requires CanLetTwoIn(FirstGone(status), faults)
    ensures CanLetTwoIn(FirstDestroys(status), faults)
  {
    hide CanLetTwoIn, Takes, FirstDestroys, FirstLeaves, FirstUnlists, FirstGone;
    NotVerified(status, faults);
    TakesLockOff(status, faults);
    Unlocks(status, faults);
    Then(FirstUnlists(status), 1, Unlock, FirstGone(status), faults);
    Then(FirstLeaves(status), 1, RemoveLock, FirstUnlists(status), faults);
    Then(FirstDestroys(status), 1, EndDestroy(false, true), FirstLeaves(status), faults);
  }

  /** A failed write of "stopping": the first caller destroys all the same and leaves the row running. */
  lemma FailedWriteLetsTwoIn(faults: Faults)
    requires faults.update
    ensures CanLetTwoIn(Start(Running, true), faults)
  {
    hide CanLetTwoIn;
    assert FirstGone(Running) == FirstLeft(1);
    ThirdComes(1, faults);
    FirstGivesUp(Running, faults);
    FirstStarts(false, faults);
    TwoCome(faults);
  }

  /** No store fault at all: the first caller cannot verify its destruction, and another writer puts the row
      back to running, as the manager does with its stale copy after just that error. */
  lemma ReopenedRowLetsTwoIn(faults: Faults)
    requires faults.reopened
    ensures CanLetTwoIn(Start(Running, true), faults)
  {
    assert Takes(FirstGone(Stopping), 0, Rewrite(Running, true), FirstLeft(1), faults);
    hide CanLetTwoIn, Takes;
    ThirdComes(1, faults);
    Then(FirstGone(Stopping), 0, Rewrite(Running, true), FirstLeft(1), faults);
    FirstGivesUp(Stopping, faults);
    FirstStarts(true, faults);
    TwoCome(faults);
  }

  lemma AnyFaultLetsTwoIn(faults: Faults)
    requires faults != RELIABLE
    ensures CanLetTwoIn(Start(Running, true), faults)
  {
    hide CanLetTwoIn;
    if faults.get {
      FailedReadLetsTwoIn(faults);
    } else if faults.update {
      FailedWriteLetsTwoIn(faults);
    } else {
      ReopenedRowLetsTwoIn(faults);
    }
  }

  /** A run from some status that starts more than one destruction. */
  ghost predicate DestroysTwice(status: SessionStatus, named: bool, steps: seq<(nat, Step)>, end: World, faults: Faults) {
    Leads(Start(status, named), steps, end, faults) && end.attempts > 1
  }

  /** A run from some status that comes to two destructions at once. */
  ghost predicate Overlaps(status: SessionStatus, named: bool, steps: seq<(nat, Step)>, end: World, faults: Faults) {
    Leads(Start(status, named), steps, end, faults) && TwoIn(end)
  }

  lemma TwoInIsARun(faults: Faults)
    requires CanLetTwoIn(Start(Running, true), faults)
    ensures exists steps, end :: DestroysTwice(Running, true, steps, end, faults) && Overlaps(Running, true, steps, end, faults)
  {
    hide Leads, TwoIn;
    var steps, end :| Leads(Start(Running, true), steps, end, faults) && TwoIn(end) && end.attempts >= 2;
    assert DestroysTwice(Running, true, steps, end, faults) && Overlaps(Running, true, steps, end, faults);
  }

  /** Over all runs one destruction at most is started exactly when no store call fails and no other writer makes
      the row ready again. */
  lemma DestroyOnceExactlyWhen(faults: Faults)
    ensures (forall status, named, steps, end :: !DestroysTwice(status, named, steps, end, faults))
            <==> !faults.get && !faults.update && !faults.reopened
  {
    hide Leads, TwoIn, CanLetTwoIn;
    if faults == RELIABLE {
      forall status, named, steps, end
        ensures !DestroysTwice(status, named, steps, end, faults)
      {
        if Leads(Start(status, named), steps, end, faults) {
          DestroyedOnce(status, named, steps, end);
        }
      }
    } else {
      AnyFaultLetsTwoIn(faults);
      TwoInIsARun(faults);
    }
  }

  /** The documented promise, one destroy operation at a time per session, is kept under exactly the same
      condition. */
  lemma OneAtATimeExactlyWhen(faults: Faults)
    ensures (forall status, named, steps, end :: !Overlaps(status, named, steps, end, faults))
            <==> !faults.get && !faults.update && !faults.reopened
  {
    hide Leads, TwoIn, CanLetTwoIn;
    if faults == RELIABLE {
      forall status, named, steps, end
        ensures !Overlaps(status, named, steps, end, faults)
      {
        if Leads(Start(status, named), steps, end, faults) {
          DestroyedOnce(status, named, steps, end);
        }
      }
    } else {
      AnyFaultLetsTwoIn(faults);
      TwoInIsARun(faults);
    }
  }
}
