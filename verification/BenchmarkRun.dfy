/** A benchmark run: one dispatcher that claims entries and starts a worker for each, and the workers,
    interleaved in any way, behind a gate that lets one provision at a time. */
module BenchmarkRun {
  import opened Wrappers
  import opened Clock
  import opened Manifest

  const MAX_ATTEMPTS := 2
  const BATCH := 1000

  const FIND_OFFER := "find_offer"
  const PROVISION := "provision"
  const RETRY_EXHAUSTED := "retry_exhausted"
  const ALL_ATTEMPTS_FAILED := "all 2 attempts failed"

  /** Where a worker is: waiting for the gate, provisioning behind it, benchmarking, or after its last attempt. */
  datatype Stage = AtGate | InGate | Working | Exhausted | Finished

  /** A worker and its own copy of the entry. */
  datatype Worker = Worker(entry: ManifestEntry, attempt: nat, stage: Stage)

  datatype Phase = Fetching | Dispatching(queue: seq<string>) | Waiting | Finishing | Done

  datatype RunStatus = RunRunning | RunCompleted | RunFailed

  datatype Report = Report(status: RunStatus, pending: nat, running: nat, completed: nat, failed: nat)

  datatype World = World(
    runID: string,
    /** The entries of the run in the order they are fetched. */
    ids: seq<string>,
    rows: Entries,
    phase: Phase,
    workers: map<string, Worker>,
    /** How many places of the gate are taken. */
    taken: nat,
    report: Option<Report>,
    // History: the entries claimed, in order.
    claims: seq<string>)

  /** What goes wrong in an attempt after provisioning. */
  datatype Mishap = RanOut(stage: string) | Broke(reason: string, stage: string)

  datatype Step =
    | Fetch
    | Claim(workerID: string, now: Time)
    | AllFinished
    | Conclude
    | Enter(id: string)
    | NoOffers(id: string, reason: string, now: Time)
    | LaunchFails(id: string, offerID: string, reason: string, now: Time)
    | Launched(id: string, offerID: string, sessionID: string)
    | Fails(id: string, mishap: Mishap, now: Time)
    | Succeeds(id: string, now: Time)
    | GiveUp(id: string, now: Time)

  /** The pending entries of a list, in its order. */
  function PendingOf(rows: Entries, ids: seq<string>): (r: seq<string>)
    ensures forall id :: id in r <==> id in ids && IsPending(rows, id)
  {
    if ids == [] then []
    else
      var rest, last := PendingOf(rows, ids[..|ids| - 1]), ids[|ids| - 1];
      if IsPending(rows, last) then rest + [last] else rest
  }

  function FirstFew(ids: seq<string>): seq<string> {
    if |ids| > BATCH then ids[..BATCH] else ids
  }

  predicate AllWorkersFinished(w: World) {
    forall id <- w.workers :: w.workers[id].stage == Finished
  }

  predicate At(w: World, id: string, stage: Stage) {
    id in w.workers && w.workers[id].stage == stage
  }

  predicate Enabled(w: World, step: Step) {
    match step
    case Fetch => w.phase.Fetching?
    case Claim(_, _) => w.phase.Dispatching? && w.phase.queue != []
    case AllFinished => w.phase.Waiting? && AllWorkersFinished(w)
    case Conclude => w.phase.Finishing? && AllWorkersFinished(w)
    case Enter(id) => At(w, id, AtGate) && w.taken < 1
    case NoOffers(id, _, _) => At(w, id, InGate) && w.taken > 0
    case LaunchFails(id, _, _, _) => At(w, id, InGate) && w.taken > 0
    case Launched(id, _, _) => At(w, id, InGate) && w.taken > 0
    case Fails(id, _, _) => At(w, id, Working)
    case Succeeds(id, _) => At(w, id, Working)
    case GiveUp(id, _) => At(w, id, Exhausted)
  }

  function Moved(w: World, id: string, worker: Worker): World {
    w.(workers := w.workers[id := worker])
  }

  /** A worker after an attempt that may be retried: it forgets the session and offer and goes back to the
      gate, or it has used up its attempts. */
  function Retrying(worker: Worker): Worker {
    if worker.attempt < MAX_ATTEMPTS
    then Worker(worker.entry.(sessionID := "", offerID := ""), worker.attempt + 1, AtGate)
    else worker.(stage := Exhausted)
  }

  function AfterMishap(rows: Entries, id: string, mishap: Mishap, now: Time): Entries {
    match mishap
    case RanOut(stage) => TimedOut(rows, id, stage, now)
    case Broke(reason, stage) => FailedAt(rows, id, reason, stage, now)
  }

  /** The dispatcher with one entry less to dispatch; when none is left it fetches again. */
  function Next(queue: seq<string>): Phase {
    if |queue| <= 1 then Fetching else Dispatching(queue[1..])
  }

  /** The run's final counts and status. */
  ghost function Reported(rows: Entries, runID: string): Report {
    var completed, failed := |OfStatus(rows, runID, Success)|, |OfStatus(rows, runID, Failed)| + |OfStatus(rows, runID, Timeout)|;
    var pending, running := |OfStatus(rows, runID, Pending)|, |OfStatus(rows, runID, Running)|;
    Report(if pending != 0 || running != 0 then RunRunning else if failed > 0 && completed == 0 then RunFailed else RunCompleted,
           pending, running, completed, failed)
  }

  ghost function Apply(w: World, step: Step): World
    requires Enabled(w, step)
  {
    match step
    case Fetch =>
      var list := FirstFew(PendingOf(w.rows, w.ids));
      w.(phase := if list == [] then Waiting else Dispatching(list))
    case Claim(workerID, now) =>
      var id, next := w.phase.queue[0], w.(phase := Next(w.phase.queue));
      if !IsPending(w.rows, id) then next
      else next.(rows := Claimed(w.rows, id, workerID, now),
                 // The copy was fetched before the claim; only its status is brought up to date.
                 workers := w.workers[id := Worker(w.rows[id].(status := Running), 1, AtGate)],
                 claims := w.claims + [id])
    case AllFinished => w.(phase := if PendingOf(w.rows, w.ids) == [] then Finishing else Fetching)
    case Conclude => w.(phase := Done, report := Some(Reported(w.rows, w.runID)))
    case Enter(id) => Moved(w, id, w.workers[id].(stage := InGate)).(taken := w.taken + 1)
    case NoOffers(id, reason, now) =>
      Moved(w, id, w.workers[id].(stage := Finished))
        .(rows := FailedAt(w.rows, id, reason, FIND_OFFER, now), taken := w.taken - 1)
    case LaunchFails(id, offerID, reason, now) =>
      Moved(w, id, Retrying(w.workers[id].(entry := w.workers[id].entry.(offerID := offerID))))
        .(rows := FailedAt(w.rows, id, reason, PROVISION, now), taken := w.taken - 1)
    case Launched(id, offerID, sessionID) =>
      var copy := w.workers[id].entry.(offerID := offerID, sessionID := sessionID);
      Moved(w, id, w.workers[id].(entry := copy, stage := Working))
        .(rows := Rewritten(w.rows, copy), taken := w.taken - 1)
    case Fails(id, mishap, now) =>
      Moved(w, id, Retrying(w.workers[id])).(rows := AfterMishap(w.rows, id, mishap, now))
    case Succeeds(id, now) =>
      Moved(w, id, w.workers[id].(stage := Finished)).(rows := Succeeded(w.rows, id, now))
    case GiveUp(id, now) =>
      Moved(w, id, w.workers[id].(stage := Finished))
        .(rows := FailedAt(w.rows, id, ALL_ATTEMPTS_FAILED, RETRY_EXHAUSTED, now))
  }

  ghost predicate Distinct(ids: seq<string>) {
    forall i, j :: 0 <= i < j < |ids| ==> ids[i] != ids[j]
  }

  /** A run as it starts: every entry pending. */
  ghost predicate Starts(w: World) {
    && Distinct(w.ids) && w.rows.Keys == (set id | id in w.ids)
    && (forall id <- w.rows :: w.rows[id].id == id && w.rows[id].runID == w.runID && w.rows[id].status == Pending && w.rows[id].workerID == "")
    && w.phase == Fetching && w.workers == map[] && w.taken == 0 && w.report == None && w.claims == []
  }

  ghost predicate Leads(w: World, steps: seq<Step>, end: World)
    decreases |steps|
  {
    if steps == [] then w == end else Enabled(w, steps[0]) && Leads(Apply(w, steps[0]), steps[1..], end)
  }

  // ---- What every reachable world keeps ----

  function InGateNow(w: World): set<string> {
    set id | id in w.workers && w.workers[id].stage == InGate
  }

  /** An entry and its worker, if it has one: pending exactly while unclaimed; settled when the worker is
      finished; never more than two attempts; a copy that is never pending. */
  ghost predicate EntryOk(rows: Entries, workers: map<string, Worker>, id: string)
    requires id in rows
  {
    && rows[id].id == id
    && (id !in workers <==> rows[id].status == Pending)
    && (id !in workers ==> rows[id].workerID == "")
    && (id in workers ==>
          && workers[id].entry.status == Running && workers[id].entry.id == id && workers[id].entry.workerID == ""
          && (workers[id].stage == Working ==> rows[id].workerID == "" && rows[id].status == Running)
          && 1 <= workers[id].attempt <= MAX_ATTEMPTS
          && (workers[id].stage == Exhausted ==> workers[id].attempt == MAX_ATTEMPTS)
          && (workers[id].stage == Finished ==> rows[id].status == Success || rows[id].status == Failed))
  }

  ghost predicate EntriesOk(w: World) {
    forall id <- w.rows :: EntryOk(w.rows, w.workers, id)
  }

  ghost predicate ClaimsOk(w: World) {
    && Distinct(w.claims)
    && (forall id :: id in w.claims <==> id in w.workers)
  }

  ghost predicate PhaseOk(w: World) {
    match w.phase
    case Dispatching(queue) => queue != [] && Distinct(queue) && forall id <- queue :: IsPending(w.rows, id)
    case Waiting => NothingPending(w)
    case Finishing => NothingPending(w) && AllWorkersFinished(w)
    case Done => NothingPending(w) && AllWorkersFinished(w) && w.report == Some(Reported(w.rows, w.runID))
    case Fetching => true
  }

  ghost predicate NothingPending(w: World) {
    forall id <- w.rows :: w.rows[id].status != Pending
  }

  ghost predicate Shape(w: World) {
    && Distinct(w.ids) && (forall id :: id in w.rows <==> id in w.ids)
    && (forall id <- w.rows :: w.rows[id].runID == w.runID)
    && w.workers.Keys <= w.rows.Keys
  }

  ghost predicate Inv(w: World) {
    && Shape(w) && EntriesOk(w) && ClaimsOk(w) && PhaseOk(w)
    && w.taken == |InGateNow(w)| && w.taken <= 1
  }

  lemma StartInv(w: World)
    requires Starts(w)
    ensures Inv(w)
  {
    assert InGateNow(w) == {};
  }

  /** What a worker's step changes: its own row, to something not pending, and itself. */
  ghost predicate OwnStep(w: World, next: World, id: string) {
    && id in w.workers && w.workers.Keys <= w.rows.Keys && id in next.rows && id in next.workers
    && next.rows == w.rows[id := next.rows[id]] && next.workers == w.workers[id := next.workers[id]]
    && next.rows[id].runID == w.rows[id].runID && next.runID == w.runID
    && next.ids == w.ids && next.phase == w.phase && next.claims == w.claims && next.report == w.report
    && w.workers[id].stage != Finished
    && EntryOk(next.rows, next.workers, id)
  }

  lemma WorkerStepIsOwn(w: World, step: Step)
    requires Inv(w) && Enabled(w, step)
    requires step.Enter? || step.NoOffers? || step.LaunchFails? || step.Launched? || step.Fails? || step.Succeeds? || step.GiveUp?
    ensures OwnStep(w, Apply(w, step), step.id)
  {
    hide ClaimsOk, PhaseOk, InGateNow, Distinct, EntryOk;
    WorkerStepRow(w, step);
    WorkerCopy(w, step.id);
  }

  lemma WorkerCopy(w: World, id: string)
    requires EntriesOk(w) && w.workers.Keys <= w.rows.Keys && id in w.workers
    ensures w.workers[id].entry.id == id
  {
    assert EntryOk(w.rows, w.workers, id);
  }

  lemma WorkerStepRow(w: World, step: Step)
    requires Enabled(w, step) && w.workers.Keys <= w.rows.Keys && EntriesOk(w)
    requires step.Enter? || step.NoOffers? || step.LaunchFails? || step.Launched? || step.Fails? || step.Succeeds? || step.GiveUp?
    ensures step.id in Apply(w, step).rows && step.id in Apply(w, step).workers
    ensures EntryOk(Apply(w, step).rows, Apply(w, step).workers, step.id)
  {
    assert EntryOk(w.rows, w.workers, step.id);
    hide EntriesOk;
    if step.NoOffers? || step.LaunchFails? || step.Launched? {
      GateStepRow(w, step);
    }
  }

  lemma GateStepRow(w: World, step: Step)
    requires Enabled(w, step) && (step.NoOffers? || step.LaunchFails? || step.Launched?)
    requires step.id in w.rows && EntryOk(w.rows, w.workers, step.id)
    ensures step.id in Apply(w, step).rows && step.id in Apply(w, step).workers
    ensures EntryOk(Apply(w, step).rows, Apply(w, step).workers, step.id)
  {
  }

  lemma OwnStepKeeps(w: World, next: World, id: string)
    requires Inv(w) && OwnStep(w, next, id)
    ensures Shape(next) && EntriesOk(next) && ClaimsOk(next)
    ensures PhaseOk(next)
  {
    hide InGateNow, Distinct, Reported;
    forall other | other in next.rows && other != id
      ensures EntryOk(next.rows, next.workers, other)
    {
      assert EntryOk(w.rows, w.workers, other);
    }
  }

  lemma GateAfter(w: World, next: World, id: string)
    requires id in w.workers && id in next.workers && next.workers == w.workers[id := next.workers[id]]
    ensures var before, after := w.workers[id].stage == InGate, next.workers[id].stage == InGate;
            |InGateNow(next)| == |InGateNow(w)| + (if after then 1 else 0) - (if before then 1 else 0)
  {
    var rest := InGateNow(w) - {id};
    InGateIs(w, id, rest);
    assert rest == InGateNow(next) - {id} by {
      forall other
        ensures other in rest <==> other in InGateNow(next) - {id}
      {
        assert other != id ==> (other in w.workers <==> other in next.workers);
      }
    }
    InGateIs(next, id, rest);
  }

  lemma InGateIs(w: World, id: string, rest: set<string>)
    requires id in w.workers && rest == InGateNow(w) - {id}
    ensures |InGateNow(w)| == |rest| + if w.workers[id].stage == InGate then 1 else 0
  {
    if w.workers[id].stage == InGate {
      assert InGateNow(w) == rest + {id};
    } else {
      assert InGateNow(w) == rest;
    }
  }

  lemma WorkerStepKeeps(w: World, step: Step)
    requires Inv(w) && Enabled(w, step)
    requires step.Enter? || step.NoOffers? || step.LaunchFails? || step.Launched? || step.Fails? || step.Succeeds? || step.GiveUp?
    ensures Inv(Apply(w, step))
  {
    hide Apply, Enabled, OwnStep, Shape, EntriesOk, ClaimsOk, PhaseOk, InGateNow, Distinct;
    WorkerStepIsOwn(w, step);
    OwnStepKeeps(w, Apply(w, step), step.id);
    GateKeeps(w, step);
  }

  /** The places taken are always those of the workers behind the gate, at most one. */
  lemma GateKeeps(w: World, step: Step)
    requires w.taken == |InGateNow(w)| && w.taken <= 1 && Enabled(w, step)
    requires step.Enter? || step.NoOffers? || step.LaunchFails? || step.Launched? || step.Fails? || step.Succeeds? || step.GiveUp?
    ensures Apply(w, step).taken == |InGateNow(Apply(w, step))| && Apply(w, step).taken <= 1
  {
    hide InGateNow, FailedAt, Rewritten, Succeeded, AfterMishap;
    GateAfter(w, Apply(w, step), step.id);
  }

  lemma {:induction false} PendingDistinct(rows: Entries, ids: seq<string>)
    requires Distinct(ids)
    ensures Distinct(PendingOf(rows, ids))
  {
    if ids != [] {
      var init := ids[..|ids| - 1];
      PendingDistinct(rows, init);
      assert ids == init + [ids[|ids| - 1]];
    }
  }

  lemma FewDistinct(ids: seq<string>)
    requires Distinct(ids)
    ensures Distinct(FirstFew(ids))
  {
  }

  /** Nothing pending in a list leaves nothing to fetch. */
  lemma {:induction false} NothingToFetch(rows: Entries, ids: seq<string>)
    requires forall id <- ids :: !IsPending(rows, id)
    ensures PendingOf(rows, ids) == []
  {
    if ids != [] {
      NothingToFetch(rows, ids[..|ids| - 1]);
    }
  }

  lemma FetchKeeps(w: World)
    requires Inv(w) && Enabled(w, Fetch)
    ensures Inv(Apply(w, Fetch))
  {
    hide EntryOk, Distinct;
    PendingDistinct(w.rows, w.ids);
    FewDistinct(PendingOf(w.rows, w.ids));
    var pending := PendingOf(w.rows, w.ids);
    var list := FirstFew(pending);
    assert forall id <- list :: id in pending;
    assert InGateNow(Apply(w, Fetch)) == InGateNow(w);
    if list == [] {
      assert pending == [];
      assert forall id <- w.rows :: id in w.ids && id !in pending;
    }
  }

  lemma ClaimKeeps(w: World, workerID: string, now: Time)
    requires Inv(w) && Enabled(w, Claim(workerID, now))
    ensures Inv(Apply(w, Claim(workerID, now)))
  {
    var id, next := w.phase.queue[0], Apply(w, Claim(workerID, now));
    assert id in w.phase.queue && IsPending(w.rows, id);
    ClaimKeepsEntries(w, workerID, now);
    ClaimKeepsPhase(w, workerID, now);
    PendingIsUnclaimed(w, id);
    hide EntriesOk, PhaseOk, Distinct, ClaimsOk, InGateNow, WithRunning;
    ClaimKeepsGate(w, workerID, now);
    ClaimKeepsClaims(w, workerID, now);
  }

  lemma ClaimKeepsGate(w: World, workerID: string, now: Time)
    requires Enabled(w, Claim(workerID, now)) && w.phase.queue[0] !in w.workers
    ensures InGateNow(Apply(w, Claim(workerID, now))) == InGateNow(w)
  {
    hide WithRunning;
  }

  lemma ClaimKeepsClaims(w: World, workerID: string, now: Time)
    requires Enabled(w, Claim(workerID, now)) && ClaimsOk(w) && IsPending(w.rows, w.phase.queue[0]) && w.phase.queue[0] !in w.claims
    ensures ClaimsOk(Apply(w, Claim(workerID, now)))
  {
    hide Distinct, WithRunning;
    ClaimedOnce(w.claims, w.phase.queue[0]);
  }

  lemma ClaimKeepsPhase(w: World, workerID: string, now: Time)
    requires PhaseOk(w) && Enabled(w, Claim(workerID, now))
    ensures PhaseOk(Apply(w, Claim(workerID, now)))
  {
    hide AllWorkersFinished, Reported, NothingPending;
    var queue, next := w.phase.queue, Apply(w, Claim(workerID, now));
    TailDistinct(queue);
    if |queue| > 1 {
      forall other | other in queue[1..]
        ensures IsPending(next.rows, other)
      {
        assert other in queue && IsPending(w.rows, other);
      }
    }
  }

  lemma PendingIsUnclaimed(w: World, id: string)
    requires EntriesOk(w) && ClaimsOk(w) && IsPending(w.rows, id)
    ensures id !in w.claims && id !in w.workers
  {
    assert EntryOk(w.rows, w.workers, id);
  }

  lemma ClaimKeepsEntries(w: World, workerID: string, now: Time)
    requires EntriesOk(w) && Enabled(w, Claim(workerID, now)) && IsPending(w.rows, w.phase.queue[0])
    ensures EntriesOk(Apply(w, Claim(workerID, now)))
  {
    var next := Apply(w, Claim(workerID, now));
    forall other | other in next.rows
      ensures EntryOk(next.rows, next.workers, other)
    {
      assert EntryOk(w.rows, w.workers, other);
    }
  }

  lemma ClaimedOnce(claims: seq<string>, id: string)
    requires Distinct(claims) && id !in claims
    ensures Distinct(claims + [id]) && forall x :: x in claims + [id] <==> x in claims || x == id
  {
  }

  lemma TailDistinct(queue: seq<string>)
    requires Distinct(queue) && queue != []
    ensures Distinct(queue[1..]) && queue[0] !in queue[1..]
  {
  }

  lemma DispatcherStepKeeps(w: World, step: Step)
    requires Inv(w) && Enabled(w, step) && (step.AllFinished? || step.Conclude?)
    ensures Inv(Apply(w, step))
  {
    hide EntryOk, Distinct, Reported, PendingOf;
    assert InGateNow(Apply(w, step)) == InGateNow(w);
  }

  lemma StepKeeps(w: World, step: Step)
    requires Inv(w) && Enabled(w, step)
    ensures Inv(Apply(w, step))
  {
    hide Inv, Enabled, Apply;
    match step
    case Fetch => FetchKeeps(w);
    case Claim(workerID, now) => ClaimKeeps(w, workerID, now);
    case AllFinished => DispatcherStepKeeps(w, step);
    case Conclude => DispatcherStepKeeps(w, step);
    case Enter(_) => WorkerStepKeeps(w, step);
    case NoOffers(_, _, _) => WorkerStepKeeps(w, step);
    case LaunchFails(_, _, _, _) => WorkerStepKeeps(w, step);
    case Launched(_, _, _) => WorkerStepKeeps(w, step);
    case Fails(_, _, _) => WorkerStepKeeps(w, step);
    case Succeeds(_, _) => WorkerStepKeeps(w, step);
    case GiveUp(_, _) => WorkerStepKeeps(w, step);
  }

  lemma {:induction false} RunKeeps(w: World, steps: seq<Step>, end: World)
    requires Inv(w) && Leads(w, steps, end)
    ensures Inv(end) && end.ids == w.ids
    decreases |steps|
  {
    hide Inv, Enabled;
    if steps != [] {
      StepKeeps(w, steps[0]);
      RunKeeps(Apply(w, steps[0]), steps[1..], end);
    }
  }

  /** Under every schedule at most one worker is behind the gate, no entry is claimed twice, and no worker
      starts a third attempt. */
  lemma OneAtATime(start: World, steps: seq<Step>, end: World)
    requires Starts(start) && Leads(start, steps, end)
    ensures forall a, b :: At(end, a, InGate) && At(end, b, InGate) ==> a == b
    ensures Distinct(end.claims)
    ensures forall id <- end.workers :: end.workers[id].attempt <= MAX_ATTEMPTS
  {
    hide Leads, Starts;
    StartInv(start);
    RunKeeps(start, steps, end);
    forall a, b | At(end, a, InGate) && At(end, b, InGate)
      ensures a == b
    {
      AtMostOne(InGateNow(end), a, b);
    }
    forall id | id in end.workers
      ensures end.workers[id].attempt <= MAX_ATTEMPTS
    {
      assert EntryOk(end.rows, end.workers, id);
    }
  }

  lemma AtMostOne(s: set<string>, a: string, b: string)
    requires |s| <= 1 && a in s && b in s
    ensures a == b
  {
    if a != b {
      assert {a, b} <= s;
      SubsetSize({a, b}, s);
    }
  }

  lemma SubsetSize(a: set<string>, b: set<string>)
    requires a <= b
    ensures |a| <= |b|
  {
    assert b == a + (b - a);
  }

  /** A run that is done: every entry was claimed exactly once and ended in success or failure, never in a
      timeout; the counts add up, and the run has its final status. */
  lemma DoneIsComplete(start: World, steps: seq<Step>, end: World)
    requires Starts(start) && Leads(start, steps, end) && end.phase == Done
    ensures forall id <- end.rows :: end.rows[id].status == Success || end.rows[id].status == Failed
    ensures Distinct(end.claims) && forall id :: id in end.claims <==> id in start.ids
    ensures end.report.Some?
    ensures var r := end.report.value;
            && r.completed + r.failed == |start.ids| && r.pending == 0 && r.running == 0
            && (r.status == RunFailed <==> r.completed == 0 && start.ids != []) && r.status != RunRunning
  {
    hide Leads, Inv, Distinct, Reported;
    StartInv(start);
    RunKeeps(start, steps, end);
    DoneRows(end);
    DoneReport(end);
  }

  lemma DoneRows(w: World)
    requires Inv(w) && w.phase == Done
    ensures forall id <- w.rows :: (w.rows[id].status == Success || w.rows[id].status == Failed) && id in w.workers
    ensures forall id <- w.rows :: w.rows[id].runID == w.runID
    ensures forall id :: id in w.rows <==> id in w.ids
    ensures Distinct(w.ids) && Distinct(w.claims) && forall id :: id in w.claims <==> id in w.ids
    ensures w.report == Some(Reported(w.rows, w.runID))
  {
    hide Distinct, Reported, InGateNow;
    forall id | id in w.rows
      ensures (w.rows[id].status == Success || w.rows[id].status == Failed) && id in w.workers
    {
      assert EntryOk(w.rows, w.workers, id);
    }
  }

  lemma DoneReport(w: World)
    requires Inv(w) && w.phase == Done
    ensures w.report.Some?
    ensures var r := w.report.value;
            && r.completed + r.failed == |w.ids| && r.pending == 0 && r.running == 0
            && (r.status == RunFailed <==> r.completed == 0 && w.ids != []) && r.status != RunRunning
  {
    DoneRows(w);
    hide Inv, Distinct, OfStatus;
    assert OfRun(w.rows, w.runID) == w.rows.Keys;
    AllSettled(w.rows, w.runID);
    SizeOfDistinct(w.ids, w.rows.Keys);
  }

  /** While an entry is benchmarked its row no longer tells which worker claimed it: the launch writes back
      the copy fetched before the claim. */
  lemma LaunchForgetsWorker(start: World, steps: seq<Step>, end: World, id: string)
    requires Starts(start) && Leads(start, steps, end) && At(end, id, Working)
    ensures id in end.rows && end.rows[id].workerID == "" && end.rows[id].status == Running
  {
    hide Leads, Starts;
    StartInv(start);
    RunKeeps(start, steps, end);
    assert EntryOk(end.rows, end.workers, id);
  }

  lemma {:induction false} SizeOfDistinct(ids: seq<string>, s: set<string>)
    requires Distinct(ids) && forall id :: id in s <==> id in ids
    ensures |s| == |ids|
  {
    if ids == [] {
      assert s == {};
    } else {
      var init, last := ids[..|ids| - 1], ids[|ids| - 1];
      assert ids == init + [last];
      SizeOfDistinct(init, s - {last});
    }
  }

  // ---- Every schedule ends ----

  /** Steps a worker may still take. */
  function StepsLeft(worker: Worker): nat {
    (if worker.attempt < MAX_ATTEMPTS then 3 else 0)
    + match worker.stage
      case AtGate => 4
      case InGate => 3
      case Working => 2
      case Exhausted => 1
      case Finished => 0
  }

  function EntryLeft(w: World, id: string): nat {
    if id in w.workers then (if w.workers[id].stage == Finished then 0 else StepsLeft(w.workers[id])) else 9
  }

  function EntriesLeft(w: World, ids: seq<string>): nat {
    if ids == [] then 0 else EntriesLeft(w, ids[..|ids| - 1]) + EntryLeft(w, ids[|ids| - 1])
  }

  function PhaseLeft(phase: Phase): nat {
    match phase
    case Fetching => 4
    case Dispatching(_) => 3
    case Waiting => 2
    case Finishing => 1
    case Done => 0
  }

  function Left(w: World): nat {
    EntriesLeft(w, w.ids) + PhaseLeft(w.phase)
  }

  lemma {:induction false} SameLeft(w: World, next: World, ids: seq<string>)
    requires forall id <- ids :: EntryLeft(next, id) == EntryLeft(w, id)
    ensures EntriesLeft(next, ids) == EntriesLeft(w, ids)
  {
    if ids != [] {
      SameLeft(w, next, ids[..|ids| - 1]);
    }
  }

  lemma {:induction false} OneLess(w: World, next: World, ids: seq<string>, id: string)
    requires Distinct(ids) && id in ids
    requires forall other <- ids :: other != id ==> EntryLeft(next, other) == EntryLeft(w, other)
    ensures EntriesLeft(next, ids) - EntryLeft(next, id) == EntriesLeft(w, ids) - EntryLeft(w, id)
  {
    hide EntryLeft;
    var init, last := ids[..|ids| - 1], ids[|ids| - 1];
    assert ids == init + [last];
    if last == id {
      SameLeft(w, next, init);
    } else {
      OneLess(w, next, init, id);
    }
  }

  lemma WorkerStepLess(w: World, step: Step)
    requires Inv(w) && Enabled(w, step)
    requires step.Enter? || step.NoOffers? || step.LaunchFails? || step.Launched? || step.Fails? || step.Succeeds? || step.GiveUp?
    ensures Left(Apply(w, step)) < Left(w)
  {
    WorkerStepIsOwn(w, step);
    OwnLess(w, step);
    hide ClaimsOk, PhaseOk, InGateNow, Distinct, EntriesOk, EntryOk, Apply, Enabled, StepsLeft;
    OneLess(w, Apply(w, step), w.ids, step.id);
  }

  lemma OwnLess(w: World, step: Step)
    requires Inv(w) && Enabled(w, step)
    requires step.Enter? || step.NoOffers? || step.LaunchFails? || step.Launched? || step.Fails? || step.Succeeds? || step.GiveUp?
    ensures EntryLeft(Apply(w, step), step.id) < EntryLeft(w, step.id)
  {
    hide ClaimsOk, PhaseOk, InGateNow, Distinct, FailedAt, Rewritten, Succeeded, AfterMishap;
    assert EntryOk(w.rows, w.workers, step.id);
    hide EntriesOk;
  }

  /** Every step brings the run nearer to its end. */
  lemma StepLess(w: World, step: Step)
    requires Inv(w) && Enabled(w, step)
    ensures Left(Apply(w, step)) < Left(w)
  {
    hide EntriesOk, ClaimsOk, InGateNow, Distinct, Reported;
    var next := Apply(w, step);
    match step
    case Fetch => SameLeft(w, next, w.ids);
    case Claim(_, _) =>
      var id := w.phase.queue[0];
      assert IsPending(w.rows, id);
      assert EntryOk(w.rows, w.workers, id) by { EntryAt(w, id); }
      OneLess(w, next, w.ids, id);
    case AllFinished =>
      NothingToFetch(w.rows, w.ids);
      SameLeft(w, next, w.ids);
    case Conclude => SameLeft(w, next, w.ids);
    case Enter(_) => WorkerStepLess(w, step);
    case NoOffers(_, _, _) => WorkerStepLess(w, step);
    case LaunchFails(_, _, _, _) => WorkerStepLess(w, step);
    case Launched(_, _, _) => WorkerStepLess(w, step);
    case Fails(_, _, _) => WorkerStepLess(w, step);
    case Succeeds(_, _) => WorkerStepLess(w, step);
    case GiveUp(_, _) => WorkerStepLess(w, step);
  }

  lemma EntryAt(w: World, id: string)
    requires EntriesOk(w) && id in w.rows
    ensures EntryOk(w.rows, w.workers, id)
  {
  }

  lemma {:induction false} RunIsBounded(w: World, steps: seq<Step>, end: World)
    requires Inv(w) && Leads(w, steps, end)
    ensures |steps| + Left(end) <= Left(w)
    decreases |steps|
  {
    hide Inv, Enabled, Left;
    if steps != [] {
      StepKeeps(w, steps[0]);
      StepLess(w, steps[0]);
      RunIsBounded(Apply(w, steps[0]), steps[1..], end);
    }
  }

  lemma {:induction false} LeftAtStart(w: World, ids: seq<string>)
    requires w.workers == map[]
    ensures EntriesLeft(w, ids) == 9 * |ids|
  {
    if ids != [] {
      LeftAtStart(w, ids[..|ids| - 1]);
    }
  }

  /** A world that is not done has a step it can take. */
  lemma NeverStuck(w: World)
    requires Inv(w) && w.phase != Done
    ensures exists step :: Enabled(w, step)
  {
    hide ClaimsOk, EntriesOk, Distinct;
    match w.phase
    case Fetching => assert Enabled(w, Fetch);
    case Dispatching(_) => assert Enabled(w, Claim("", 0));
    case Finishing => assert Enabled(w, Conclude);
    case Waiting =>
      if AllWorkersFinished(w) {
        assert Enabled(w, AllFinished);
      } else {
        var id :| id in w.workers && w.workers[id].stage != Finished;
        WorkerCanStep(w, id);
      }
  }

  lemma WorkerCanStep(w: World, id: string)
    requires w.taken == |InGateNow(w)| && id in w.workers && w.workers[id].stage != Finished
    ensures exists step :: Enabled(w, step)
  {
    match w.workers[id].stage
    case Working => assert Enabled(w, Succeeds(id, 0));
    case Exhausted => assert Enabled(w, GiveUp(id, 0));
    case InGate =>
      assert id in InGateNow(w);
      assert Enabled(w, NoOffers(id, "", 0));
    case AtGate =>
      if w.taken == 0 {
        assert Enabled(w, Enter(id));
      } else {
        var holder :| holder in InGateNow(w);
        assert Enabled(w, NoOffers(holder, "", 0));
      }
  }

  /** Every schedule of a run of n entries ends after at most 9n + 4 steps, and only when the run is done. */
  lemma RunTerminates(start: World, steps: seq<Step>, end: World)
    requires Starts(start) && Leads(start, steps, end)
    ensures |steps| <= 9 * |start.ids| + 4
    ensures (exists step :: Enabled(end, step)) || end.phase == Done
  {
    hide Leads;
    StartInv(start);
    LeftAtStart(start, start.ids);
    RunIsBounded(start, steps, end);
    RunKeeps(start, steps, end);
    if end.phase != Done {
      NeverStuck(end);
    }
  }
}
