/** The benchmark manifest: one row per entry of a run, claimed by compare-and-set. */
module Manifest {
  import opened Wrappers
  import opened Clock

  datatype ManifestStatus = Pending | Running | Success | Failed | Timeout

  /** The smaller the priority number, the sooner. */
  datatype ManifestEntry = ManifestEntry(id: string, runID: string, priority: int, createdAt: Time, status: ManifestStatus, workerID: string,
                                         sessionID: string, offerID: string, failureReason: string, failureStage: string,
                                         startedAt: Option<Time>, completedAt: Option<Time>)

  /** The order entries are fetched in. */
  predicate NotAfter(a: ManifestEntry, b: ManifestEntry) {
    a.priority < b.priority || (a.priority == b.priority && a.createdAt <= b.createdAt)
  }

  lemma NotAfterMeans()
    ensures forall a, b :: NotAfter(a, b) ==> a.priority < b.priority || (a.priority == b.priority && a.createdAt <= b.createdAt)
  {
  }

  type Entries = map<string, ManifestEntry>

  function WithRunning(e: ManifestEntry, workerID: string, now: Time): ManifestEntry {
    e.(status := Running, workerID := workerID, startedAt := Some(now))
  }

  function WithSuccess(e: ManifestEntry, now: Time): ManifestEntry {
    e.(status := Success, completedAt := Some(now))
  }

  function WithFailed(e: ManifestEntry, reason: string, stage: string, now: Time): ManifestEntry {
    e.(status := Failed, failureReason := reason, failureStage := stage, completedAt := Some(now))
  }

  function WithTimeout(e: ManifestEntry, stage: string, now: Time): ManifestEntry {
    e.(status := Timeout, failureReason := "timeout", failureStage := stage, completedAt := Some(now))
  }

  /** An update writes all columns but those an entry is created with. */
  function Overwritten(row: ManifestEntry, copy: ManifestEntry): ManifestEntry {
    copy.(id := row.id, runID := row.runID, priority := row.priority, createdAt := row.createdAt)
  }

  // The transitions of the table.

  predicate IsPending(rows: Entries, id: string) {
    id in rows && rows[id].status == Pending
  }

  function Claimed(rows: Entries, id: string, workerID: string, now: Time): Entries {
    if IsPending(rows, id) then rows[id := WithRunning(rows[id], workerID, now)] else rows
  }

  function Rewritten(rows: Entries, copy: ManifestEntry): Entries {
    if copy.id in rows then rows[copy.id := Overwritten(rows[copy.id], copy)] else rows
  }

  function Succeeded(rows: Entries, id: string, now: Time): Entries {
    if id in rows then rows[id := WithSuccess(rows[id], now)] else rows
  }

  function FailedAt(rows: Entries, id: string, reason: string, stage: string, now: Time): Entries {
    if id in rows then rows[id := WithFailed(rows[id], reason, stage, now)] else rows
  }

  function TimedOut(rows: Entries, id: string, stage: string, now: Time): Entries {
    if id in rows then rows[id := WithTimeout(rows[id], stage, now)] else rows
  }

  /** One attempt to claim an entry. */
  datatype Attempt = Attempt(id: string, workerID: string, now: Time)

  function AfterClaims(rows: Entries, claims: seq<Attempt>): Entries {
    if claims == [] then rows
    else
      var last := claims[|claims| - 1];
      Claimed(AfterClaims(rows, claims[..|claims| - 1]), last.id, last.workerID, last.now)
  }

  /** Whether the attempt at a place of a sequence of attempts wins. */
  predicate Wins(rows: Entries, claims: seq<Attempt>, i: nat)
    requires i < |claims|
  {
    IsPending(AfterClaims(rows, claims[..i]), claims[i].id)
  }

  /** Of any sequence of attempts, on any entries and by any workers, exactly the first one on each pending
      entry wins, and the entry runs for that worker from then on. */
  lemma {:induction false} FirstClaimWins(rows: Entries, claims: seq<Attempt>, i: nat)
    requires i < |claims| && IsPending(rows, claims[i].id)
    ensures Wins(rows, claims, i) <==> forall j :: 0 <= j < i ==> claims[j].id != claims[i].id
    ensures Wins(rows, claims, i) ==>
              && claims[i].id in AfterClaims(rows, claims)
              && AfterClaims(rows, claims)[claims[i].id] 
                 == rows[claims[i].id].(status := Running, workerID := claims[i].workerID, startedAt := Some(claims[i].now))
  {
    Unclaimed(rows, claims[..i], claims[i].id);
    if Wins(rows, claims, i) {
      assert claims[..i + 1][..i] == claims[..i];
      KeepsWorker(rows, claims, i + 1, claims[i].id);
    }
  }

  /** An entry is pending after some attempts exactly when none of them was on it; and then it is as it was. */
  lemma {:induction false} Unclaimed(rows: Entries, claims: seq<Attempt>, id: string)
    requires IsPending(rows, id)
    ensures id in AfterClaims(rows, claims)
    ensures IsPending(AfterClaims(rows, claims), id) <==> forall c <- claims :: c.id != id
    ensures IsPending(AfterClaims(rows, claims), id) ==> AfterClaims(rows, claims)[id] == rows[id]
  {
    if claims != [] {
      var init, last := claims[..|claims| - 1], claims[|claims| - 1];
      assert claims == init + [last];
      Unclaimed(rows, init, id);
    }
  }

  /** Later attempts do not touch an entry that is not pending. */
  lemma {:induction false} KeepsWorker(rows: Entries, claims: seq<Attempt>, n: nat, id: string)
    requires n <= |claims| && id in AfterClaims(rows, claims[..n]) && !IsPending(AfterClaims(rows, claims[..n]), id)
    ensures id in AfterClaims(rows, claims) && AfterClaims(rows, claims)[id] == AfterClaims(rows, claims[..n])[id]
    decreases |claims|
  {
    if n == |claims| {
      assert claims[..n] == claims;
    } else {
      var init := claims[..|claims| - 1];
      assert init[..n] == claims[..n];
      KeepsWorker(rows, init, n, id);
    }
  }

  ghost function OfStatus(rows: Entries, runID: string, status: ManifestStatus): set<string> {
    set id | id in rows && rows[id].runID == runID && rows[id].status == status
  }

  ghost predicate Filed(rows: Entries) {
    forall id <- rows :: rows[id].id == id
  }

  ghost function OfRun(rows: Entries, runID: string): set<string> {
    set id | id in rows && rows[id].runID == runID
  }

  class ManifestStore {
    var rows: Entries

    constructor ()
      ensures rows == map[]
    {
      rows := map[];
    }

    /** Claims a pending entry. Of any number of callers exactly the first one after it became pending wins. */
    method MarkRunning(id: string, workerID: string, now: Time) returns (ok: bool)
      modifies this
      ensures ok <==> IsPending(old(rows), id)
      ensures rows == Claimed(old(rows), id, workerID, now)
    {
      ok := id in rows && rows[id].status == Pending;
      if ok {
        rows := rows[id := WithRunning(rows[id], workerID, now)];
      }
    }

    method Update(copy: ManifestEntry)
      modifies this
      ensures rows == Rewritten(old(rows), copy)
    {
      if copy.id in rows {
        rows := rows[copy.id := Overwritten(rows[copy.id], copy)];
      }
    }

    method MarkSuccess(id: string, now: Time)
      modifies this
      ensures rows == Succeeded(old(rows), id, now)
    {
      if id in rows {
        rows := rows[id := WithSuccess(rows[id], now)];
      }
    }

    method MarkFailed(id: string, reason: string, stage: string, now: Time)
      modifies this
      ensures rows == FailedAt(old(rows), id, reason, stage, now)
    {
      if id in rows {
        rows := rows[id := WithFailed(rows[id], reason, stage, now)];
      }
    }

    method MarkTimeout(id: string, stage: string, now: Time)
      modifies this
      ensures rows == TimedOut(old(rows), id, stage, now)
    {
      if id in rows {
        rows := rows[id := WithTimeout(rows[id], stage, now)];
      }
    }

    /** The pending entries of a run, each once, in the order of priority and then of creation, up to a limit;
        what the limit cuts off does not come before what is listed. */
    method GetPendingByPriority(runID: string, limit: nat) returns (list: seq<ManifestEntry>)
      requires Filed(rows)
      ensures forall i, j :: 0 <= i < j < |list| ==> list[i].id != list[j].id && NotAfter(list[i], list[j])
      ensures forall e <- list :: e.id in rows && rows[e.id] == e && e.runID == runID && e.status == Pending
      ensures forall id <- OfStatus(rows, runID, Pending) :: rows[id] in list || (|list| == limit && forall e <- list :: NotAfter(e, rows[id]))
      ensures |list| <= limit
      ensures forall i, j :: 0 <= i < j < |list| ==>
                list[i].priority < list[j].priority || (list[i].priority == list[j].priority && list[i].createdAt <= list[j].createdAt)
    {
      NotAfterMeans();
      hide NotAfter;
      list := [];
      var todo := set id | id in rows && rows[id].runID == runID && rows[id].status == Pending;
      while todo != {} && |list| < limit
        invariant todo <= OfStatus(rows, runID, Pending) && |list| <= limit
        invariant forall i, j :: 0 <= i < j < |list| ==> list[i].id != list[j].id && NotAfter(list[i], list[j])
        invariant forall e <- list :: e.id in rows && e.id !in todo && rows[e.id] == e && e.runID == runID && e.status == Pending
        invariant forall id <- OfStatus(rows, runID, Pending) :: id !in todo ==> rows[id] in list
        invariant forall e <- list, id <- todo :: NotAfter(e, rows[id])
      {
        var id := First(todo);
        list := list + [rows[id]];
        todo := todo - {id};
      }
    }

    /** An entry that none of the others comes before. */
    method First(ids: set<string>) returns (first: string)
      requires ids != {} && ids <= rows.Keys
      ensures first in ids && forall id <- ids :: NotAfter(rows[first], rows[id])
    {
      first :| first in ids;
      var todo := ids - {first};
      while todo != {}
        invariant todo <= ids && first in ids
        invariant forall id <- ids :: id !in todo ==> NotAfter(rows[first], rows[id])
      {
        var id :| id in todo;
        if !NotAfter(rows[first], rows[id]) {
          first := id;
        }
        todo := todo - {id};
      }
    }

    /** How many entries of a run have each status. */
    method GetSummary(runID: string) returns (summary: map<ManifestStatus, nat>)
      ensures forall status :: (if status in summary then summary[status] else 0) == |OfStatus(rows, runID, status)|
    {
      hide OfStatus;
      summary := map[];
      ghost var done: Entries := map[];
      var todo := rows.Keys;
      EmptyStatus(runID);
      while todo != {}
        invariant todo <= rows.Keys
        invariant done == map id | id in rows && id !in todo :: rows[id]
        invariant forall status :: (if status in summary then summary[status] else 0) == |OfStatus(done, runID, status)|
      {
        var id :| id in todo;
        var e := rows[id];
        OneMoreStatus(done, runID, id, e);
        if e.runID == runID {
          summary := summary[e.status := (if e.status in summary then summary[e.status] else 0) + 1];
        }
        done, todo := done[id := e], todo - {id};
      }
      assert done == rows;
    }
  }

  lemma EmptyStatus(runID: string)
    ensures forall status :: OfStatus(map[], runID, status) == {}
  {
  }

  lemma OneMoreStatus(rows: Entries, runID: string, id: string, e: ManifestEntry)
    requires id !in rows
    ensures forall status :: |OfStatus(rows[id := e], runID, status)|
              == |OfStatus(rows, runID, status)| + if e.runID == runID && e.status == status then 1 else 0
  {
    forall status
      ensures OfStatus(rows[id := e], runID, status)
              == OfStatus(rows, runID, status) + if e.runID == runID && e.status == status then {id} else {}
      ensures id !in OfStatus(rows, runID, status)
    {
    }
  }

  /** When every entry succeeded or failed, the two counts add up to all entries and the others are zero. */
  lemma AllSettled(rows: Entries, runID: string)
    requires forall id <- OfRun(rows, runID) :: rows[id].status == Success || rows[id].status == Failed
    ensures |OfStatus(rows, runID, Success)| + |OfStatus(rows, runID, Failed)| == |OfRun(rows, runID)|
    ensures OfStatus(rows, runID, Pending) == OfStatus(rows, runID, Running) == OfStatus(rows, runID, Timeout) == {}
  {
    var s, f := OfStatus(rows, runID, Success), OfStatus(rows, runID, Failed);
    forall id | id in OfRun(rows, runID)
      ensures id in s || id in f
    {
    }
    assert OfRun(rows, runID) == s + f;
  }
}
