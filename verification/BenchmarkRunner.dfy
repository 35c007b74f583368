/** The benchmark runner on the manifest store, with its workers one after the other: the claims, attempts and
    marks of a run as the code makes them. */
module BenchmarkRunner {
  import opened Clock
  import opened Manifest
  import opened BenchmarkRun

  /** An entry of the same run in the same place, and nothing else changed. */
  ghost predicate OnlyEntry(before: Entries, after: Entries, id: string) {
    && id in before && id in after && after == before[id := after[id]]
    && after[id].id == before[id].id && after[id].runID == before[id].runID
  }

  predicate IsSettled(e: ManifestEntry) {
    e.status == Success || e.status == Failed
  }

  /** How an attempt ended, and whether a failure may be followed by another. */
  datatype AttemptResult = AttemptResult(success: bool, shouldRetry: bool)

  class Runner {
    const manifest: ManifestStore

    constructor (manifest: ManifestStore)
      ensures this.manifest == manifest
    {
      this.manifest := manifest;
    }

    /** One attempt. Without success the row is marked failed or timed out; without a retry it is failed. */
    method ProcessEntryOnce(entry: ManifestEntry, now: Time) returns (success: bool, shouldRetry: bool, e: ManifestEntry)
      requires entry.id in manifest.rows && entry.status == Running && Filed(manifest.rows)
      modifies manifest
      ensures e.id == entry.id && e.status == Running
      ensures Filed(manifest.rows) && OnlyEntry(old(manifest.rows), manifest.rows, entry.id)
      ensures success ==> manifest.rows[entry.id].status == Success
      ensures !success ==> manifest.rows[entry.id].status == Failed || (shouldRetry && manifest.rows[entry.id].status == Timeout)
    {
      var offers: bool, launched: bool, offerID: string, sessionID: string, reason: string := *, *, *, *, *;
      e := entry;
      if !offers {
        manifest.MarkFailed(e.id, reason, FIND_OFFER, now);
        return false, false, e;
      }
      e := e.(offerID := offerID);
      if !launched {
        manifest.MarkFailed(e.id, reason, PROVISION, now);
        return false, true, e;
      }
      e := e.(sessionID := sessionID);
      manifest.Update(e);
      var ready: bool, ranOut: bool, stage: string := *, *, *;
      if !ready {
        if ranOut {
          manifest.MarkTimeout(e.id, stage, now);
        } else {
          manifest.MarkFailed(e.id, reason, stage, now);
        }
        return false, true, e;
      }
      manifest.MarkSuccess(e.id, now);
      return true, true, e;
    }

    /** A claimed entry: it is tried again once after a failure that allows it, and ends in success exactly when
        its last attempt succeeded, otherwise in failure. */
    method ProcessEntry(entry: ManifestEntry, now: Time) returns (attempts: nat, ghost results: seq<AttemptResult>)
      requires entry.id in manifest.rows && entry.status == Running && Filed(manifest.rows)
      modifies manifest
      ensures 1 <= attempts <= MAX_ATTEMPTS
      ensures Filed(manifest.rows) && OnlyEntry(old(manifest.rows), manifest.rows, entry.id)
      ensures IsSettled(manifest.rows[entry.id])
      ensures |results| == attempts
      ensures forall k :: 0 <= k < attempts ==> (k < attempts - 1 <==> !results[k].success && results[k].shouldRetry && k < 1)
      ensures manifest.rows[entry.id].status == Success <==> results[attempts - 1].success
    {
      var e := entry;
      attempts, results := 0, [];
      SameEntries(manifest.rows, e.id);
      while attempts < MAX_ATTEMPTS
        invariant attempts <= MAX_ATTEMPTS && e.id == entry.id && e.status == Running
        invariant Filed(manifest.rows) && OnlyEntry(old(manifest.rows), manifest.rows, entry.id)
        invariant |results| == attempts && forall k :: 0 <= k < attempts ==> !results[k].success && results[k].shouldRetry
      {
        attempts := attempts + 1;
        if attempts > 1 {
          e := e.(sessionID := "", offerID := "");
        }
        var success, shouldRetry;
        success, shouldRetry, e := ProcessEntryOnce(e, now);
        results := results + [AttemptResult(success, shouldRetry)];
        if success || !shouldRetry {
          return;
        }
      }
      manifest.MarkFailed(e.id, ALL_ATTEMPTS_FAILED, RETRY_EXHAUSTED, now);
    }

    /** The dispatch loop: fetch what is pending, claim each entry, process it, and fetch again until nothing
        is pending. It ends; every entry that was pending has been claimed and is settled; the counts of a run
        that started with all its entries pending add up; other runs are untouched. */
    method ProcessRun(runID: string, now: Time) returns (claims: seq<Attempt>, completed: nat, failed: nat)
      requires Filed(manifest.rows)
      requires forall id <- OfRun(manifest.rows, runID) :: manifest.rows[id].status == Pending
      modifies manifest
      ensures Filed(manifest.rows) && manifest.rows.Keys == old(manifest.rows.Keys)
      ensures forall id <- manifest.rows :: manifest.rows[id].runID == old(manifest.rows)[id].runID
      ensures forall id <- manifest.rows :: if manifest.rows[id].runID == runID then IsSettled(manifest.rows[id])
                                            else manifest.rows[id] == old(manifest.rows)[id]
      ensures (forall i, j :: 0 <= i < j < |claims| ==> claims[i].id != claims[j].id)
              && ClaimedIDs(claims) == OfRun(manifest.rows, runID)
      ensures completed + failed == |OfRun(manifest.rows, runID)|
      ensures completed == |set id | id in manifest.rows && manifest.rows[id].runID == runID && manifest.rows[id].status == Success|
    {
      hide OfStatus, OfRun, OnlyEntry, IsSettled, RunSoFar, ClaimedIDs;
      claims := [];
      ghost var start := manifest.rows;
      NothingYet(start, runID);
      while true
        invariant RunSoFar(start, manifest.rows, runID, claims)
        decreases |OfStatus(manifest.rows, runID, Pending)|
      {
        SoFarFiled(start, manifest.rows, runID, claims);
        var entries := manifest.GetPendingByPriority(runID, BATCH);
        if entries == [] {
          break;
        }
        claims := Dispatch(start, runID, entries, claims, now);
      }
      SoFarFiled(start, manifest.rows, runID, claims);
      RunIsOver(start, manifest.rows, runID, claims);
      var summary := manifest.GetSummary(runID);
      completed := if Success in summary then summary[Success] else 0;
      failed := (if Failed in summary then summary[Failed] else 0) + if Timeout in summary then summary[Timeout] else 0;
      assert OfStatus(manifest.rows, runID, Timeout) == {};
      SucceededOfRun(manifest.rows, runID);
    }

    /** One fetched batch: each entry is claimed, which it is because nobody else claims, and processed. */
    method Dispatch(ghost start: Entries, runID: string, entries: seq<ManifestEntry>, done: seq<Attempt>, now: Time)
      returns (claims: seq<Attempt>)
      requires entries != [] && RunSoFar(start, manifest.rows, runID, done)
      requires forall i, j :: 0 <= i < j < |entries| ==> entries[i].id != entries[j].id
      requires forall e <- entries :: e.id in manifest.rows && manifest.rows[e.id] == e && e.runID == runID && e.status == Pending
      modifies manifest
      ensures RunSoFar(start, manifest.rows, runID, claims)
      ensures |OfStatus(manifest.rows, runID, Pending)| < |OfStatus(old(manifest.rows), runID, Pending)|
    {
      hide OfStatus, OnlyEntry, RunSoFar, IsSettled, WithRunning;
      claims := done;
      for i := 0 to |entries|
        invariant RunSoFar(start, manifest.rows, runID, claims)
        invariant forall j :: i <= j < |entries| ==> entries[j].id in manifest.rows && manifest.rows[entries[j].id] == entries[j]
        invariant |OfStatus(manifest.rows, runID, Pending)| + i == |OfStatus(old(manifest.rows), runID, Pending)|
      {
        var entry := entries[i];
        assert entry in entries;
        ghost var before := manifest.rows;
        SoFarFiled(start, before, runID, claims);
        var workerID: string := *;
        var ok := manifest.MarkRunning(entry.id, workerID, now);
        if ok {
          claims := claims + [Attempt(entry.id, workerID, now)];
          ClaimedFiled(before, entry.id, workerID, now);
          var _, _ := ProcessEntry(entry.(status := Running), now);
          EntryDone(start, before, manifest.rows, runID, claims[..|claims| - 1], claims[|claims| - 1]);
          assert claims[..|claims| - 1] + [claims[|claims| - 1]] == claims;
        }
      }
    }
  }

  lemma SucceededOfRun(rows: Entries, runID: string)
    ensures OfStatus(rows, runID, Success) == set id | id in rows && rows[id].runID == runID && rows[id].status == Success
  {
  }

  ghost function ClaimedIDs(claims: seq<Attempt>): set<string> {
    set c | c in claims :: c.id
  }

  /** A run in progress: each entry of the run is pending, or claimed and settled; others are as they were. */
  ghost predicate RunSoFar(start: Entries, rows: Entries, runID: string, claims: seq<Attempt>) {
    && rows.Keys == start.Keys && ClaimedIDs(claims) <= rows.Keys
    && (forall i, j :: 0 <= i < j < |claims| ==> claims[i].id != claims[j].id)
    && (forall id <- rows :: EntrySoFar(start, rows, runID, ClaimedIDs(claims), id))
  }

  ghost predicate EntrySoFar(start: Entries, rows: Entries, runID: string, claimed: set<string>, id: string)
    requires id in rows && id in start
  {
    && rows[id].id == id && rows[id].runID == start[id].runID
    && if rows[id].runID != runID then rows[id] == start[id] && id !in claimed
       else if id in claimed then IsSettled(rows[id]) else rows[id].status == Pending
  }

  lemma NothingYet(rows: Entries, runID: string)
    requires Filed(rows) && forall id <- OfRun(rows, runID) :: rows[id].status == Pending
    ensures RunSoFar(rows, rows, runID, [])
  {
    forall id | id in rows
      ensures EntrySoFar(rows, rows, runID, ClaimedIDs([]), id)
    {
      assert rows[id].runID == runID ==> id in OfRun(rows, runID);
    }
  }

  lemma SameEntries(rows: Entries, id: string)
    requires id in rows
    ensures OnlyEntry(rows, rows, id)
  {
    assert rows == rows[id := rows[id]];
  }

  lemma SoFarFiled(start: Entries, rows: Entries, runID: string, claims: seq<Attempt>)
    requires RunSoFar(start, rows, runID, claims)
    ensures Filed(rows)
  {
    forall id | id in rows
      ensures rows[id].id == id
    {
      assert EntrySoFar(start, rows, runID, ClaimedIDs(claims), id);
    }
  }

  lemma ClaimedFiled(rows: Entries, id: string, workerID: string, now: Time)
    requires Filed(rows) && IsPending(rows, id)
    ensures Filed(Claimed(rows, id, workerID, now)) && OnlyEntry(rows, Claimed(rows, id, workerID, now), id)
  {
    assert rows[id := Claimed(rows, id, workerID, now)[id]] == Claimed(rows, id, workerID, now);
  }

  lemma EntryDone(start: Entries, before: Entries, rows: Entries, runID: string, claims: seq<Attempt>, c: Attempt)
    requires RunSoFar(start, before, runID, claims) && c.id in before && before[c.id].runID == runID && before[c.id].status == Pending
    requires c.id in rows && rows.Keys == before.Keys && (forall id <- before :: id != c.id ==> rows[id] == before[id])
    requires rows[c.id].id == c.id && rows[c.id].runID == runID && IsSettled(rows[c.id])
    ensures RunSoFar(start, rows, runID, claims + [c])
    ensures |OfStatus(rows, runID, Pending)| + 1 == |OfStatus(before, runID, Pending)|
  {
    hide ClaimedIDs;
    OneLessPending(before, rows, runID, c.id);
    ClaimsGrow(claims, c);
    assert EntrySoFar(start, before, runID, ClaimedIDs(claims), c.id);
    NewClaim(claims, c);
    forall id | id in rows
      ensures EntrySoFar(start, rows, runID, ClaimedIDs(claims + [c]), id)
    {
      assert EntrySoFar(start, before, runID, ClaimedIDs(claims), id);
    }
  }

  lemma OneLessPending(before: Entries, rows: Entries, runID: string, id: string)
    requires id in before && before[id].runID == runID && before[id].status == Pending
    requires id in rows && rows.Keys == before.Keys && (forall other <- before :: other != id ==> rows[other] == before[other])
    requires IsSettled(rows[id])
    ensures |OfStatus(rows, runID, Pending)| + 1 == |OfStatus(before, runID, Pending)|
  {
    assert OfStatus(before, runID, Pending) == OfStatus(rows, runID, Pending) + {id};
    assert id !in OfStatus(rows, runID, Pending);
  }

  lemma ClaimsGrow(claims: seq<Attempt>, c: Attempt)
    ensures ClaimedIDs(claims + [c]) == ClaimedIDs(claims) + {c.id}
  {
    assert forall x :: x in claims + [c] <==> x in claims || x == c;
  }

  lemma NewClaim(claims: seq<Attempt>, c: Attempt)
    requires c.id !in ClaimedIDs(claims) && forall i, j :: 0 <= i < j < |claims| ==> claims[i].id != claims[j].id
    ensures forall i, j :: 0 <= i < j < |claims + [c]| ==> (claims + [c])[i].id != (claims + [c])[j].id
  {
    assert forall i :: 0 <= i < |claims| ==> claims[i] in claims;
  }

  lemma RunIsOver(start: Entries, rows: Entries, runID: string, claims: seq<Attempt>)
    requires RunSoFar(start, rows, runID, claims) && OfStatus(rows, runID, Pending) == {}
    ensures rows.Keys == start.Keys && forall i, j :: 0 <= i < j < |claims| ==> claims[i].id != claims[j].id
    ensures forall id <- rows :: rows[id].runID == start[id].runID
    ensures forall id <- rows :: if rows[id].runID == runID then IsSettled(rows[id]) else rows[id] == start[id]
    ensures ClaimedIDs(claims) == OfRun(rows, runID)
    ensures |OfStatus(rows, runID, Success)| + |OfStatus(rows, runID, Failed)| == |OfRun(rows, runID)|
    ensures OfStatus(rows, runID, Timeout) == {}
  {
    hide ClaimedIDs;
    forall id | id in rows
      ensures rows[id].runID == start[id].runID
      ensures if rows[id].runID == runID then IsSettled(rows[id]) && id in ClaimedIDs(claims) else rows[id] == start[id] && id !in ClaimedIDs(claims)
    {
      assert EntrySoFar(start, rows, runID, ClaimedIDs(claims), id);
      assert id !in OfStatus(rows, runID, Pending);
    }
    assert ClaimedIDs(claims) == OfRun(rows, runID);
    AllSettled(rows, runID);
  }
}
