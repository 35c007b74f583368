/** The persistent tables behind the failure tracker: failure rows in insertion order and one
    suppression row per offer. Every row carries the tracker's own time. */
module FailureStorage {
  import opened Wrappers
  import opened Clock
  import opened FailureLog

  datatype StoredSuppression = StoredSuppression(offerID: string, provider: string, gpuType: string, suppressedAt: Time)

  datatype Rows = Rows(failures: seq<Failure>, suppressions: map<string, StoredSuppression>)
  {
    function SinceOf(offerID: string): Option<Time> {
      StoredSince(suppressions, offerID)
    }

    /** The primary key: each suppression is filed under its own offer. */
    ghost predicate Filed() {
      forall o <- suppressions :: suppressions[o].offerID == o
    }
  }

  function StoredSince(suppressions: map<string, StoredSuppression>, offerID: string): Option<Time> {
    if offerID in suppressions then Some(suppressions[offerID].suppressedAt) else None
  }

  /** Rows strictly after a cutoff: what a load selects. */
  function RecentRows(rows: seq<Failure>, since: Time): seq<Failure> {
    if rows == [] then []
    else
      var last, recent := rows[|rows| - 1], RecentRows(rows[..|rows| - 1], since);
      if last.event.timestamp > since then recent + [last] else recent
  }

  /** Rows not before a cutoff: what a cleanup leaves. */
  function RowsSince(rows: seq<Failure>, before: Time): seq<Failure> {
    if rows == [] then []
    else
      var last, since := rows[|rows| - 1], RowsSince(rows[..|rows| - 1], before);
      if last.event.timestamp >= before then since + [last] else since
  }

  function StoreCleanup(rows: Rows, cleared: set<string>, before: Time): Rows {
    Rows(RowsSince(rows.failures, before), rows.suppressions - cleared)
  }

  /** Insert a suppression, or move the time of the one already there. */
  function Upsert(suppressions: map<string, StoredSuppression>, offerID: string, provider: string, gpuType: string, at: Time)
    : map<string, StoredSuppression>
  {
    suppressions[offerID := if offerID in suppressions then suppressions[offerID].(suppressedAt := at)
                            else StoredSuppression(offerID, provider, gpuType, at)]
  }

  /** A load of the suppressions after a cutoff: each matching row once, in some order. */
  ghost predicate ActiveSuppressions(stored: map<string, StoredSuppression>, cutoff: Time, loaded: seq<StoredSuppression>) {
    && (forall i, j :: 0 <= i < j < |loaded| ==> loaded[i].offerID != loaded[j].offerID)
    && (forall s <- loaded :: s.offerID in stored && stored[s.offerID] == s && s.suppressedAt > cutoff)
    && (forall o <- stored :: stored[o].suppressedAt > cutoff ==> stored[o] in loaded)
  }

  class OfferFailureStore {
    var failures: seq<Failure>
    var suppressions: map<string, StoredSuppression>

    function Table(): Rows
      reads this
    {
      Rows(failures, suppressions)
    }

    constructor ()
      ensures Table() == Rows([], map[])
    {
      failures, suppressions := [], map[];
    }

    method RecordFailure(offerID: string, provider: string, gpuType: string, kind: string, reason: string, at: Time)
      modifies this`failures
      ensures failures == old(failures) + [Failure(offerID, provider, gpuType, FailureEvent(kind, at, reason))]
    {
      failures := failures + [Failure(offerID, provider, gpuType, FailureEvent(kind, at, reason))];
    }

    /** Afterwards the offer has one row, which reads back the new time and keeps its first provider and GPU
        type; every other offer's row is as it was. */
    method SetSuppression(offerID: string, provider: string, gpuType: string, at: Time)
      modifies this`suppressions
      ensures StoredSince(suppressions, offerID) == Some(at)
      ensures offerID in old(suppressions) ==> suppressions[offerID].provider == old(suppressions)[offerID].provider
                                               && suppressions[offerID].gpuType == old(suppressions)[offerID].gpuType
      ensures old(Table().Filed()) ==> Table().Filed()
      ensures forall o :: o != offerID ==> (o in suppressions <==> o in old(suppressions))
      ensures forall o <- suppressions :: o != offerID ==> suppressions[o] == old(suppressions)[o]
      ensures suppressions == Upsert(old(suppressions), offerID, provider, gpuType, at)
    {
      if offerID in suppressions {
        suppressions := suppressions[offerID := suppressions[offerID].(suppressedAt := at)];
      } else {
        suppressions := suppressions[offerID := StoredSuppression(offerID, provider, gpuType, at)];
      }
    }

    method ClearSuppression(offerID: string)
      modifies this`suppressions
      ensures suppressions == old(suppressions) - {offerID}
    {
      suppressions := suppressions - {offerID};
    }

    method CleanupOldFailures(before: Time)
      modifies this`failures
      ensures failures == RowsSince(old(failures), before)
    {
      var remaining: seq<Failure> := [];
      for i := 0 to |failures|
        invariant failures == old(failures)
        invariant remaining == RowsSince(failures[..i], before)
      {
        assert failures[..i + 1][..i] == failures[..i];
        if failures[i].event.timestamp >= before {
          remaining := remaining + [failures[i]];
        }
      }
      assert failures[..|failures|] == failures;
      failures := remaining;
    }

    method LoadRecentFailures(since: Time) returns (records: seq<Failure>)
      ensures records == RecentRows(failures, since)
    {
      records := [];
      for i := 0 to |failures|
        invariant records == RecentRows(failures[..i], since)
      {
        assert failures[..i + 1][..i] == failures[..i];
        if failures[i].event.timestamp > since {
          records := records + [failures[i]];
        }
      }
      assert failures[..|failures|] == failures;
    }

    method LoadActiveSuppressions(cooldownExpiry: Time) returns (records: seq<StoredSuppression>)
      requires Table().Filed()
      ensures ActiveSuppressions(suppressions, cooldownExpiry, records)
    {
      records := [];
      var todo := suppressions.Keys;
      while todo != {}
        invariant todo <= suppressions.Keys
        invariant forall i, j :: 0 <= i < j < |records| ==> records[i].offerID != records[j].offerID
        invariant forall s <- records :: s.offerID in suppressions && s.offerID !in todo
                                         && suppressions[s.offerID] == s && s.suppressedAt > cooldownExpiry
        invariant forall o <- suppressions :: o !in todo && suppressions[o].suppressedAt > cooldownExpiry ==> suppressions[o] in records
      {
        var offerID :| offerID in todo;
        if suppressions[offerID].suppressedAt > cooldownExpiry {
          records := records + [suppressions[offerID]];
        }
        todo := todo - {offerID};
      }
    }
  }
}
