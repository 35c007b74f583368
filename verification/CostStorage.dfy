/** The cost table: one row per session and clock hour, overwritten when recorded again, and its summaries. */
module CostStorage {
  import opened Clock

  datatype CostRecord = CostRecord(sessionID: string, consumerID: string, provider: string, gpuType: string, hour: Time, amount: real)
  {
    predicate SameHour(other: CostRecord) {
      sessionID == other.sessionID && hour == other.hour
    }
  }

  ghost predicate OncePerHour(rows: seq<CostRecord>) {
    forall i, j :: 0 <= i < j < |rows| ==> !rows[i].SameHour(rows[j])
  }

  /** Insert, or overwrite the row of the same session and hour. */
  function Upsert(rows: seq<CostRecord>, r: CostRecord): seq<CostRecord> {
    if rows == [] then [r]
    else
      var init, last := rows[..|rows| - 1], rows[|rows| - 1];
      if last.SameHour(r) then init + [r] else Upsert(init, r) + [last]
  }

  /** The sum of the amounts of the rows a condition picks. */
  ghost function TotalWhere(rows: seq<CostRecord>, picks: CostRecord -> bool): real {
    if rows == [] then 0.0
    else
      TotalWhere(rows[..|rows| - 1], picks) + if picks(rows[|rows| - 1]) then rows[|rows| - 1].amount else 0.0
  }

  ghost function SessionCost(rows: seq<CostRecord>, sessionID: string): real {
    TotalWhere(rows, (r: CostRecord) => r.sessionID == sessionID)
  }

  /** The clock hours a session has rows for. */
  ghost function Hours(rows: seq<CostRecord>, sessionID: string): set<Time> {
    set r | r in rows && r.sessionID == sessionID :: r.hour
  }

  /** Every row of a session has the same amount. */
  ghost predicate Priced(rows: seq<CostRecord>, sessionID: string, price: real) {
    forall r <- rows :: r.sessionID == sessionID ==> r.amount == price
  }

  lemma {:induction false} UpsertedRows(rows: seq<CostRecord>, r: CostRecord)
    requires OncePerHour(rows)
    ensures OncePerHour(Upsert(rows, r))
    ensures forall x :: x in Upsert(rows, r) <==> x == r || (x in rows && !x.SameHour(r))
  {
    if rows != [] {
      var init, last := rows[..|rows| - 1], rows[|rows| - 1];
      assert rows == init + [last];
      assert forall x :: x in rows <==> x in init || x == last;
      assert forall x <- init :: !x.SameHour(last);
      UpsertedRows(init, r);
      var next := Upsert(rows, r);
      if last.SameHour(r) {
        assert next == init + [r];
      } else {
        assert next == Upsert(init, r) + [last];
      }
      assert OncePerHour(next) by { AppendOnce(next[..|next| - 1], next[|next| - 1]); }
    }
  }

  lemma AppendOnce(rows: seq<CostRecord>, last: CostRecord)
    requires OncePerHour(rows) && forall x <- rows :: !x.SameHour(last)
    ensures OncePerHour(rows + [last])
  {
  }

  /** What recording does to the hours of a session: adds one to its own, leaves every other session's. */
  lemma UpsertedHours(rows: seq<CostRecord>, r: CostRecord, sessionID: string)
    requires OncePerHour(rows)
    ensures Hours(Upsert(rows, r), sessionID) == Hours(rows, sessionID) + if r.sessionID == sessionID then {r.hour} else {}
    ensures r.sessionID == sessionID && Priced(rows, sessionID, r.amount) ==> Priced(Upsert(rows, r), sessionID, r.amount)
    ensures forall price :: r.sessionID != sessionID && Priced(rows, sessionID, price) ==> Priced(Upsert(rows, r), sessionID, price)
  {
    hide Upsert;
    UpsertedRows(rows, r);
    var next := Upsert(rows, r);
    forall h
      ensures h in Hours(next, sessionID) <==> h in Hours(rows, sessionID) || (r.sessionID == sessionID && h == r.hour)
    {
      if h in Hours(rows, sessionID) {
        var x :| x in rows && x.sessionID == sessionID && x.hour == h;
        assert if x.SameHour(r) then r in next else x in next;
      }
      if r.sessionID == sessionID && h == r.hour {
        assert r in next;
      }
    }
  }

  /** The price of some hours. */
  function Cost(price: real, hours: nat): real {
    price * hours as real
  }

  lemma CostOfOneMore(price: real, hours: nat)
    ensures Cost(price, 0) == 0.0 && Cost(price, hours + 1) == Cost(price, hours) + price
  {
  }

  /** One price and one row per hour: the total is the price times the number of hours. */
  lemma {:induction false} TotalIsPriceTimesHours(rows: seq<CostRecord>, sessionID: string, price: real)
    requires OncePerHour(rows) && Priced(rows, sessionID, price)
    ensures SessionCost(rows, sessionID) == Cost(price, |Hours(rows, sessionID)|)
  {
    hide Cost, Hours, OncePerHour, Priced;
    if rows == [] {
      NoHours(sessionID);
      CostOfOneMore(price, 0);
    } else {
      var init, last := rows[..|rows| - 1], rows[|rows| - 1];
      assert rows == init + [last];
      HoursGrow(init, last, sessionID, price);
      TotalIsPriceTimesHours(init, sessionID, price);
      CostOfOneMore(price, |Hours(init, sessionID)|);
    }
  }

  lemma NoHours(sessionID: string)
    ensures Hours([], sessionID) == {}
  {
  }

  lemma HoursGrow(init: seq<CostRecord>, last: CostRecord, sessionID: string, price: real)
    requires OncePerHour(init + [last]) && Priced(init + [last], sessionID, price)
    ensures OncePerHour(init) && Priced(init, sessionID, price)
    ensures last.sessionID == sessionID ==> last.amount == price && |Hours(init + [last], sessionID)| == |Hours(init, sessionID)| + 1
    ensures last.sessionID != sessionID ==> Hours(init + [last], sessionID) == Hours(init, sessionID)
  {
    var rows := init + [last];
    assert forall x :: x in rows <==> x in init || x == last;
    assert forall i :: 0 <= i < |init| ==> rows[i] == init[i] && !rows[i].SameHour(rows[|init|]);
    if last.sessionID == sessionID {
      assert last.hour !in Hours(init, sessionID);
      assert Hours(rows, sessionID) == Hours(init, sessionID) + {last.hour};
    } else {
      assert Hours(rows, sessionID) == Hours(init, sessionID);
    }
  }

  // ---- Summaries ----

  /** A summary query. An empty text, or a time of zero, means no condition. */
  datatype CostQuery = CostQuery(consumerID: string, sessionID: string, provider: string, startTime: Time, endTime: Time)
  {
    predicate InPeriod(r: CostRecord) {
      && (consumerID != "" ==> r.consumerID == consumerID)
      && (startTime != 0 ==> r.hour >= startTime)
      && (endTime != 0 ==> r.hour < endTime)
    }

    predicate Matches(r: CostRecord) {
      && InPeriod(r)
      && (sessionID != "" ==> r.sessionID == sessionID)
      && (provider != "" ==> r.provider == provider)
    }
  }

  datatype Column = ProviderColumn | GPUTypeColumn
  {
    function Of(r: CostRecord): string {
      if ProviderColumn? then r.provider else r.gpuType
    }
  }

  datatype CostSummary = CostSummary(totalCost: real, sessionCount: nat, hoursUsed: nat,
                                     byProvider: map<string, real>, byGPUType: map<string, real>)

  /** The sum of the values of a map over some of its keys, in no particular order. */
  ghost function SumOver(m: map<string, real>, keys: set<string>): real
    requires keys <= m.Keys
  {
    if keys == {} then 0.0
    else
      var k :| k in keys;
      m[k] + SumOver(m, keys - {k})
  }

  ghost function Sum(m: map<string, real>): real {
    SumOver(m, m.Keys)
  }

  lemma {:induction false} SumWithout(m: map<string, real>, keys: set<string>, k: string)
    requires keys <= m.Keys && k in keys
    ensures SumOver(m, keys) == m[k] + SumOver(m, keys - {k})
    decreases |keys|
  {
    var first :| first in keys && SumOver(m, keys) == m[first] + SumOver(m, keys - {first});
    if first != k {
      SumWithout(m, keys - {first}, k);
      SumWithout(m, keys - {k}, first);
      assert keys - {first} - {k} == keys - {k} - {first};
    }
  }

  lemma {:induction false} SumSame(m: map<string, real>, other: map<string, real>, keys: set<string>)
    requires keys <= m.Keys && keys <= other.Keys && forall k <- keys :: m[k] == other[k]
    ensures SumOver(m, keys) == SumOver(other, keys)
    decreases |keys|
  {
    if keys != {} {
      var k :| k in keys;
      SumWithout(m, keys, k);
      SumWithout(other, keys, k);
      SumSame(m, other, keys - {k});
    }
  }

  /** Adding to one value of a map, or adding a key, adds that much to the sum. */
  lemma SumUpdated(m: map<string, real>, k: string, amount: real)
    ensures Sum(m[k := (if k in m then m[k] else 0.0) + amount]) == Sum(m) + amount
  {
    var next := m[k := (if k in m then m[k] else 0.0) + amount];
    SumWithout(next, next.Keys, k);
    SumSame(next, m, next.Keys - {k});
    if k in m {
      SumWithout(m, m.Keys, k);
      assert next.Keys == m.Keys;
    } else {
      assert next.Keys - {k} == m.Keys;
    }
  }

  /** The breakdown of some rows by a column. */
  ghost predicate IsBreakdown(m: map<string, real>, rows: seq<CostRecord>, column: Column, query: CostQuery) {
    && (forall key :: key in m <==> exists r :: r in rows && query.InPeriod(r) && column.Of(r) == key)
    && (forall key <- m :: m[key] == TotalWhere(rows, (r: CostRecord) => query.InPeriod(r) && column.Of(r) == key))
  }

  /** The rows of the consumer asked for, from the start of the period up to but not including its end. */
  predicate InWindow(r: CostRecord, query: CostQuery) {
    && (query.consumerID == "" || query.consumerID == r.consumerID)
    && (query.startTime == 0 || query.startTime <= r.hour) && (query.endTime == 0 || r.hour < query.endTime)
  }

  /** A summary in the fields of the rows: the total is for the session and provider asked for, the breakdowns for
      all of them, by the provider and the GPU type a row names. */
  ghost predicate SummaryInFields(summary: CostSummary, rows: seq<CostRecord>, query: CostQuery) {
    && summary.totalCost == TotalWhere(rows, (r: CostRecord) => InWindow(r, query) && (query.sessionID == "" || query.sessionID == r.sessionID)
                                                                && (query.provider == "" || query.provider == r.provider))
    && (forall key <- summary.byProvider :: summary.byProvider[key] == TotalWhere(rows, (r: CostRecord) => InWindow(r, query) && r.provider == key))
    && (forall key <- summary.byGPUType :: summary.byGPUType[key] == TotalWhere(rows, (r: CostRecord) => InWindow(r, query) && r.gpuType == key))
  }

  lemma InFields(summary: CostSummary, rows: seq<CostRecord>, query: CostQuery)
    requires summary.totalCost == TotalWhere(rows, query.Matches)
    requires IsBreakdown(summary.byProvider, rows, ProviderColumn, query) && IsBreakdown(summary.byGPUType, rows, GPUTypeColumn, query)
    ensures SummaryInFields(summary, rows, query)
  {
    SamePicks(rows, query.Matches, (r: CostRecord) => InWindow(r, query) && (query.sessionID == "" || query.sessionID == r.sessionID)
                                                      && (query.provider == "" || query.provider == r.provider));
    forall key | key in summary.byProvider
      ensures summary.byProvider[key] == TotalWhere(rows, (r: CostRecord) => InWindow(r, query) && r.provider == key)
    {
      SamePicks(rows, (r: CostRecord) => query.InPeriod(r) && ProviderColumn.Of(r) == key, (r: CostRecord) => InWindow(r, query) && r.provider == key);
    }
    forall key | key in summary.byGPUType
      ensures summary.byGPUType[key] == TotalWhere(rows, (r: CostRecord) => InWindow(r, query) && r.gpuType == key)
    {
      SamePicks(rows, (r: CostRecord) => query.InPeriod(r) && GPUTypeColumn.Of(r) == key, (r: CostRecord) => InWindow(r, query) && r.gpuType == key);
    }
  }

  class CostStore {
    var rows: seq<CostRecord>

    ghost predicate Valid()
      reads this
    {
      OncePerHour(rows)
    }

    constructor ()
      ensures Valid() && rows == []
    {
      rows := [];
    }

    method Record(r: CostRecord)
      requires Valid()
      modifies this
      ensures Valid() && rows == Upsert(old(rows), r)
    {
      UpsertedRows(rows, r);
      rows := Upsert(rows, r);
    }

    method GetSummary(query: CostQuery) returns (summary: CostSummary)
      requires Valid()
      ensures summary.totalCost == TotalWhere(rows, query.Matches)
      ensures summary.hoursUsed == |Picked(rows, query)|
      ensures summary.sessionCount == |SessionsIn(rows, query)|
      ensures IsBreakdown(summary.byProvider, rows, ProviderColumn, query)
      ensures IsBreakdown(summary.byGPUType, rows, GPUTypeColumn, query)
      ensures Sum(summary.byProvider) == TotalWhere(rows, query.InPeriod)
      ensures Sum(summary.byGPUType) == TotalWhere(rows, query.InPeriod)
      ensures SummaryInFields(summary, rows, query)
    {
      hide SummaryInFields, IsBreakdown, CostQuery.Matches, CostQuery.InPeriod, Sum, TotalWhere, Picked, SessionsIn;
      var total, hours := 0.0, 0;
      var sessions: set<string> := {};
      SummaryOfNone(query);
      for i := 0 to |rows|
        invariant total == TotalWhere(rows[..i], query.Matches)
        invariant hours == |Picked(rows[..i], query)|
        invariant sessions == SessionsIn(rows[..i], query)
      {
        assert rows[..i + 1] == rows[..i] + [rows[i]];
        SummaryGrows(rows[..i], rows[i], query);
        if query.Matches(rows[i]) {
          total, hours, sessions := total + rows[i].amount, hours + 1, sessions + {rows[i].sessionID};
        }
      }
      assert rows[..|rows|] == rows;
      var byProvider := AggregateCostsByColumn(ProviderColumn, query);
      var byGPUType := AggregateCostsByColumn(GPUTypeColumn, query);
      summary := CostSummary(total, |sessions|, hours, byProvider, byGPUType);
      InFields(summary, rows, query);
    }

    /** Groups by a column, with the consumer and period conditions of the query only. */
    method AggregateCostsByColumn(column: Column, query: CostQuery) returns (totals: map<string, real>)
      ensures IsBreakdown(totals, rows, column, query)
      ensures Sum(totals) == TotalWhere(rows, query.InPeriod)
    {
      hide IsBreakdown, CostQuery.InPeriod, Column.Of, Sum;
      totals := map[];
      assert Sum(totals) == 0.0 by { SumEmpty(); }
      NoBreakdown(column, query);
      for i := 0 to |rows|
        invariant IsBreakdown(totals, rows[..i], column, query)
        invariant Sum(totals) == TotalWhere(rows[..i], query.InPeriod)
      {
        var r := rows[i];
        assert rows[..i + 1] == rows[..i] + [r];
        assert rows[..i + 1][..i] == rows[..i];
        BreakdownGrows(totals, rows[..i], r, column, query);
        if query.InPeriod(r) {
          SumUpdated(totals, column.Of(r), r.amount);
          totals := totals[column.Of(r) := (if column.Of(r) in totals then totals[column.Of(r)] else 0.0) + r.amount];
        }
      }
      assert rows[..|rows|] == rows;
    }
  }

  ghost function Picked(rows: seq<CostRecord>, query: CostQuery): seq<CostRecord> {
    if rows == [] then []
    else Picked(rows[..|rows| - 1], query) + if query.Matches(rows[|rows| - 1]) then [rows[|rows| - 1]] else []
  }

  ghost function SessionsIn(rows: seq<CostRecord>, query: CostQuery): set<string> {
    set r | r in rows && query.Matches(r) :: r.sessionID
  }

  lemma SummaryOfNone(query: CostQuery)
    ensures TotalWhere([], query.Matches) == 0.0 && Picked([], query) == [] && SessionsIn([], query) == {}
  {
  }

  lemma SummaryGrows(rows: seq<CostRecord>, r: CostRecord, query: CostQuery)
    ensures TotalWhere(rows + [r], query.Matches) == TotalWhere(rows, query.Matches) + if query.Matches(r) then r.amount else 0.0
    ensures Picked(rows + [r], query) == Picked(rows, query) + if query.Matches(r) then [r] else []
    ensures SessionsIn(rows + [r], query) == SessionsIn(rows, query) + if query.Matches(r) then {r.sessionID} else {}
  {
    hide CostQuery.Matches;
    assert (rows + [r])[..|rows|] == rows;
    assert forall x :: x in rows + [r] <==> x in rows || x == r;
  }

  lemma SumEmpty()
    ensures Sum(map[]) == 0.0
  {
  }

  lemma NoBreakdown(column: Column, query: CostQuery)
    ensures IsBreakdown(map[], [], column, query)
  {
  }

  lemma BreakdownGrows(m: map<string, real>, rows: seq<CostRecord>, r: CostRecord, column: Column, query: CostQuery)
    requires IsBreakdown(m, rows, column, query)
    ensures var key := column.Of(r);
            IsBreakdown(if query.InPeriod(r) then m[key := (if key in m then m[key] else 0.0) + r.amount] else m,
                        rows + [r], column, query)
  {
    hide CostQuery.InPeriod, Column.Of;
    var own, more := column.Of(r), rows + [r];
    var next := if query.InPeriod(r) then m[own := (if own in m then m[own] else 0.0) + r.amount] else m;
    assert more[..|rows|] == rows && more[|rows|] == r;
    forall key
      ensures key in next <==> exists x :: x in more && query.InPeriod(x) && column.Of(x) == key
    {
      if x :| x in rows && query.InPeriod(x) && column.Of(x) == key {
        assert x in more;
      }
      if query.InPeriod(r) && key == own {
        assert r in more;
      }
    }
    if own !in m {
      NothingPicked(rows, (x: CostRecord) => query.InPeriod(x) && column.Of(x) == own);
    }
  }

  lemma {:induction false} NothingPicked(rows: seq<CostRecord>, picks: CostRecord -> bool)
    requires forall x <- rows :: !picks(x)
    ensures TotalWhere(rows, picks) == 0.0
  {
    if rows != [] {
      NothingPicked(rows[..|rows| - 1], picks);
    }
  }

  lemma {:induction false} SamePicks(rows: seq<CostRecord>, a: CostRecord -> bool, b: CostRecord -> bool)
    requires forall x <- rows :: a(x) == b(x)
    ensures TotalWhere(rows, a) == TotalWhere(rows, b)
  {
    if rows != [] {
      SamePicks(rows[..|rows| - 1], a, b);
    }
  }

  lemma TotalOfOne(r: CostRecord, picks: CostRecord -> bool)
    ensures TotalWhere([r], picks) == if picks(r) then r.amount else 0.0
  {
    assert [r][..0] == [];
  }

  /** Whether the total of a query and the sums of its breakdowns are the same. */
  ghost predicate Conserves(rows: seq<CostRecord>, query: CostQuery) {
    TotalWhere(rows, query.Matches) == TotalWhere(rows, query.InPeriod)
  }

  predicate EmptyPeriod(query: CostQuery) {
    query.startTime != 0 && query.endTime != 0 && query.endTime <= query.startTime
  }

  /** The breakdowns add up to the total for every table exactly when the query names no session and no
      provider, or covers no time at all: the breakdowns ignore those two conditions. */
  lemma ConservedExactlyWhen(query: CostQuery)
    ensures (forall rows :: OncePerHour(rows) ==> Conserves(rows, query))
            <==> (query.sessionID == "" && query.provider == "") || EmptyPeriod(query)
  {
    if (query.sessionID == "" && query.provider == "") || EmptyPeriod(query) {
      forall rows | OncePerHour(rows)
        ensures Conserves(rows, query)
      {
        SamePicks(rows, query.Matches, query.InPeriod);
      }
    } else {
      var hour := if query.startTime != 0 then query.startTime else query.endTime - 1;
      var r := CostRecord(query.sessionID + "x", query.consumerID, query.provider + "x", "", hour, 1.0);
      assert query.InPeriod(r) && !query.Matches(r);
      TotalOfOne(r, query.InPeriod);
      TotalOfOne(r, query.Matches);
      assert OncePerHour([r]) && !Conserves([r], query);
    }
  }

  /** For one table: exactly when the rows of the period outside the session or provider asked for cancel out. */
  lemma {:induction false} BreakdownExcess(rows: seq<CostRecord>, query: CostQuery)
    ensures TotalWhere(rows, query.InPeriod)
            == TotalWhere(rows, query.Matches) + TotalWhere(rows, (r: CostRecord) => query.InPeriod(r) && !query.Matches(r))
  {
    if rows != [] {
      BreakdownExcess(rows[..|rows| - 1], query);
    }
  }
}
