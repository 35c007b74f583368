/** The session table. Reads return copies; an update writes the mutable columns of one row. */
module SessionStorage {
  import opened Wrappers
  import opened Clock
  import opened Sessions

  datatype StoreError = NotFound | AlreadyExists | Failure

  datatype SessionFilter = SessionFilter(provider: string, statuses: set<SessionStatus>,
                                         expiresBefore: Option<Time>, hasProviderID: bool)
  {
    predicate Matches(s: Session) {
      && (provider != "" ==> s.provider == provider)
      && (statuses != {} ==> s.status in statuses)
      && (expiresBefore.Some? ==> s.expiresAt < expiresBefore.value)
      && (hasProviderID ==> s.providerID != "")
    }
  }

  function Any(): SessionFilter {
    SessionFilter("", {}, None, false)
  }

  const ACTIVE: set<SessionStatus> := {Pending, Provisioning, Running}

  /** A query result: a copy of each matching row, once, in some order. */
  ghost predicate Lists(rows: Rows, filter: SessionFilter, list: seq<Session>) {
    && (forall i, j :: 0 <= i < j < |list| ==> list[i].id != list[j].id)
    && (forall s <- list :: s.id in rows && rows[s.id] == s && filter.Matches(s))
    && (forall id <- rows :: filter.Matches(rows[id]) ==> rows[id] in list)
  }

  /** The row after an update: immutable columns from the table, the rest from the copy. */
  function Overwrite(row: Session, copy: Session): Session {
    copy.(id := row.id, consumerID := row.consumerID, provider := row.provider,
          offerID := row.offerID, createdAt := row.createdAt)
  }

  ghost predicate Clashes(rows: Rows, s: Session) {
    exists id <- rows :: Clash(rows[id], s)
  }

  /** An update goes through when the row exists and the unique index holds afterwards. */
  ghost predicate CanUpdate(rows: Rows, copy: Session) {
    copy.id in rows && !Clashes(rows, Overwrite(rows[copy.id], copy))
  }

  /** The table after an update: written, or refused. */
  ghost function Updated(rows: Rows, copy: Session): Rows {
    if CanUpdate(rows, copy) then rows[copy.id := Overwrite(rows[copy.id], copy)] else rows
  }

  /** Reads return copies and an update writes every mutable column, so writing back a copy undoes whatever
      was written to the row since the copy was read: the row reads as if the other writer had not been there. */
  lemma StaleCopyUndoes(rows: Rows, other: Session, copy: Session)
    requires other.id == copy.id && CanUpdate(rows, copy) && CanUpdate(Updated(rows, other), copy)
    ensures Updated(Updated(rows, other), copy) == Updated(rows, copy)
    ensures rows[copy.id] == copy ==> Updated(Updated(rows, other), copy) == rows
  {
    hide Clashes;
    assert Overwrite(rows[copy.id], copy) == Overwrite(Updated(rows, other)[copy.id], copy);
    if rows[copy.id] == copy {
      assert Overwrite(rows[copy.id], copy) == copy;
    }
  }

  /** Writing a row that stays active, or ends inactive, never breaks the unique index. */
  lemma UpdateGoesThrough(rows: Rows, copy: Session)
    requires Filed(rows) && UniqueActive(rows) && copy.id in rows
    requires copy.IsActive() ==> rows[copy.id].IsActive()
    ensures CanUpdate(rows, copy)
  {
    var row := Overwrite(rows[copy.id], copy);
    forall id | id in rows
      ensures !Clash(rows[id], row)
    {
      assert !Clash(rows[id], rows[copy.id]);
    }
  }

  class SessionStore {
    var rows: Rows

    ghost predicate Valid()
      reads this
    {
      Filed(rows) && UniqueActive(rows)
    }

    constructor ()
      ensures Valid() && rows == map[]
    {
      rows := map[];
    }

    method Create(s: Session) returns (err: Option<StoreError>)
      requires Valid()
      modifies this
      ensures Valid()
      ensures err.None? <==> s.id !in old(rows) && !Clashes(old(rows), s)
      ensures err == Some(AlreadyExists) <==> s.id !in old(rows) && Clashes(old(rows), s)
      ensures rows == if err.None? then old(rows)[s.id := s] else old(rows)
      ensures err == Some(AlreadyExists) <==>
                && s.id !in old(rows) && s.status in {Pending, Provisioning, Running}
                && exists id <- old(rows) :: var other := old(rows)[id];
                     other.id != s.id && other.consumerID == s.consumerID && other.offerID == s.offerID
                     && other.status in {Pending, Provisioning, Running}
    {
      if s.id in rows {
        return Some(Failure);
      }
      var clash := FindClash(s);
      if clash {
        return Some(AlreadyExists);
      }
      rows := rows[s.id := s];
      err := None;
    }

    method FindClash(s: Session) returns (clash: bool)
      ensures clash <==> Clashes(rows, s)
    {
      var todo := rows.Keys;
      clash := false;
      while todo != {}
        invariant todo <= rows.Keys
        invariant clash <==> exists id :: id in rows && id !in todo && Clash(rows[id], s)
      {
        var id :| id in todo;
        if Clash(rows[id], s) {
          clash := true;
        }
        todo := todo - {id};
      }
    }

    method Get(id: string) returns (r: Result<Session, StoreError>)
      ensures r == if id in rows then Ok(rows[id]) else Err(NotFound)
    {
      r := if id in rows then Ok(rows[id]) else Err(NotFound);
    }

    method Update(copy: Session) returns (err: Option<StoreError>)
      requires Valid()
      modifies this
      ensures Valid()
      ensures err.None? <==> CanUpdate(old(rows), copy)
      ensures rows == Updated(old(rows), copy)
    {
      if copy.id !in rows {
        return Some(NotFound);
      }
      var row := Overwrite(rows[copy.id], copy);
      var clash := FindClash(row);
      if clash {
        return Some(Failure);
      }
      rows := rows[copy.id := row];
      err := None;
    }

    method ListInternal(filter: SessionFilter) returns (list: seq<Session>)
      requires Valid()
      ensures Lists(rows, filter, list)
    {
      list := [];
      var todo := rows.Keys;
      while todo != {}
        invariant todo <= rows.Keys
        invariant forall i, j :: 0 <= i < j < |list| ==> list[i].id != list[j].id
        invariant forall s <- list :: s.id in rows && s.id !in todo && rows[s.id] == s && filter.Matches(s)
        invariant forall id <- rows :: id !in todo && filter.Matches(rows[id]) ==> rows[id] in list
      {
        var id :| id in todo;
        if filter.Matches(rows[id]) {
          list := list + [rows[id]];
        }
        todo := todo - {id};
      }
    }

    method GetActiveSessions() returns (list: seq<Session>)
      requires Valid()
      ensures Lists(rows, Any().(statuses := ACTIVE), list)
    {
      list := ListInternal(Any().(statuses := ACTIVE));
    }

    method GetActiveSessionsByProvider(provider: string) returns (list: seq<Session>)
      requires Valid()
      ensures Lists(rows, Any().(provider := provider, statuses := ACTIVE), list)
    {
      list := ListInternal(Any().(provider := provider, statuses := ACTIVE));
    }

    method GetExpiredSessions(now: Time) returns (list: seq<Session>)
      requires Valid()
      ensures Lists(rows, Any().(statuses := {Running}, expiresBefore := Some(now)), list)
    {
      list := ListInternal(Any().(statuses := {Running}, expiresBefore := Some(now)));
    }

    method GetFailedSessionsWithInstances() returns (list: seq<Session>)
      requires Valid()
      ensures Lists(rows, Any().(statuses := {Failed}, hasProviderID := true), list)
    {
      list := ListInternal(Any().(statuses := {Failed}, hasProviderID := true));
    }

    method GetSessionsByStatus(statuses: set<SessionStatus>) returns (list: seq<Session>)
      requires Valid()
      ensures Lists(rows, Any().(statuses := statuses), list)
    {
      list := ListInternal(Any().(statuses := statuses));
    }
  }
}
