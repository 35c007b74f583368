/** The session record and its status. */
module Sessions {
  import opened Wrappers
  import opened Clock

  datatype SessionStatus = Pending | Provisioning | Running | Stopping | Stopped | Failed

  datatype Session = Session(
    id: string,
    consumerID: string,
    provider: string,
    offerID: string,
    createdAt: Time,
    // The columns below are the ones an update writes.
    providerID: string,
    status: SessionStatus,
    error: string,
    sshHost: string,
    sshPort: int,
    sshUser: string,
    hardMaxOverride: bool,
    reservationHrs: int,
    expiresAt: Time,
    stoppedAt: Option<Time>)
  {
    predicate IsActive() {
      status == Pending || status == Provisioning || status == Running
    }

    predicate IsTerminal() {
      status == Stopped || status == Failed
    }

    /** Two versions of the same row: what an update can never change is equal. */
    predicate SameRow(other: Session) {
      && id == other.id && consumerID == other.consumerID && provider == other.provider
      && offerID == other.offerID && createdAt == other.createdAt
    }

    function Key(): InstanceKey {
      InstanceKey(provider, providerID)
    }
  }

  /** Where an instance lives: a provider, and the provider's own ID for it. */
  datatype InstanceKey = InstanceKey(provider: string, id: string)

  type Rows = map<string, Session>

  ghost predicate Filed(rows: Rows) {
    forall id <- rows :: rows[id].id == id
  }

  predicate Clash(a: Session, b: Session) {
    a.id != b.id && a.consumerID == b.consumerID && a.offerID == b.offerID && a.IsActive() && b.IsActive()
  }

  /** The partial unique index: one active session per consumer and offer. */
  ghost predicate UniqueActive(rows: Rows) {
    forall a <- rows, b <- rows :: !Clash(rows[a], rows[b])
  }

  /** No two rows name the same instance. */
  ghost predicate DistinctInstances(rows: Rows) {
    forall a <- rows, b <- rows :: rows[a].providerID != "" && rows[a].Key() == rows[b].Key() ==> a == b
  }
}
