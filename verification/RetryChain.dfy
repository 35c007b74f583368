/** A request and its retries: the sessions one request creates, at once and after failed verification. */
module RetryChain {
  import opened Wrappers
  import opened Offers
  import opened OfferLists

  datatype Request = Request(autoRetry: bool, maxRetries: int, scope: string)

  /** How a session of the chain came to be created. */
  datatype Start = Requested | RetriedAtOnce | RetriedLater

  /** A session row, as far as retries read and write it, and the offers and machines its create call was told
      to avoid. Parent and child are places in the chain. */
  datatype Attempt = Attempt(offer: Offer, start: Start, avoided: seq<string>, avoidedMachines: seq<string>,
                             retryCount: nat, parent: Option<nat>, price: real, failedOffers: string, child: Option<nat>)
  {
    predicate SameAttempt(other: Attempt) {
      offer == other.offer && start == other.start && avoided == other.avoided && avoidedMachines == other.avoidedMachines
      && retryCount == other.retryCount && parent == other.parent
    }
  }

  datatype CreateOutcome = Refused | DiskRejected | ProviderMissing | NotCreated(retryable: bool) | NotRecorded
                         | Created(actualPrice: real)

  datatype Verdict = Verified | VerificationFailed(permanent: bool)

  /** Everything the outside world answers at one point: the create call, the offer query, the
      verification of the session, and the present version of its offer. */
  datatype Answer = Answer(outcome: CreateOutcome, offers: Option<Snapshot>, verdict: Verdict, current: Option<Offer>)

  const DEFAULT_MAX_RETRIES := 3
  const MAX_MAX_RETRIES := 5

  /** The request as the service takes it. */
  function Normalized(req: Request): (r: Request)
    ensures Allowed(r) <= 5
  {
    var n := if req.autoRetry && req.maxRetries <= 0 then DEFAULT_MAX_RETRIES else req.maxRetries;
    Request(req.autoRetry, if n > MAX_MAX_RETRIES then MAX_MAX_RETRIES else n, if req.scope == "" then SAME_GPU else req.scope)
  }

  /** Retries a request may use. */
  function Allowed(req: Request): nat {
    if req.autoRetry && req.maxRetries > 0 then req.maxRetries else 0
  }

  /** None without auto-retry, three by default, otherwise as many as asked for up to five. */
  lemma RetriesAllowed(req: Request)
    ensures Allowed(Normalized(req))
            == if !req.autoRetry then 0 else if req.maxRetries <= 0 then 3 else if req.maxRetries >= 5 then 5 else req.maxRetries
    ensures Normalized(req).scope == if req.scope == "" then "same_gpu" else req.scope
  {
  }

  // ---- What one retry does ----

  /** An offer found as a replacement in some query. */
  ghost predicate FoundIn(snapshot: Snapshot, next: Offer, original: Offer, scope: string, avoided: seq<string>, machines: seq<string>) {
    && (exists o :: o in snapshot.offers && next == Adjusted(o, snapshot))
    && Comparable(next, original, scope, avoided, machines, snapshot)
  }

  ghost predicate Replaces(next: Offer, original: Offer, scope: string, avoided: seq<string>, machines: seq<string>) {
    exists snapshot :: FoundIn(snapshot, next, original, scope, avoided, machines)
  }

  function WithMachine(machines: seq<string>, machineID: string): seq<string> {
    if machineID != "" then machines + [machineID] else machines
  }

  /** A retry after a launch failure: with the lists in memory, each one longer. */
  ghost predicate FollowsAtOnce(a: Attempt, next: Offer, avoided: seq<string>, machines: seq<string>, scope: string) {
    && avoided == a.avoided + [a.offer.id] && machines == WithMachine(a.avoidedMachines, a.offer.machineID)
    && Replaces(next, a.offer, scope, avoided, machines)
  }

  /** A retry after failed verification: with the offers read back from the row's column, and the machine of
      the offer as it is then. */
  ghost predicate FollowsFrom(column: string, original: Offer, a: Attempt, next: Offer, avoided: seq<string>, machines: seq<string>, scope: string) {
    && (column == Join(a.avoided) || column == WithFailed(Join(a.avoided), a.offer.id)) && original.id == a.offer.id
    && avoided == ReadBack(column) + [a.offer.id] && machines == WithMachine([], original.machineID)
    && Replaces(next, original, scope, avoided, machines)
  }

  ghost predicate Follows(a: Attempt, next: Offer, start: Start, avoided: seq<string>, machines: seq<string>, scope: string) {
    match start
    case Requested => false
    case RetriedAtOnce => FollowsAtOnce(a, next, avoided, machines, scope)
    case RetriedLater => exists column, original :: FollowsFrom(column, original, a, next, avoided, machines, scope)
  }

  /** A failed row adds its own offer to the column unless the text is already somewhere in it. */
  function WithFailed(column: string, id: string): string {
    if id == "" then column
    else if column == "" then id
    else if Contains(column, id) then column
    else column + [COMMA] + id
  }

  /** Sessions numbered from the request on, each following from the one before. */
  ghost predicate Chain(chain: seq<Attempt>, req: Request) {
    && |chain| <= Allowed(req) + 1
    && (forall k :: 0 <= k < |chain| ==> InPlace(chain, k))
    && (forall k :: 0 < k < |chain| ==> Linked(chain, k, req.scope))
  }

  ghost predicate InPlace(chain: seq<Attempt>, k: nat)
    requires k < |chain|
  {
    && chain[k].retryCount == k && chain[k].parent == (if k == 0 then None else Some(k - 1))
    && (k == 0 ==> chain[k].start.Requested? && chain[k].avoided == [] && chain[k].avoidedMachines == [])
  }

  ghost predicate Linked(chain: seq<Attempt>, k: nat, scope: string)
    requires 0 < k < |chain|
  {
    var b := chain[k];
    Follows(chain[k - 1], b.offer, b.start, b.avoided, b.avoidedMachines, scope)
  }

  /** What a new last session must satisfy. */
  ghost predicate Fits(chain: seq<Attempt>, req: Request, offer: Offer, start: Start, avoided: seq<string>, machines: seq<string>) {
    && |chain| <= Allowed(req)
    && if chain == [] then start.Requested? && avoided == [] && machines == []
       else Follows(chain[|chain| - 1], offer, start, avoided, machines, req.scope)
  }

  /** The row a create call writes. */
  function NewAttempt(offer: Offer, start: Start, avoided: seq<string>, machines: seq<string>, n: nat): Attempt {
    Attempt(offer, start, avoided, machines, n, if n == 0 then None else Some(n - 1), offer.price, Join(avoided), None)
  }

  function Priced(a: Attempt, actualPrice: real): Attempt {
    if actualPrice > 0.0 then a.(price := actualPrice) else a
  }

  /** What is known of the offer of a row when the inventory no longer has it. */
  function Synthetic(row: Attempt): Offer {
    Offer(row.offer.id, row.offer.provider, row.offer.gpuType, row.offer.gpuCount, 0, row.price, "", 0.0, 0.0, false, 0.0, "", 0)
  }

  /** The rows after a failed last session got a successor. */
  function Succeeded(chain: seq<Attempt>, avoided: seq<string>, next: Attempt): seq<Attempt>
    requires chain != []
  {
    chain[|chain| - 1 := chain[|chain| - 1].(child := Some(|chain|), failedOffers := Join(avoided))] + [next]
  }

  /** A query that sees one offer, as it is. */
  ghost predicate SeesOnly(snapshot: Snapshot, o: Offer) {
    snapshot.offers == [o] && Adjusted(o, snapshot) == o && o.price >= 0.0
  }

  /** A last session that could not be launched, and a query that sees one comparable offer: if the create call on
      that goes through, it is the next session. */
  ghost predicate TakesReplacement(req: Request, snapshot: Snapshot, outcome: CreateOutcome,
                                   before: seq<Attempt>, after: seq<Attempt>, created: Option<nat>)
    requires before != []
  {
    var n := |before|;
    var a := before[n - 1];
    var avoided, machines := a.avoided + [a.offer.id], WithMachine(a.avoidedMachines, a.offer.machineID);
    forall o :: SeesOnly(snapshot, o) && Comparable(o, a.offer, req.scope, avoided, machines, snapshot) && outcome.Created? ==>
      && created == Some(n)
      && after == Succeeded(before, avoided, Priced(NewAttempt(o, RetriedAtOnce, avoided, machines, n), outcome.actualPrice))
  }

  class Retrier {
    const world: nat -> Answer
    var asked: nat
    var chain: seq<Attempt>

    constructor (world: nat -> Answer)
      ensures this.world == world && chain == [] && asked == 0
    {
      this.world, chain, asked := world, [], 0;
    }

    /** Creates a session and, while launching fails for want of stock, further ones on other offers.
        On success the result is the last session, and every session of this go links to it. */
    method CreateSessionWithRetry(req: Request, offer: Offer, failedOffers: seq<string>, failedMachines: seq<string>, start: Start)
        returns (created: Option<nat>)
      requires Chain(chain, req) && Fits(chain, req, offer, start, failedOffers, failedMachines)
      modifies this`chain, this`asked
      ensures Chain(chain, req) && |chain| >= |old(chain)|
      ensures forall k :: 0 <= k < |old(chain)| ==> chain[k] == old(chain)[k]
      ensures created.Some? ==> |chain| > |old(chain)| && created.value == |chain| - 1
                                && chain[|chain| - 1].failedOffers == Join(chain[|chain| - 1].avoided)
      ensures created.Some? ==> forall k :: |old(chain)| <= k < created.value ==> chain[k].child == created
      ensures var outcome := world(old(asked)).outcome;
              outcome.Created? ==>
                && created == Some(|old(chain)|) && asked == old(asked) + 1
                && chain == old(chain) + [Priced(NewAttempt(offer, start, failedOffers, failedMachines, |old(chain)|), outcome.actualPrice)]
      ensures var answer := world(old(asked));
              answer.outcome == NotCreated(true) && |old(chain)| < Allowed(req) && answer.offers.Some? ==>
                TakesReplacement(req, answer.offers.value, world(old(asked) + 1).outcome,
                                 old(chain) + [NewAttempt(offer, start, failedOffers, failedMachines, |old(chain)|)], chain, created)
      decreases Allowed(req) + 1 - |chain|, 0
    {
      hide Chain, Fits, Join, TakesReplacement;
      ghost var before := chain;
      var n := |chain|;
      var answer := world(asked);
      asked := asked + 1;
      if answer.outcome.Refused? {
        return None;
      }
      chain := chain + [NewAttempt(offer, start, failedOffers, failedMachines, n)];
      ChainGrows(before, req, chain[n]);
      match answer.outcome
      case DiskRejected => return None;
      case ProviderMissing => return None;
      case NotRecorded => return None;
      case Created(actualPrice) =>
        if actualPrice > 0.0 {
          Rewrite(req, n, chain[n].(price := actualPrice));
        }
        return Some(n);
      case NotCreated(retryable) =>
        created := None;
        if retryable && req.autoRetry && n < req.maxRetries && answer.offers.Some? {
          created := RetryAtOnce(req, answer.offers.value);
        }
    }

    /** Changes the last columns of one row; the chain stays one. */
    method Rewrite(req: Request, n: nat, a: Attempt)
      requires Chain(chain, req) && n < |chain| && a.SameAttempt(chain[n])
      modifies this`chain
      ensures Chain(chain, req) && chain == old(chain)[n := a]
    {
      hide Chain;
      ChainRewritten(chain, req, n, a);
      chain := chain[n := a];
    }

    /** The last session could not be launched for want of stock: try another offer. */
    method RetryAtOnce(req: Request, snapshot: Snapshot) returns (created: Option<nat>)
      requires Chain(chain, req) && chain != [] && |chain| <= Allowed(req)
      modifies this`chain, this`asked
      ensures Chain(chain, req) && |chain| >= |old(chain)|
      ensures forall k :: 0 <= k < |old(chain)| - 1 ==> chain[k] == old(chain)[k]
      ensures chain[|old(chain)| - 1].SameAttempt(old(chain)[|old(chain)| - 1])
      ensures created.Some? ==> |chain| > |old(chain)| && created.value == |chain| - 1
                                && chain[|chain| - 1].failedOffers == Join(chain[|chain| - 1].avoided)
      ensures created.Some? ==> forall k :: |old(chain)| - 1 <= k < created.value ==> chain[k].child == created
      ensures TakesReplacement(req, snapshot, world(old(asked)).outcome, old(chain), chain, created)
      decreases Allowed(req) + 1 - |chain|, 1
    {
      hide Chain, Fits, Join, Replaces, Comparable, NewAttempt, Priced, WithMachine;
      var n := |chain| - 1;
      var a := chain[n];
      var failedOffers, failedMachines := a.avoided + [a.offer.id], WithMachine(a.avoidedMachines, a.offer.machineID);
      var next := Replacement(req.scope, a.offer, failedOffers, failedMachines, snapshot);
      if !next.Picked? {
        return None;
      }
      AtOnceFits(chain, req, next.offer, failedOffers, failedMachines);
      created := CreateSessionWithRetry(req, next.offer, failedOffers, failedMachines, RetriedAtOnce);
      if created.Some? {
        Rewrite(req, n, chain[n].(child := created, failedOffers := Join(failedOffers)));
      }
    }

    /** The offer to try instead: a random one of the first few comparable ones. */
    method Replacement(scope: string, original: Offer, failedOffers: seq<string>, failedMachines: seq<string>, snapshot: Snapshot)
        returns (next: Pick)
      ensures next.Picked? ==> Replaces(next.offer, original, scope, failedOffers, failedMachines)
      ensures forall o :: SeesOnly(snapshot, o) && Comparable(o, original, scope, failedOffers, failedMachines, snapshot) ==> next == Picked(o)
    {
      hide Comparable, Adjusted, Ranks, Times;
      var candidates := FindComparableOffers(original, scope, failedOffers, failedMachines, snapshot);
      next := SelectFromTopN(candidates, 3, 1.3);
      forall o | SeesOnly(snapshot, o) && Comparable(o, original, scope, failedOffers, failedMachines, snapshot)
        ensures next == Picked(o)
      {
        assert o == Adjusted(o, snapshot) && o in snapshot.offers;
        OnlyCandidate(candidates, snapshot, o);
        NoPanic(o.price);
      }
      if next.Picked? {
        assert next.offer in candidates;
        assert FoundIn(snapshot, next.offer, original, scope, failedOffers, failedMachines);
      }
    }

    /** The last session failed verification: its row is failed, and if retries are left a new session on
        another offer is tried. */
    method TriggerAsyncRetry(req: Request, permanent: bool) returns (created: Option<nat>)
      requires Chain(chain, req) && chain != [] && |chain| <= Allowed(req)
      requires chain[|chain| - 1].failedOffers == Join(chain[|chain| - 1].avoided)
      modifies this`chain, this`asked
      ensures Chain(chain, req) && |chain| >= |old(chain)|
      ensures forall k :: 0 <= k < |old(chain)| ==> chain[k].SameAttempt(old(chain)[k])
      ensures created.Some? ==> |chain| > |old(chain)| && created.value == |chain| - 1
                                && chain[|chain| - 1].failedOffers == Join(chain[|chain| - 1].avoided)
      ensures created.Some? ==> forall k :: |old(chain)| - 1 <= k < created.value ==> chain[k].child == created
      ensures var row := old(chain)[|old(chain)| - 1];
              created.None? ==> chain[|old(chain)| - 1].failedOffers == if permanent then WithFailed(row.failedOffers, row.offer.id) else row.failedOffers
      ensures forall o ::
                var row, answer, outcome := old(chain)[|old(chain)| - 1], world(old(asked)), world(old(asked) + 1).outcome;
                var avoided := ReadBack(row.failedOffers) + [row.offer.id];
                !permanent && answer.current.None? && answer.offers.Some? && SeesOnly(answer.offers.value, o)
                && Comparable(o, Synthetic(row), req.scope, avoided, [], answer.offers.value) && outcome.Created? ==>
                  && created == Some(|old(chain)|) && asked == old(asked) + 2
                  && chain == Succeeded(old(chain), avoided, Priced(NewAttempt(o, RetriedLater, avoided, [], |old(chain)|), outcome.actualPrice))
    {
      hide Chain, Fits, Join, ReadBack, WithFailed, Replaces, Comparable, NewAttempt, Priced, TakesReplacement;
      var n := |chain| - 1;
      if permanent {
        Rewrite(req, n, chain[n].(failedOffers := WithFailed(chain[n].failedOffers, chain[n].offer.id)));
      }
      var row := chain[n];
      var failedOffers := ReadBack(row.failedOffers) + [row.offer.id];
      var answer := world(asked);
      asked := asked + 1;
      var original := if answer.current.Some? && answer.current.value.id == row.offer.id then answer.current.value
                      else Synthetic(row);
      var failedMachines := WithMachine([], original.machineID);
      if answer.offers.None? {
        return None;
      }
      var next := Replacement(req.scope, original, failedOffers, failedMachines, answer.offers.value);
      if !next.Picked? {
        return None;
      }
      LaterFits(chain, req, row.failedOffers, original, next.offer, failedOffers, failedMachines);
      created := CreateSessionWithRetry(req, next.offer, failedOffers, failedMachines, RetriedLater);
      if created.Some? {
        Rewrite(req, n, chain[n].(child := created, failedOffers := Join(failedOffers)));
      }
    }

    /** A whole request: create, and as long as a created session fails verification, retry. Whatever the
        world answers, it ends with at most six sessions; an offer whose ID survives the column is used once; and
        it ends with a session only if that is verified or no retries are left. */
    method RunRequest(request: Request, offer: Offer) returns (created: Option<nat>)
      requires chain == []
      modifies this
      ensures Chain(chain, Normalized(request)) && |chain| <= 6
      ensures forall i, j :: 0 <= i < j < |chain| && CleanID(chain[i].offer.id) ==> chain[i].offer.id != chain[j].offer.id
      ensures created.Some? ==>
                && created.value == |chain| - 1 && asked > 0
                && (world(asked - 1).verdict.Verified? || created.value >= Allowed(Normalized(request)))
    {
      hide Chain, TakesReplacement, WithFailed;
      var req := Normalized(request);
      assert Chain([], req) && Fits([], req, offer, Requested, [], []) by { EmptyChain(req, offer); }
      created := CreateSessionWithRetry(req, offer, [], [], Requested);
      while created.Some?
        invariant Chain(chain, req)
        invariant created.Some? ==> created.value == |chain| - 1 && chain != []
                                    && chain[|chain| - 1].failedOffers == Join(chain[|chain| - 1].avoided)
        decreases if created.Some? then Allowed(req) + 2 - |chain| else 0
      {
        ChainNumbered(chain, req);
        var answer := world(asked);
        asked := asked + 1;
        if answer.verdict.Verified? || !req.autoRetry || chain[created.value].retryCount >= req.maxRetries {
          break;
        }
        created := TriggerAsyncRetry(req, answer.verdict.permanent);
        ChainNumbered(chain, req);
      }
      ChainNumbered(chain, req);
      OffersUsedOnce(chain, req);
    }
  }

  lemma OnlyCandidate(candidates: seq<Offer>, snapshot: Snapshot, o: Offer)
    requires SeesOnly(snapshot, o) && (o in candidates || |candidates| == 5)
    requires forall c <- candidates :: exists x :: x in snapshot.offers && c == Adjusted(x, snapshot)
    ensures candidates != [] && forall k :: 0 <= k < |candidates| ==> candidates[k] == o
  {
    hide Adjusted;
    forall k | 0 <= k < |candidates|
      ensures candidates[k] == o
    {
      assert candidates[k] in candidates;
    }
  }

  lemma NoPanic(price: real)
    requires price >= 0.0
    ensures price <= Times(price, 1.3)
  {
  }

  lemma EmptyChain(req: Request, offer: Offer)
    ensures Chain([], req) && Fits([], req, offer, Requested, [], [])
  {
  }

  lemma ChainNumbered(chain: seq<Attempt>, req: Request)
    requires Chain(chain, req)
    ensures |chain| <= Allowed(req) + 1 && forall k :: 0 <= k < |chain| ==> chain[k].retryCount == k
  {
    forall k | 0 <= k < |chain|
      ensures chain[k].retryCount == k
    {
      assert InPlace(chain, k);
    }
  }

  lemma AtOnceFits(chain: seq<Attempt>, req: Request, next: Offer, avoided: seq<string>, machines: seq<string>)
    requires chain != [] && |chain| <= Allowed(req) && FollowsAtOnce(chain[|chain| - 1], next, avoided, machines, req.scope)
    ensures Fits(chain, req, next, RetriedAtOnce, avoided, machines)
  {
  }

  lemma LaterFits(chain: seq<Attempt>, req: Request, column: string, original: Offer, next: Offer, avoided: seq<string>, machines: seq<string>)
    requires chain != [] && |chain| <= Allowed(req)
    requires FollowsFrom(column, original, chain[|chain| - 1], next, avoided, machines, req.scope)
    ensures Fits(chain, req, next, RetriedLater, avoided, machines)
  {
  }

  lemma ChainGrows(chain: seq<Attempt>, req: Request, a: Attempt)
    requires Chain(chain, req) && Fits(chain, req, a.offer, a.start, a.avoided, a.avoidedMachines)
    requires a.retryCount == |chain| && a.parent == if |chain| == 0 then None else Some(|chain| - 1)
    ensures Chain(chain + [a], req)
  {
    hide Follows;
    var more := chain + [a];
    forall k | 0 <= k < |more|
      ensures InPlace(more, k)
      ensures k > 0 ==> Linked(more, k, req.scope)
    {
      if k < |chain| {
        assert InPlace(chain, k) && (k > 0 ==> Linked(chain, k, req.scope));
      }
    }
  }

  /** Rewriting what a chain does not depend on. */
  lemma ChainRewritten(chain: seq<Attempt>, req: Request, n: nat, a: Attempt)
    requires Chain(chain, req) && n < |chain| && a.SameAttempt(chain[n])
    ensures Chain(chain[n := a], req)
  {
    hide Follows;
    var next := chain[n := a];
    forall k | 0 <= k < |next|
      ensures InPlace(next, k)
      ensures k > 0 ==> Linked(next, k, req.scope)
    {
      assert InPlace(chain, k) && (k > 0 ==> Linked(chain, k, req.scope));
      if k > 0 {
        SameFollows(chain[k - 1], next[k - 1], chain[k], req.scope);
      }
    }
  }

  lemma SameFollows(a: Attempt, other: Attempt, b: Attempt, scope: string)
    requires a.SameAttempt(other) && Follows(a, b.offer, b.start, b.avoided, b.avoidedMachines, scope)
    ensures Follows(other, b.offer, b.start, b.avoided, b.avoidedMachines, scope)
  {
    hide Replaces, Join, ReadBack, WithFailed;
    if b.start.RetriedLater? {
      var column, original :| FollowsFrom(column, original, a, b.offer, b.avoided, b.avoidedMachines, scope);
      assert FollowsFrom(column, original, other, b.offer, b.avoided, b.avoidedMachines, scope);
    }
  }

  // ---- What every chain is like ----

  /** An ID that survives the comma-separated column. */
  predicate CleanID(id: string) {
    id != "" && NoComma(id)
  }

  /** Sessions i to j were created in one go, each after the one before failed to launch. */
  ghost predicate OneGo(chain: seq<Attempt>, i: int, j: int)
    requires 0 <= i <= j < |chain|
  {
    forall k :: i < k <= j ==> chain[k].start.RetriedAtOnce?
  }

  /** Adding the row's own offer to the column forgets nothing, although it tests for a substring. */
  lemma FailedRemembers(column: string, id: string)
    ensures forall x <- ReadBack(column) :: x in ReadBack(WithFailed(column, id))
  {
    hide Split, Contains;
    if column != "" && id != "" && !Contains(column, id) {
      SplitAtComma(column, id);
    }
  }

  /** One retry passes on what was avoided, and the offer before it: everything at once, clean IDs later. */
  lemma RetryRemembers(a: Attempt, b: Attempt, scope: string, id: string)
    requires Follows(a, b.offer, b.start, b.avoided, b.avoidedMachines, scope)
    requires id in a.avoided || id == a.offer.id
    requires b.start.RetriedAtOnce? || CleanID(id)
    ensures id in b.avoided
    ensures b.offer.id !in b.avoided
  {
    hide Join, ReadBack, WithFailed, Returned, NoComma;
    if b.start.RetriedLater? {
      var column, original :| FollowsFrom(column, original, a, b.offer, b.avoided, b.avoidedMachines, scope);
      if id in a.avoided {
        ExclusionSurvives(a.avoided, id);
        FailedRemembers(Join(a.avoided), a.offer.id);
      }
      NotAvoided(b.offer, original, scope, b.avoided, b.avoidedMachines);
    } else {
      NotAvoided(b.offer, a.offer, scope, b.avoided, b.avoidedMachines);
    }
  }

  lemma NotAvoided(next: Offer, original: Offer, scope: string, avoided: seq<string>, machines: seq<string>)
    requires Replaces(next, original, scope, avoided, machines)
    ensures next.id !in avoided && (next.machineID != "" ==> next.machineID !in machines)
  {
    hide Returned, Adjusted;
    var snapshot :| FoundIn(snapshot, next, original, scope, avoided, machines);
    assert forall id <- avoided :: id in Elements(avoided);
    assert forall id <- machines :: id in Elements(machines);
  }

  lemma {:induction false} OfferRemembered(chain: seq<Attempt>, req: Request, i: nat, j: nat)
    requires Chain(chain, req) && i < j < |chain| && (CleanID(chain[i].offer.id) || OneGo(chain, i, j))
    ensures chain[i].offer.id in chain[j].avoided && chain[j].offer.id !in chain[j].avoided
  {
    hide Follows, NoComma;
    if i < j - 1 {
      assert OneGo(chain, i, j) ==> OneGo(chain, i, j - 1);
      OfferRemembered(chain, req, i, j - 1);
    }
    assert Linked(chain, j, req.scope);
    NotRequested(chain[j - 1], chain[j], req.scope);
    RetryRemembers(chain[j - 1], chain[j], req.scope, chain[i].offer.id);
  }

  lemma NotRequested(a: Attempt, b: Attempt, scope: string)
    requires Follows(a, b.offer, b.start, b.avoided, b.avoidedMachines, scope)
    ensures !b.start.Requested?
  {
  }

  /** No offer with a clean ID is used twice, nor any offer within one go. */
  lemma OffersUsedOnce(chain: seq<Attempt>, req: Request)
    requires Chain(chain, req)
    ensures forall i, j :: 0 <= i < j < |chain| && (CleanID(chain[i].offer.id) || OneGo(chain, i, j)) ==> chain[i].offer.id != chain[j].offer.id
  {
    hide Chain, NoComma;
    forall i, j | 0 <= i < j < |chain| && (CleanID(chain[i].offer.id) || OneGo(chain, i, j))
      ensures chain[i].offer.id != chain[j].offer.id
    {
      OfferRemembered(chain, req, i, j);
    }
  }

  lemma {:induction false} MachineRemembered(chain: seq<Attempt>, req: Request, i: nat, j: nat)
    requires Chain(chain, req) && i < j < |chain| && OneGo(chain, i, j) && chain[i].offer.machineID != ""
    ensures chain[i].offer.machineID in chain[j].avoidedMachines
  {
    hide Replaces;
    if i < j - 1 {
      MachineRemembered(chain, req, i, j - 1);
    }
    assert Linked(chain, j, req.scope);
    assert FollowsAtOnce(chain[j - 1], chain[j].offer, chain[j].avoided, chain[j].avoidedMachines, req.scope);
  }

  /** Within one go no machine is used twice. */
  lemma MachinesUsedOnce(chain: seq<Attempt>, req: Request, i: nat, j: nat)
    requires Chain(chain, req) && i < j < |chain| && OneGo(chain, i, j) && chain[i].offer.machineID != ""
    ensures chain[i].offer.machineID != chain[j].offer.machineID
  {
    hide Replaces;
    MachineRemembered(chain, req, i, j);
    assert Linked(chain, j, req.scope);
    assert FollowsAtOnce(chain[j - 1], chain[j].offer, chain[j].avoided, chain[j].avoidedMachines, req.scope);
    NotAvoided(chain[j].offer, chain[j - 1].offer, req.scope, chain[j].avoided, chain[j].avoidedMachines);
  }

  // ---- Offers that come back ----

  /** A chain of a request in which one offer is used at two places. */
  ghost predicate UsesTwice(chain: seq<Attempt>, req: Request, id: string) {
    Chain(chain, req) && exists i, j :: 0 <= i < j < |chain| && chain[i].offer.id == chain[j].offer.id == id
  }

  function Listed(id: string): Offer {
    Offer(id, "vastai", "A100", 1, 80, 1.0, "", 1.0, 12.0, true, 0.9, "", 0)
  }

  const RETRYING := Request(true, 5, SAME_GPU)

  /** The rows of three sessions: with an offer, another one, and the first one again. */
  function Comeback(id: string, other: string): seq<Attempt> {
    var last := ReadBack(Join([id])) + [other];
    [Attempt(Listed(id), Requested, [], [], 0, None, 1.0, Join([id]), Some(1)),
     Attempt(Listed(other), RetriedLater, [id], [], 1, Some(0), 1.0, Join(last), Some(2)),
     Attempt(Listed(id), RetriedLater, last, [], 2, Some(1), 1.0, Join(last), None)]
  }

  lemma FoundListed(id: string, original: string, avoided: seq<string>)
    requires id != original && id !in avoided
    ensures Replaces(Listed(id), Listed(original), SAME_GPU, avoided, [])
  {
    var snapshot := Snapshot([Listed(id)], {}, map[], 0);
    assert Listed(id) in snapshot.offers && Listed(id) == Adjusted(Listed(id), snapshot);
    assert FoundIn(snapshot, Listed(id), Listed(original), SAME_GPU, avoided, []);
  }

  lemma ComebackIsAChain(id: string, other: string)
    requires id != other && !CleanID(id)
    ensures UsesTwice(Comeback(id, other), RETRYING, id)
  {
    var chain := Comeback(id, other);
    ExclusionSurvives([id], id);
    FoundListed(other, id, [id]);
    FoundListed(id, other, ReadBack(Join([id])) + [other]);
    assert Join([]) == "" && ReadBack("") + [id] == [id];
    hide Join, ReadBack, Replaces, Chain;
    assert FollowsFrom(Join([]), Listed(id), chain[0], Listed(other), [id], [], SAME_GPU);
    assert FollowsFrom(Join([id]), Listed(other), chain[1], Listed(id), ReadBack(Join([id])) + [other], [], SAME_GPU);
    assert InPlace(chain, 0) && InPlace(chain, 1) && InPlace(chain, 2);
    assert Linked(chain, 1, SAME_GPU) && Linked(chain, 2, SAME_GPU);
    ThreeMakeAChain(chain, RETRYING);
    assert chain[0].offer.id == chain[2].offer.id == id;
  }

  function Seen(id: string): Snapshot {
    Snapshot([Listed(id)], {}, map[], 0)
  }

  lemma SeenIsComparable(id: string, original: Attempt, avoided: seq<string>)
    requires original.offer == Listed(original.offer.id) && original.price == 1.0 && id != original.offer.id && id !in avoided
    ensures SeesOnly(Seen(id), Listed(id)) && Comparable(Listed(id), Synthetic(original), SAME_GPU, avoided, [], Seen(id))
  {
    assert Elements([]) == {};
  }

  /** What the world answers so that every create call succeeds, and the queries of the two retries see the other
      offer and the first one again. */
  function ComebackWorld(id: string, other: string): nat -> Answer {
    (n: nat) => Answer(Created(1.0), if n == 1 then Some(Seen(other)) else if n == 3 then Some(Seen(id)) else None,
                       VerificationFailed(false), None)
  }

  // The rows of the run as they are when created.

  function FirstRow(id: string): Attempt {
    Priced(NewAttempt(Listed(id), Requested, [], [], 0), 1.0)
  }

  function SecondRow(id: string, other: string): Attempt {
    Priced(NewAttempt(Listed(other), RetriedLater, ReadBack(FirstRow(id).failedOffers) + [FirstRow(id).offer.id], [], 1), 1.0)
  }

  function ThirdRow(id: string, other: string): Attempt {
    var second := SecondRow(id, other);
    Priced(NewAttempt(Listed(id), RetriedLater, ReadBack(second.failedOffers) + [second.offer.id], [], 2), 1.0)
  }

  lemma RowsOfComeback(id: string, other: string)
    requires id != other && !CleanID(id)
    ensures var first, second := FirstRow(id), SecondRow(id, other);
            var avoided, last := ReadBack(first.failedOffers) + [first.offer.id], ReadBack(second.failedOffers) + [second.offer.id];
            && Succeeded(Succeeded([first], avoided, second), last, ThirdRow(id, other)) == Comeback(id, other)
            && SeesOnly(Seen(other), Listed(other)) && Comparable(Listed(other), Synthetic(first), SAME_GPU, avoided, [], Seen(other))
            && SeesOnly(Seen(id), Listed(id)) && Comparable(Listed(id), Synthetic(second), SAME_GPU, last, [], Seen(id))
  {
    hide SeesOnly, Comparable, NoComma;
    EmptyIsNothing();
    ExclusionSurvives([id], id);
    assert ReadBack("") + [id] == [id];
    hide Join, ReadBack;
    SeenIsComparable(other, FirstRow(id), [id]);
    SeenIsComparable(id, SecondRow(id, other), ReadBack(Join([id])) + [other]);
  }

  /** The run: a request, and two retries after failed verification. It leaves exactly those rows. */
  method RunComeback(id: string, other: string) returns (retrier: Retrier)
    requires id != other && !CleanID(id)
    ensures fresh(retrier) && retrier.chain == Comeback(id, other) && UsesTwice(retrier.chain, RETRYING, id)
  {
    hide TakesReplacement, Chain, Fits, Comparable, SeesOnly, Join, ReadBack, UsesTwice, Allowed, Seen, NoComma, Listed, Comeback, Synthetic, NewAttempt;
    RetryingAllows();
    RowsOfComeback(id, other);
    ComebackIsAChain(id, other);
    retrier := new Retrier(ComebackWorld(id, other));
    assert Chain([], RETRYING) && Fits([], RETRYING, Listed(id), Requested, [], []) by { EmptyChain(RETRYING, Listed(id)); }
    var created := retrier.CreateSessionWithRetry(RETRYING, Listed(id), [], [], Requested);
    assert retrier.chain == [FirstRow(id)] && retrier.asked == 1;
    CreatedRows(id, other);
    hide FirstRow, SecondRow, ThirdRow, Priced, Succeeded;
    assert retrier.world(1).offers == Some(Seen(other)) && retrier.world(2).outcome == Created(1.0);
    created := retrier.TriggerAsyncRetry(RETRYING, false);
    assert retrier.world(3).offers == Some(Seen(id)) && retrier.world(4).outcome == Created(1.0);
    created := retrier.TriggerAsyncRetry(RETRYING, false);
  }

  lemma CreatedRows(id: string, other: string)
    ensures FirstRow(id).failedOffers == Join(FirstRow(id).avoided)
  {
  }

  lemma RetryingAllows()
    ensures Allowed(RETRYING) == 5
  {
  }

  lemma EmptyIsNothing()
    ensures Join([]) == "" && ReadBack("") == []
  {
  }

  lemma ThreeMakeAChain(chain: seq<Attempt>, req: Request)
    requires |chain| == 3 <= Allowed(req) + 1
    requires InPlace(chain, 0) && InPlace(chain, 1) && InPlace(chain, 2) && Linked(chain, 1, req.scope) && Linked(chain, 2, req.scope)
    ensures Chain(chain, req)
  {
  }

  /** The exact condition: an offer can be used twice by one request if and only if its ID is empty or has a
      comma. */
  lemma UsedTwiceExactlyWhen(id: string)
    ensures (exists chain, req :: UsesTwice(chain, req, id)) <==> !CleanID(id)
  {
    hide Chain, NoComma;
    if CleanID(id) {
      forall chain, req | Chain(chain, req)
        ensures !UsesTwice(chain, req, id)
      {
        OffersUsedOnce(chain, req);
      }
    } else {
      ComebackIsAChain(id, id + "'");
    }
  }

  // ---- Prices along a chain ----

  /** A replacement costs at most the factor of its scope more, if the original had a price at all. */
  lemma ReplacementIsAffordable(next: Offer, original: Offer, scope: string, avoided: seq<string>, machines: seq<string>)
    requires Replaces(next, original, scope, avoided, machines) && original.price > 0.0
    ensures next.price <= original.price * PriceFactor(scope)
  {
    var snapshot :| FoundIn(snapshot, next, original, scope, avoided, machines);
    assert original.price * PriceFactor(scope) > 0.0;
    assert MatchesFilter(next, FilterFor(original, scope));
  }

  function Pow(x: real, n: nat): real {
    if n == 0 then 1.0 else x * Pow(x, n - 1)
  }

  /** In one go, with positive prices, the k-th offer costs at most 1.2^k times the first. */
  lemma {:induction false} PriceBound(chain: seq<Attempt>, req: Request, i: nat, j: nat)
    requires Chain(chain, req) && i <= j < |chain| && OneGo(chain, i, j)
    requires req.scope != SAME_VRAM && req.scope != ANY
    requires forall k :: i <= k <= j ==> chain[k].offer.price > 0.0
    ensures chain[j].offer.price <= Times(Pow(1.2, j - i), chain[i].offer.price)
  {
    hide Replaces, Times, Pow;
    var first := chain[i].offer.price;
    if i < j {
      PriceBound(chain, req, i, j - 1);
      assert Linked(chain, j, req.scope);
      assert FollowsAtOnce(chain[j - 1], chain[j].offer, chain[j].avoided, chain[j].avoidedMachines, req.scope);
      ReplacementIsAffordable(chain[j].offer, chain[j - 1].offer, req.scope, chain[j].avoided, chain[j].avoidedMachines);
      OneMoreStep(first, j - i, chain[j - 1].offer.price, chain[j].offer.price);
    } else {
      PowZero(first);
    }
  }

  lemma PowZero(first: real)
    ensures Times(Pow(1.2, 0), first) == first
  {
  }

  lemma OneMoreStep(first: real, n: nat, before: real, after: real)
    requires n > 0 && before <= Times(Pow(1.2, n - 1), first) && after <= before * 1.2
    ensures after <= Times(Pow(1.2, n), first)
  {
    var p := Pow(1.2, n - 1);
    assert 1.2 * (p * first) == 1.2 * p * first;
  }
}
