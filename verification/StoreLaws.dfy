/** What each store operation does, column by column. */
module StoreLaws {
  import opened Order
  import opened Results
  import opened Addresses
  import opened Names
  import opened ETag
  import opened DesiredState
  import opened StoreRuns

  // ---------------------------------------------------------- the request

  /** The lease is over, and there are still addresses under it. */
  predicate Over(row: Intent, now: int) {
    row.addresses != [] && row.leaseExpiresAt <= now
  }

  predicate IsOver(t: Tables, d: string, now: int) {
    d in t.intents && Over(t.intents[d], now)
  }

  /** The generation the request meets: one on, if the lease is over. */
  ghost function Met(t: Tables, d: string, now: int): int
    requires d in t.intents
  {
    t.intents[d].generation + if IsOver(t, d, now) then 1 else 0
  }

  ghost predicate Stored(t: Tables, r: UpsertRequest) {
    (r.deviceID, r.idempotencyKey) in t.idempotency
  }

  function KeyText(p: Precondition): string {
    if p.requireAbsent then "if-none-match:*"
    else if p.expectedGeneration < 0 then "if-match:g--" + Decimal(-p.expectedGeneration)
    else "if-match:g-" + Decimal(p.expectedGeneration)
  }

  /** The stored key was used for this set and this precondition, or has no precondition. */
  ghost predicate SameUse(t: Tables, r: UpsertRequest)
    requires Stored(t, r)
  {
    var row := t.idempotency[(r.deviceID, r.idempotencyKey)];
    row.payloadHash.canonical == Canonical(r.addresses) && row.preconditionKey in {"", KeyText(r.precondition)}
  }

  /** Exactly one of the two conditions is asked for. */
  ghost predicate Conditional(r: UpsertRequest) {
    if r.precondition.requireAbsent then r.precondition.expectedGeneration == 0 else 1 <= r.precondition.expectedGeneration
  }

  ghost predicate ConditionMet(t: Tables, r: UpsertRequest) {
    if r.deviceID in t.intents
    then !r.precondition.requireAbsent && Met(t, r.deviceID, r.now) == r.precondition.expectedGeneration
    else r.precondition.requireAbsent
  }

  ghost predicate Named(t: Tables, r: UpsertRequest) {
    if r.deviceID in t.intents then t.intents[r.deviceID].hostname == r.hostname
    else forall d :: d in t.intents ==> t.intents[d].hostname != r.hostname
  }

  lemma KeyTextIsKey(p: Precondition)
    ensures p.Key() == KeyText(p)
  {
  }

  /** Each verdict, by the request and the row it meets. */
  lemma Verdicts(t: Tables, r: UpsertRequest)
    ensures
      var result := Upsert(t, r).result;
      if Stored(t, r) then
        if SameUse(t, r) then result.Ok? && result.value.replay else result == Err(IdempotencyConflict)
      else if !Conditional(r) then result == Err(PreconditionRequired)
      else if !ConditionMet(t, r) then result == Err(PreconditionFailed)
      else if !Named(t, r) then result == Err(if r.deviceID in t.intents then HostnameChanged else HostnameTaken)
      else result.Ok? && !result.value.replay
  {
    KeyTextIsKey(r.precondition);
    hide Canonical;
  }

  /** A refusal or replay changes nothing, except that a failed condition still empties
      the row of a lease that is over. */
  lemma RefusalsKeep(t: Tables, r: UpsertRequest)
    requires Upsert(t, r).result.Err? || Upsert(t, r).result.value.replay
    ensures
      var u := Upsert(t, r).tables;
      if Upsert(t, r).result == Err(PreconditionFailed) && IsOver(t, r.deviceID, r.now) then
        && u.idempotency == t.idempotency && r.deviceID in u.intents
        && u.intents == t.intents[r.deviceID := u.intents[r.deviceID]]
        && Emptied(t.intents[r.deviceID], r.now, u.intents[r.deviceID])
      else u == t
  {
    hide Canonical;
  }

  /** The row without its addresses, one generation on; who it is, its lease and what has
      been published of it stay. */
  ghost predicate Emptied(row: Intent, now: int, next: Intent) {
    && next.deviceID == row.deviceID && next.hostname == row.hostname && next.leaseExpiresAt == row.leaseExpiresAt
    && next.originApplied == row.originApplied && next.publicObserved == row.publicObserved
    && next.addresses == [] && next.generation == row.generation + 1 && next.updatedAt == now && next.lastError == ""
  }

  /** What an accepted write leaves of the device's row: the new set, lease and time; a
      further generation and no error, unless the same set is renewed in time; and what has
      been published is untouched. */
  lemma AcceptedRow(t: Tables, r: UpsertRequest)
    requires Upsert(t, r).result.Ok? && !Upsert(t, r).result.value.replay
    ensures
      var u, next := Upsert(t, r).tables, Upsert(t, r).result.value.intent;
      && u.intents == t.intents[r.deviceID := next]
      && next.deviceID == (if r.deviceID in t.intents then t.intents[r.deviceID].deviceID else r.deviceID)
      && next.hostname == r.hostname && next.addresses == Canonical(r.addresses)
      && next.leaseExpiresAt == r.now + r.leaseDuration && next.updatedAt == r.now
      && Upsert(t, r).result.value.renewAfterSeconds == r.renewAfterSeconds
      && if r.deviceID !in t.intents then
           next.generation == 1 && next.originApplied == 0 && next.publicObserved == 0 && next.lastError == ""
         else
           var row := t.intents[r.deviceID];
           var renewed := row.leaseExpiresAt > r.now && Unmapped(row.addresses) == Unmapped(r.addresses);
           && next.originApplied == row.originApplied && next.publicObserved == row.publicObserved
           && next.generation == Met(t, r.deviceID, r.now) + (if renewed then 0 else 1)
           && next.lastError == (if renewed then row.lastError else "")
  {
    if r.deviceID in t.intents {
      CanonicalDecidesSetEquality(t.intents[r.deviceID].addresses, r.addresses);
    }
    hide Canonical, Unmapped;
  }

  /** ... and of the key: one new response, a copy of that row. */
  lemma AcceptedResponse(t: Tables, r: UpsertRequest)
    requires Upsert(t, r).result.Ok? && !Upsert(t, r).result.value.replay
    ensures
      var u, next := Upsert(t, r).tables, Upsert(t, r).result.value.intent;
      var key := (r.deviceID, r.idempotencyKey);
      && key in u.idempotency && u.idempotency == t.idempotency[key := u.idempotency[key]]
      && u.idempotency[key].payloadHash.canonical == Canonical(r.addresses)
      && u.idempotency[key].preconditionKey == KeyText(r.precondition)
      && Copies(u.idempotency[key].response, next) && u.idempotency[key].response.renewAfterSeconds == r.renewAfterSeconds
  {
    KeyTextIsKey(r.precondition);
    CanonicalIdempotent(r.addresses);
    hide Canonical;
  }

  ghost predicate Copies(p: Persisted, row: Intent) {
    && p.deviceID == row.deviceID && p.hostname == row.hostname && p.addresses == row.addresses
    && p.generation == row.generation && p.leaseExpiresAt == row.leaseExpiresAt && p.updatedAt == row.updatedAt
    && p.originApplied == row.originApplied && p.publicObserved == row.publicObserved && p.lastError == row.lastError
  }

  /** A replay returns what is stored, with the request's renewal time only if none is. */
  lemma ReplayReturns(t: Tables, r: UpsertRequest)
    requires Stored(t, r) && SameUse(t, r)
    ensures
      var stored := t.idempotency[(r.deviceID, r.idempotencyKey)].response;
      var result := Upsert(t, r).result;
      && result.Ok? && Copies(stored, result.value.intent)
      && result.value.renewAfterSeconds == if stored.renewAfterSeconds > 0 then stored.renewAfterSeconds else r.renewAfterSeconds
  {
    KeyTextIsKey(r.precondition);
    hide Canonical;
  }

  // ------------------------------------------------- a database that fails

  /** The database calls of one transaction, in order. */
  ghost function Calls(t: Tables, r: UpsertRequest): seq<Fault> {
    var expiry := if IsOver(t, r.deviceID, r.now) then [LapseFails] else [];
    var renewed := [WriteFails, RecordFails, CommitFails];
    [BeginFails, ReadKeyFails] +
      if Stored(t, r) then (if SameUse(t, r) then [DecodeFails, CommitFails] else [])
      else if !Conditional(r) then []
      else if !ConditionMet(t, r) then [ReadRowFails] + expiry + (if expiry == [] then [] else [CommitFails])
      else if Named(t, r) then [ReadRowFails] + expiry + renewed
      else if r.deviceID in t.intents then [ReadRowFails] + expiry
      else [ReadRowFails, WriteFails]
  }

  /** A call that fails makes the transaction fail without a trace, and a commit that
      fails only in its report leaves the whole transaction; a call that is not made
      cannot matter. */
  lemma FaultsStrike(t: Tables, r: UpsertRequest, fault: Fault)
    ensures UpsertUnder(t, r, fault)
         == if fault in Calls(t, r) then Outcome(t, Err(StorageFailed))
            else if fault.CommitUnsure? && CommitFails in Calls(t, r) then Outcome(Upsert(t, r).tables, Err(StorageFailed))
            else Upsert(t, r)
  {
    KeyTextIsKey(r.precondition);
    hide Canonical, Upsert;
  }

  // ------------------------------------------------------ the other operations

  /** A sweep empties exactly the rows whose lease is over, and touches nothing else. */
  lemma SweepEmpties(t: Tables, now: int)
    ensures Expire(t, now).intents.Keys == t.intents.Keys && Expire(t, now).idempotency == t.idempotency
    ensures forall d :: d in t.intents ==>
      if IsOver(t, d, now) then Emptied(t.intents[d], now, Expire(t, now).intents[d]) else Expire(t, now).intents[d] == t.intents[d]
  {
  }

  lemma LapsedDevicesAre(t: Tables, now: int)
    ensures Sorted(LapsedDevices(t, now), StringLeq) && Distinct(LapsedDevices(t, now))
    ensures forall d :: d in LapsedDevices(t, now) <==> IsOver(t, d, now)
  {
    StringOrder();
    forall d ensures d in LapsedDevices(t, now) <==> IsOver(t, d, now) {
      assert d in LapsedDevices(t, now) <==> d in Elements(LapsedDevices(t, now));
    }
  }

  /** ... and returns them as they are now, in device order. */
  lemma SweepReturns(t: Tables, now: int)
    ensures
      var ids, rows := LapsedDevices(t, now), LapsedRows(t, now);
      && Sorted(ids, StringLeq) && Distinct(ids) && (forall d :: d in ids <==> IsOver(t, d, now))
      && |rows| == |ids| && forall i :: 0 <= i < |ids| ==> ids[i] in Expire(t, now).intents && rows[i] == Expire(t, now).intents[ids[i]]
  {
    LapsedDevicesAre(t, now);
    var ids := LapsedDevices(t, now);
    hide LapsedDevices;
    forall i | 0 <= i < |ids| ensures ids[i] in t.intents && Lapsed(t.intents[ids[i]], now) {
      assert ids[i] in ids;
    }
  }

  /** A mark changes one column of one row, and only if the row is still at the marked
      generation. */
  lemma MarksAreGuarded(t: Tables, d: string, g: int, message: string)
    ensures
      if d !in t.intents || t.intents[d].generation != g then
        MarkOriginApplied(t, d, g) == MarkPubliclyObserved(t, d, g) == MarkPublicationError(t, d, g, message) == t
      else
        var row := t.intents[d];
        && MarkOriginApplied(t, d, g) == t.(intents := t.intents[d := row.(originApplied := g, lastError := "")])
        && MarkPublicationError(t, d, g, message) == t.(intents := t.intents[d := row.(lastError := message)])
        && MarkPubliclyObserved(t, d, g) == if row.originApplied < g then t else t.(intents := t.intents[d := row.(publicObserved := g)])
  {
  }

  /** A row is waiting for the origin, or for the public servers. */
  ghost predicate Waits(row: Intent, which: Backlog) {
    if which.OriginBacklog? then row.originApplied < row.generation else row.publicObserved < row.generation <= row.originApplied
  }

  /** A listing holds the rows that wait as they are, in device order, as many as asked
      for, or 100; and a waiting row is left out only when the listing is full, and comes
      after all of it. */
  lemma ListingHolds(t: Tables, which: Backlog, limit: int)
    ensures
      var ids, rows, most := FirstPending(t, which, limit), Listing(t, which, limit), if limit > 0 then limit else 100;
      && |rows| == |ids| <= most && Sorted(ids, StringLeq) && Distinct(ids)
      && (forall i :: 0 <= i < |ids| ==> ids[i] in t.intents && rows[i] == t.intents[ids[i]] && Waits(rows[i], which))
      && (forall d :: d in t.intents && Waits(t.intents[d], which) && d !in ids ==> |ids| == most && forall i :: 0 <= i < |ids| ==> StringLeq(ids[i], d))
  {
    var ids, all := FirstPending(t, which, limit), PendingDevices(t, which);
    PendingDevicesArePending(t, which);
    hide FirstPending, PendingDevices;
    assert ids == all[..|ids|];
    assert forall i :: 0 <= i < |ids| ==> all[i] == ids[i] && all[i] in ids;
    forall i | 0 <= i < |ids| ensures ids[i] in t.intents && Pending(t.intents[ids[i]], which) {
      assert ids[i] in ids;
    }
    forall d | d in t.intents && Waits(t.intents[d], which) && d !in ids
      ensures |ids| < |all| && forall i :: 0 <= i < |ids| ==> StringLeq(ids[i], d)
    {
      assert d in all;
      var k :| 0 <= k < |all| && all[k] == d;
    }
  }
}
