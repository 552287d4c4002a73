/** The desired-state tables and what each store operation does to them
    (`internal/store`). Times are nanoseconds, generations unbounded. */
module DesiredState {
  import opened Order
  import opened Results
  import opened Addresses
  import opened ETag
  import opened Names

  datatype Intent = Intent(
    deviceID: string,
    hostname: Name,
    addresses: seq<Addr>,
    generation: int,
    leaseExpiresAt: int,
    updatedAt: int,
    originApplied: int,
    publicObserved: int,
    lastError: string)

  datatype Status = Accepted | OriginApplied | PubliclyObserved

  function StatusOf(i: Intent): Status {
    if i.publicObserved >= i.generation then PubliclyObserved
    else if i.originApplied >= i.generation then OriginApplied
    else Accepted
  }

  datatype Precondition = Precondition(expectedGeneration: int, requireAbsent: bool) {
    predicate Valid() {
      (requireAbsent && expectedGeneration == 0) || (!requireAbsent && expectedGeneration > 0)
    }

    function Key(): string {
      if requireAbsent then "if-none-match:*" else "if-match:g-" + FormatInt(expectedGeneration)
    }
  }

  function MatchGeneration(generation: int): Precondition { Precondition(generation, false) }

  function RequireAbsent(): Precondition { Precondition(0, true) }

  /** The stored key text tells valid preconditions apart. */
  lemma PreconditionKeyInjective(p: Precondition, q: Precondition)
    requires p.Valid() && q.Valid() && p.Key() == q.Key()
    ensures p == q
  {
    KeyKind(p);
    KeyKind(q);
    if !p.requireAbsent {
      assert p.Key()[|"if-match:g-"|..] == FormatInt(p.expectedGeneration);
      assert q.Key()[|"if-match:g-"|..] == FormatInt(q.expectedGeneration);
      FormatIntInjective(p.expectedGeneration, q.expectedGeneration);
    }
  }

  lemma KeyKind(p: Precondition)
    ensures |p.Key()| > 3 && (p.Key()[3] == 'n' <==> p.requireAbsent)
  {
  }

  /** The response document kept with an idempotency key. */
  datatype Persisted = Persisted(
    deviceID: string,
    hostname: Name,
    addresses: seq<Addr>,
    generation: int,
    leaseExpiresAt: int,
    updatedAt: int,
    renewAfterSeconds: int,
    originApplied: int,
    publicObserved: int,
    lastError: string)

  ghost function Persist(i: Intent, renewAfterSeconds: int): Persisted {
    Persisted(i.deviceID, i.hostname, Canonical(i.addresses), i.generation, i.leaseExpiresAt, i.updatedAt,
              renewAfterSeconds, i.originApplied, i.publicObserved, i.lastError)
  }

  function Restore(p: Persisted): Intent {
    Intent(p.deviceID, p.hostname, p.addresses, p.generation, p.leaseExpiresAt, p.updatedAt,
           p.originApplied, p.publicObserved, p.lastError)
  }

  datatype IdempotencyRow = IdempotencyRow(payloadHash: Digest, preconditionKey: string, response: Persisted)

  datatype Tables = Tables(
    intents: map<string, Intent>,
    idempotency: map<(string, string), IdempotencyRow>)

  datatype StoreError = NotFound | IdempotencyConflict | PreconditionRequired | PreconditionFailed | HostnameChanged | HostnameTaken | StorageFailed

  datatype UpsertRequest = UpsertRequest(
    deviceID: string,
    hostname: Name,
    addresses: seq<Addr>,
    idempotencyKey: string,
    precondition: Precondition,
    now: int,
    leaseDuration: int,
    renewAfterSeconds: int)
  {
    function RowKey(): (string, string) { (deviceID, idempotencyKey) }
  }

  datatype UpsertResult = UpsertResult(intent: Intent, renewAfterSeconds: int, replay: bool)

  datatype Outcome = Outcome(tables: Tables, result: Result<UpsertResult, StoreError>)

  // -------------------------------------------------------------- leases

  predicate Lapsed(row: Intent, now: int) {
    row.addresses != [] && row.leaseExpiresAt <= now
  }

  function Lapse(row: Intent, now: int): Intent {
    row.(addresses := [], generation := row.generation + 1, updatedAt := now, lastError := "")
  }

  function Settle(row: Intent, now: int): Intent {
    if Lapsed(row, now) then Lapse(row, now) else row
  }

  /** `ExpireLeases`. */
  ghost function Expire(t: Tables, now: int): Tables {
    t.(intents := map d | d in t.intents :: Settle(t.intents[d], now))
  }

  ghost function LapsedDevices(t: Tables, now: int): seq<string> {
    StringOrder();
    SortedSet((set d | d in t.intents && Lapsed(t.intents[d], now)), StringLeq)
  }

  lemma LapsedDevicesUnique(t: Tables, now: int, ids: seq<string>)
    requires Sorted(ids, StringLeq) && Distinct(ids)
    requires forall d :: d in ids <==> d in t.intents && Lapsed(t.intents[d], now)
    ensures ids == LapsedDevices(t, now)
  {
    StringOrder();
    SortedSetIsUnique(ids, StringLeq);
    assert Elements(ids) == set d | d in t.intents && Lapsed(t.intents[d], now);
  }

  /** The rows `ExpireLeases` returns. */
  ghost function LapsedRows(t: Tables, now: int): seq<Intent> {
    var ids := LapsedDevices(t, now);
    StringOrder();
    assert forall i | 0 <= i < |ids| :: ids[i] in Elements(ids);
    seq(|ids|, i requires 0 <= i < |ids| => Lapse(t.intents[ids[i]], now))
  }

  ghost function SettleDevice(t: Tables, device: string, now: int): Tables {
    if device in t.intents
    then t.(intents := t.intents[device := Settle(t.intents[device], now)])
    else t
  }

  // -------------------------------------------------------------- upsert

  ghost predicate Bound(row: IdempotencyRow, r: UpsertRequest) {
    row.payloadHash == Hash(r.addresses) && (row.preconditionKey == "" || row.preconditionKey == r.precondition.Key())
  }

  ghost function Replayed(row: IdempotencyRow, r: UpsertRequest): Result<UpsertResult, StoreError> {
    if !Bound(row, r) then Err(IdempotencyConflict)
    else
      var renew := if row.response.renewAfterSeconds <= 0 then r.renewAfterSeconds else row.response.renewAfterSeconds;
      Ok(UpsertResult(Restore(row.response), renew, true))
  }

  predicate PreconditionHolds(t: Tables, r: UpsertRequest) {
    if r.precondition.requireAbsent then r.deviceID !in t.intents
    else r.deviceID in t.intents && t.intents[r.deviceID].generation == r.precondition.expectedGeneration
  }

  predicate HostnameInUse(t: Tables, hostname: Name) {
    exists d :: d in t.intents && t.intents[d].hostname == hostname
  }

  /** Whether the write over `base` makes a new generation. */
  ghost predicate Changes(base: Intent, r: UpsertRequest) {
    Canonical(base.addresses) != Canonical(r.addresses) || base.leaseExpiresAt <= r.now
  }

  ghost function Written(t: Tables, r: UpsertRequest): Intent {
    var a := Canonical(r.addresses);
    var lease := r.now + r.leaseDuration;
    if r.deviceID !in t.intents
    then Intent(r.deviceID, r.hostname, a, 1, lease, r.now, 0, 0, "")
    else
      var base := t.intents[r.deviceID];
      var next := base.(addresses := a, leaseExpiresAt := lease, updatedAt := r.now);
      if Changes(base, r) then next.(generation := base.generation + 1, lastError := "") else next
  }

  ghost function Commit(t: Tables, r: UpsertRequest): Tables {
    var next := Written(t, r);
    Tables(t.intents[r.deviceID := next],
           t.idempotency[r.RowKey() := IdempotencyRow(Hash(r.addresses), r.precondition.Key(), Persist(next, r.renewAfterSeconds))])
  }

  /** `UpsertIntent`: one serializable transaction. */
  ghost function Upsert(t: Tables, r: UpsertRequest): Outcome {
    if r.RowKey() in t.idempotency then Outcome(t, Replayed(t.idempotency[r.RowKey()], r))
    else if !r.precondition.Valid() then Outcome(t, Err(PreconditionRequired))
    else
      var settled := SettleDevice(t, r.deviceID, r.now);
      if !PreconditionHolds(settled, r) then Outcome(settled, Err(PreconditionFailed))
      else if r.deviceID in t.intents && t.intents[r.deviceID].hostname != r.hostname then Outcome(t, Err(HostnameChanged))
      else if r.deviceID !in t.intents && HostnameInUse(t, r.hostname) then Outcome(t, Err(HostnameTaken))
      else Outcome(Commit(settled, r), Ok(UpsertResult(Written(settled, r), r.renewAfterSeconds, false)))
  }

  /** An accepted write that was not a replay. */
  ghost predicate Commits(t: Tables, r: UpsertRequest) {
    var o := Upsert(t, r);
    o.result.Ok? && !o.result.value.replay
  }

  /** The same by the guards alone: what a caller can check before the request. */
  ghost predicate Accepts(t: Tables, r: UpsertRequest) {
    && r.RowKey() !in t.idempotency && r.precondition.Valid()
    && PreconditionHolds(SettleDevice(t, r.deviceID, r.now), r)
    && (if r.deviceID in t.intents then t.intents[r.deviceID].hostname == r.hostname else !HostnameInUse(t, r.hostname))
  }

  lemma CommitsIffAccepts(t: Tables, r: UpsertRequest)
    ensures Commits(t, r) <==> Accepts(t, r)
  {
  }

  /** Where the database can fail inside the transaction. */
  datatype Fault =
    | NoFault
    | BeginFails
    | ReadKeyFails
    | DecodeFails
    | ReadRowFails
    | LapseFails
    | WriteFails
    | RecordFails
    | CommitFails
    | CommitUnsure

  /** The transaction gets as far as the step that fails, and leaves nothing. */
  ghost predicate Strikes(t: Tables, r: UpsertRequest, fault: Fault) {
    var replays := r.RowKey() in t.idempotency && Bound(t.idempotency[r.RowKey()], r);
    var proceeds := r.RowKey() !in t.idempotency && r.precondition.Valid();
    var lapses := r.deviceID in t.intents && Lapsed(t.intents[r.deviceID], r.now);
    var holds := PreconditionHolds(SettleDevice(t, r.deviceID, r.now), r);
    match fault
    case NoFault => false
    case BeginFails => true
    case ReadKeyFails => true
    case DecodeFails => replays
    case ReadRowFails => proceeds
    case LapseFails => proceeds && lapses
    case WriteFails => proceeds && holds && (r.deviceID in t.intents ==> t.intents[r.deviceID].hostname == r.hostname)
    case RecordFails => Accepts(t, r)
    case CommitFails => Finishes(t, r)
    case CommitUnsure => false
  }

  /** The transaction gets as far as its commit. */
  ghost predicate Finishes(t: Tables, r: UpsertRequest) {
    if r.RowKey() in t.idempotency then Bound(t.idempotency[r.RowKey()], r)
    else
      && r.precondition.Valid()
      && (Accepts(t, r) || (r.deviceID in t.intents && Lapsed(t.intents[r.deviceID], r.now)
                            && !PreconditionHolds(SettleDevice(t, r.deviceID, r.now), r)))
  }

  /** The commit took effect and was still reported as failed. */
  ghost predicate Misreported(t: Tables, r: UpsertRequest, fault: Fault) {
    fault.CommitUnsure? && Finishes(t, r)
  }

  /** `UpsertIntent` over a database that may fail. */
  ghost function UpsertUnder(t: Tables, r: UpsertRequest, fault: Fault): Outcome {
    if Strikes(t, r, fault) then Outcome(t, Err(StorageFailed))
    else if Misreported(t, r, fault) then Outcome(Upsert(t, r).tables, Err(StorageFailed))
    else Upsert(t, r)
  }

  // --------------------------------------------------------------- lists

  datatype Backlog = OriginBacklog | ObservationBacklog

  predicate Pending(row: Intent, which: Backlog) {
    match which
    case OriginBacklog => row.originApplied < row.generation
    case ObservationBacklog => row.originApplied >= row.generation && row.publicObserved < row.generation
  }

  ghost function PendingDevices(t: Tables, which: Backlog): seq<string> {
    StringOrder();
    SortedSet((set d | d in t.intents && Pending(t.intents[d], which)), StringLeq)
  }

  lemma PendingDevicesArePending(t: Tables, which: Backlog)
    ensures Sorted(PendingDevices(t, which), StringLeq) && Distinct(PendingDevices(t, which))
    ensures forall d :: d in PendingDevices(t, which) <==> d in t.intents && Pending(t.intents[d], which)
  {
    StringOrder();
    forall d ensures d in PendingDevices(t, which) <==> d in t.intents && Pending(t.intents[d], which) {
      assert d in PendingDevices(t, which) <==> d in Elements(PendingDevices(t, which));
    }
  }

  lemma PendingDevicesUnique(t: Tables, which: Backlog, ids: seq<string>)
    requires Sorted(ids, StringLeq) && Distinct(ids)
    requires forall d :: d in ids <==> d in t.intents && Pending(t.intents[d], which)
    ensures ids == PendingDevices(t, which)
  {
    StringOrder();
    SortedSetIsUnique(ids, StringLeq);
    assert Elements(ids) == set d | d in t.intents && Pending(t.intents[d], which);
  }

  function Limit(limit: int): nat {
    if limit <= 0 then 100 else limit
  }

  function Rows(t: Tables, ids: seq<string>): seq<Intent>
    requires forall d :: d in ids ==> d in t.intents
  {
    seq(|ids|, i requires 0 <= i < |ids| => t.intents[ids[i]])
  }

  ghost function FirstPending(t: Tables, which: Backlog, limit: int): (ids: seq<string>)
    ensures forall d :: d in ids ==> d in t.intents && Pending(t.intents[d], which)
    ensures Distinct(ids) && ids <= PendingDevices(t, which)
    ensures |ids| == if Limit(limit) < |PendingDevices(t, which)| then Limit(limit) else |PendingDevices(t, which)|
  {
    var all := PendingDevices(t, which);
    PendingDevicesArePending(t, which);
    if Limit(limit) < |all| then all[..Limit(limit)] else all
  }

  /** `ListOriginPending` and `ListObservationPending`. */
  ghost function Listing(t: Tables, which: Backlog, limit: int): seq<Intent> {
    Rows(t, FirstPending(t, which, limit))
  }

  // --------------------------------------------------------------- marks

  ghost function MarkOriginApplied(t: Tables, device: string, generation: int): Tables {
    if device in t.intents && t.intents[device].generation == generation
    then t.(intents := t.intents[device := t.intents[device].(originApplied := generation, lastError := "")])
    else t
  }

  ghost function MarkPubliclyObserved(t: Tables, device: string, generation: int): Tables {
    if device in t.intents && t.intents[device].generation == generation && t.intents[device].originApplied >= generation
    then t.(intents := t.intents[device := t.intents[device].(publicObserved := generation)])
    else t
  }

  ghost function MarkPublicationError(t: Tables, device: string, generation: int, message: string): Tables {
    if device in t.intents && t.intents[device].generation == generation
    then t.(intents := t.intents[device := t.intents[device].(lastError := message)])
    else t
  }
}
