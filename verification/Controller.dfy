/** The controller's two handlers (`internal/controller`). */
module Controller {
  import opened Results
  import opened Addresses
  import opened Names
  import opened ETag
  import opened Wire
  import opened DesiredState
  import opened LeaseExpiry
  import opened SQLiteStore
  import opened StoreRuns

  /** The authenticated caller. */
  datatype Device = Device(id: string, hostname: Name)

  datatype Settings = Settings(leaseDuration: int, renewAfter: int, policy: Policy) {
    /** Whole seconds, as sent to the agent. */
    function RenewAfterSeconds(): int { renewAfter / 1_000_000_000 }
  }

  /** All values of the two conditional headers, and the idempotency key ("" if absent). */
  datatype Headers = Headers(idempotencyKey: string, ifMatch: seq<string>, ifNoneMatch: seq<string>)

  datatype Body = Document(addresses: seq<WireAddress>) | NotOneDocument

  datatype State = State(
    deviceID: string,
    hostname: Name,
    addresses: seq<WireAddress>,
    generation: int,
    status: Status,
    leaseExpiresAt: int,
    renewAfterSeconds: int)

  datatype Response = Success(status: int, etag: string, state: State) | Failure(status: int, code: string)

  // -------------------------------------------------------------- headers

  predicate IsAlphanumeric(c: char) {
    'A' <= c <= 'Z' || 'a' <= c <= 'z' || '0' <= c <= '9'
  }

  /** `^[A-Za-z0-9][A-Za-z0-9._:-]{0,127}$` */
  predicate SafeKey(key: string) {
    && 1 <= |key| <= 128 && IsAlphanumeric(key[0])
    && forall i :: 0 <= i < |key| ==> IsAlphanumeric(key[i]) || key[i] in {'.', '_', ':', '-'}
  }

  predicate IsSpace(c: char) {
    c in {' ', '\t', '\n', '\r', '\U{000B}', '\U{000C}', '\U{0085}', '\U{00A0}'}
  }

  function TrimSpace(s: string): string {
    if s != "" && IsSpace(s[0]) then TrimSpace(s[1..])
    else if s != "" && IsSpace(s[|s| - 1]) then TrimSpace(s[..|s| - 1])
    else s
  }

  /** The precondition, or the status and code of the refusal. */
  function ParseWritePrecondition(h: Headers): Result<Precondition, (int, string)> {
    if (|h.ifMatch| == 0) == (|h.ifNoneMatch| == 0) then Err((428, "precondition_required"))
    else if |h.ifMatch| > 0 then
      if |h.ifMatch| != 1 then Err((400, "invalid_precondition"))
      else
        var generation := ParseGenerationETag(TrimSpace(h.ifMatch[0]));
        if generation.Err? then Err((400, "invalid_precondition")) else Ok(MatchGeneration(generation.value))
    else if |h.ifNoneMatch| != 1 || TrimSpace(h.ifNoneMatch[0]) != "*" then Err((400, "invalid_precondition"))
    else Ok(RequireAbsent())
  }

  ghost function StateOf(i: Intent, renewAfterSeconds: int): State {
    State(i.deviceID, i.hostname, ToWire(Canonical(i.addresses)), i.generation, StatusOf(i), i.leaseExpiresAt, renewAfterSeconds)
  }

  function StatusFor(e: StoreError): Response {
    match e
    case IdempotencyConflict => Failure(409, "idempotency_conflict")
    case PreconditionRequired => Failure(428, "precondition_required")
    case PreconditionFailed => Failure(412, "precondition_failed")
    case _ => Failure(500, "storage_error")
  }

  // ------------------------------------------------------------- handlers

  datatype Handled = Handled(tables: Tables, response: Response)

  ghost function Request(device: Device, h: Headers, s: Settings, addresses: seq<Addr>, p: Precondition, now: int): UpsertRequest {
    UpsertRequest(device.id, device.hostname, addresses, h.idempotencyKey, p, now, s.leaseDuration, s.RenewAfterSeconds())
  }

  ghost function Answer(o: Outcome): Handled {
    match o.result
    case Err(e) => Handled(o.tables, StatusFor(e))
    case Ok(r) => Handled(o.tables, Success(202, GenerationETag(r.intent.generation), StateOf(r.intent, r.renewAfterSeconds)))
  }

  /** `PUT /v1/devices/self/endpoints`, over a database that may fail. */
  ghost function PutUnder(t: Tables, device: Device, h: Headers, body: Body, s: Settings, now: int, fault: Fault): Handled {
    if !SafeKey(h.idempotencyKey) then Handled(t, Failure(400, "invalid_idempotency_key"))
    else if body.NotOneDocument? then Handled(t, Failure(400, "invalid_json"))
    else if !Acceptable(body.addresses, s.policy) then Handled(t, Failure(400, "invalid_addresses"))
    else
      var p := ParseWritePrecondition(h);
      if p.Err? then Handled(t, Failure(p.error.0, p.error.1))
      else
        CleanParses(body.addresses, |body.addresses|, s.policy);
        Answer(UpsertUnder(t, Request(device, h, s, Canonical(Parsed(body.addresses)), p.value, now), fault))
  }

  ghost function Put(t: Tables, device: Device, h: Headers, body: Body, s: Settings, now: int): Handled {
    PutUnder(t, device, h, body, s, now, NoFault)
  }

  /** What the status handler makes of the row it holds. */
  ghost function StatusReply(row: Intent, s: Settings): Response {
    Success(200, GenerationETag(row.generation), StateOf(row, s.RenewAfterSeconds()))
  }

  /** One turn of the status handler: which of its three store calls work, and what
      others have the store do between them. */
  datatype StatusTurn = StatusTurn(readOk: bool, beforeSweep: seq<Op>, sweepOk: bool, beforeReread: seq<Op>, rereadOk: bool)

  const QUIET_TURN := StatusTurn(true, [], true, [], true)

  const UNREADABLE := Response.Failure(500, "storage_error")

  /** `GET /v1/devices/self/status`, over a database that may fail and that others use. */
  ghost function GetUnder(t: Tables, device: Device, s: Settings, now: int, turn: StatusTurn): Handled {
    if !turn.readOk then Handled(t, UNREADABLE)
    else if device.id !in t.intents then Handled(t, Failure(404, "not_found"))
    else if !Lapsed(t.intents[device.id], now) then Handled(t, StatusReply(t.intents[device.id], s))
    else
      var t1 := Run(t, turn.beforeSweep);
      if !turn.sweepOk then Handled(t1, UNREADABLE)
      else
        var t2 := Run(Expire(t1, now), turn.beforeReread);
        Handled(t2, if turn.rereadOk && device.id in t2.intents then StatusReply(t2.intents[device.id], s) else UNREADABLE)
  }

  ghost function Get(t: Tables, device: Device, s: Settings, now: int): Handled {
    GetUnder(t, device, s, now, QUIET_TURN)
  }

  class Handler {
    const store: SQLite
    const settings: Settings

    constructor (store: SQLite, settings: Settings)
      ensures this.store == store && this.settings == settings
    {
      this.store, this.settings := store, settings;
    }

    method DeviceState(intent: Intent, renewAfterSeconds: int) returns (state: State)
      ensures state == StateOf(intent, renewAfterSeconds)
    {
      var addresses := AddressesFromNetIP(intent.addresses);
      state := State(intent.deviceID, intent.hostname, addresses, intent.generation, StatusOf(intent), intent.leaseExpiresAt, renewAfterSeconds);
    }

    method PutEndpoints(device: Device, headers: Headers, body: Body, now: int, fault: Fault) returns (response: Response)
      modifies store
      ensures Handled(store.Contents(), response) == PutUnder(old(store.Contents()), device, headers, body, settings, now, fault)
    {
      hide Upsert, Canonical, Strikes, Misreported;
      if !SafeKey(headers.idempotencyKey) {
        return Failure(400, "invalid_idempotency_key");
      }
      if body.NotOneDocument? {
        return Failure(400, "invalid_json");
      }
      var addresses := ValidateAddresses(body.addresses, settings.policy);
      if addresses.Err? {
        return Failure(400, "invalid_addresses");
      }
      var precondition := ParseWritePrecondition(headers);
      if precondition.Err? {
        return Failure(precondition.error.0, precondition.error.1);
      }
      var result := store.UpsertIntent(UpsertRequest(
        device.id, device.hostname, addresses.value, headers.idempotencyKey, precondition.value,
        now, settings.leaseDuration, settings.RenewAfterSeconds()), fault);
      if result.Err? {
        return StatusFor(result.error);
      }
      var state := DeviceState(result.value.intent, result.value.renewAfterSeconds);
      return Success(202, GenerationETag(result.value.intent.generation), state);
    }

    method GetStatus(device: Device, now: int, turn: StatusTurn) returns (response: Response)
      modifies store
      ensures Handled(store.Contents(), response) == GetUnder(old(store.Contents()), device, settings, now, turn)
    {
      hide Canonical, Run, Expire;
      var intent := store.GetIntent(device.id, turn.readOk);
      if intent == Err(NotFound) {
        return Failure(404, "not_found");
      }
      if intent.Err? {
        return UNREADABLE;
      }
      if |intent.value.addresses| > 0 && !(now < intent.value.leaseExpiresAt) {
        store.Perform(turn.beforeSweep);
        var swept := store.ExpireLeases(now, turn.sweepOk);
        if swept.Err? {
          return UNREADABLE;
        }
        store.Perform(turn.beforeReread);
        intent := store.GetIntent(device.id, turn.rereadOk);
        if intent.Err? {
          return UNREADABLE;
        }
      }
      var state := DeviceState(intent.value, settings.RenewAfterSeconds());
      return Success(200, GenerationETag(intent.value.generation), state);
    }
  }

  /** Sweeping before or after a PUT is the same, whatever the request: the
      controller's lease duration is positive. */
  lemma PutCommutesWithExpiry(t: Tables, device: Device, h: Headers, body: Body, s: Settings, now: int)
    requires s.leaseDuration > 0
    ensures Put(Expire(t, now), device, h, body, s, now).response == Put(t, device, h, body, s, now).response
    ensures Put(Expire(t, now), device, h, body, s, now).tables == Expire(Put(t, device, h, body, s, now).tables, now)
  {
    hide Upsert, Canonical, Accepts, ParseWritePrecondition, Acceptable, SafeKey, StateOf;
    var p := ParseWritePrecondition(h);
    if body.Document? && Acceptable(body.addresses, s.policy) && p.Ok? {
      CleanParses(body.addresses, |body.addresses|, s.policy) by { AcceptableIsClean(body.addresses, s.policy); }
      var r := Request(device, h, s, Canonical(Parsed(body.addresses)), p.value, now);
      SameVerdict(t, r);
      UpsertCommutesWithExpiry(t, r);
    }
  }

  // ------------------------------------------------------- GET, then PUT

  lemma TrimmedETag(generation: int)
    ensures TrimSpace(GenerationETag(generation)) == GenerationETag(generation)
  {
  }

  /** The agent's headers are read back as the precondition it means. */
  lemma HeadersReadBack(key: string, generation: int)
    ensures ParseWritePrecondition(Headers(key, [], ["*"])) == Ok(RequireAbsent())
    ensures 1 <= generation <= MAX_INT64 ==>
      ParseWritePrecondition(Headers(key, [GenerationETag(generation)], [])) == Ok(MatchGeneration(generation))
  {
    TrimmedETag(generation);
    ETagRoundTrip(GenerationETag(generation), generation);
    hide GenerationETag, ParseGenerationETag;
    assert TrimSpace("*") == "*";
  }

  /** The condition a status reply gives. */
  ghost function ConditionFrom(r: Response): (seq<string>, seq<string>) {
    if r.Success? then ([r.etag], []) else ([], ["*"])
  }

  lemma StatusSettles(t: Tables, device: Device, s: Settings, now: int)
    requires WellFormed(t)
    ensures
      var u := Get(t, device, s, now).tables;
      && WellFormed(u) && u.idempotency == t.idempotency
      && (device.id in t.intents <==> device.id in u.intents)
      && (device.id in t.intents ==>
            && !Lapsed(u.intents[device.id], now)
            && u.intents[device.id].hostname == t.intents[device.id].hostname
            && 1 <= u.intents[device.id].generation <= t.intents[device.id].generation + 1
            && Get(t, device, s, now).response.Success?
            && Get(t, device, s, now).response.etag == GenerationETag(u.intents[device.id].generation)
            && Get(t, device, s, now).response.state.generation == u.intents[device.id].generation)
      && (device.id !in t.intents ==> u == t && Get(t, device, s, now).response == Failure(404, "not_found"))
  {
    hide IsCanonical, Canonical, GenerationETag, ToWire, WellFormed, Advances;
    SweepKeeps(t, now);
    RowIsOk(t, device.id);
  }

  lemma RowIsOk(t: Tables, d: string)
    requires WellFormed(t)
    ensures d in t.intents ==> RowOk(d, t.intents[d])
  {
  }

  /** A fresh-key write whose precondition holds, over a row that has not lapsed. */
  lemma FreshWriteCommits(t: Tables, r: UpsertRequest)
    requires r.RowKey() !in t.idempotency && r.precondition.Valid() && PreconditionHolds(t, r)
    requires r.deviceID in t.intents ==> !Lapsed(t.intents[r.deviceID], r.now) && t.intents[r.deviceID].hostname == r.hostname
    requires r.deviceID !in t.intents ==> !HostnameInUse(t, r.hostname)
    ensures Commits(t, r)
    ensures Upsert(t, r).result.value.intent == Written(t, r)
    ensures Written(t, r).leaseExpiresAt == r.now + r.leaseDuration
    ensures Written(t, r).generation <= if r.deviceID in t.intents then t.intents[r.deviceID].generation + 1 else 1
    ensures Written(t, r).generation >= if r.deviceID in t.intents then t.intents[r.deviceID].generation else 1
  {
  }

  /** What an accepted write leaves. */
  ghost predicate Leaves(t: Tables, u: Tables, d: string, hostname: Name, key: string, addresses: seq<Addr>, generation: int) {
    && WellFormed(u) && d in u.intents
    && u.intents[d].hostname == hostname && u.intents[d].addresses == addresses
    && u.intents[d].generation == generation
    && generation <= (if d in t.intents then t.intents[d].generation + 2 else 1)
    && u.idempotency.Keys == t.idempotency.Keys + {(d, key)}
  }

  lemma CommittedLeaves(t: Tables, r: UpsertRequest)
    requires WellFormed(t) && Commits(t, r)
    ensures Upsert(t, r).result.Ok?
    ensures Leaves(t, Upsert(t, r).tables, r.deviceID, r.hostname, r.idempotencyKey, Canonical(r.addresses), Upsert(t, r).result.value.intent.generation)
  {
    hide WellFormed, Canonical, IsCanonical;
    WriteKeeps(t, r);
    UpsertShape(t, r);
    var settled := SettleDevice(t, r.deviceID, r.now);
    SettleKeeps(t, r.deviceID, r.now);
    WrittenRow(settled, r);
  }

  /** The condition a status reply gives the agent holds at that same moment: a
      fresh-key write under it is accepted, with a lease that starts now. */
  lemma StatusAdmitsWrite(t: Tables, device: Device, s: Settings, now: int, key: string, document: seq<WireAddress>)
    requires WellFormed(t)
    requires device.id in t.intents ==> t.intents[device.id].hostname == device.hostname && t.intents[device.id].generation + 2 <= MAX_INT64
    requires device.id !in t.intents ==> !HostnameInUse(t, device.hostname)
    requires SafeKey(key) && (device.id, key) !in t.idempotency && Acceptable(document, s.policy)
    ensures
      var status := Get(t, device, s, now);
      var c := ConditionFrom(status.response);
      var put := Put(status.tables, device, Headers(key, c.0, c.1), Document(document), s, now);
      && put.response.Success? && put.response.status == 202
      && put.response.state.leaseExpiresAt == now + s.leaseDuration
      && put.response.etag == GenerationETag(put.response.state.generation)
      && 1 <= put.response.state.generation <= MAX_INT64
    ensures
      var status := Get(t, device, s, now);
      var c := ConditionFrom(status.response);
      var put := Put(status.tables, device, Headers(key, c.0, c.1), Document(document), s, now);
      && put.response.Success?
      && (forall i :: 0 <= i < |document| ==> document[i].address.Text?)
      && Leaves(t, put.tables, device.id, device.hostname, key, Canonical(Canonical(Parsed(document))), put.response.state.generation)
  {
    hide Leaves;
    StatusSettles(t, device, s, now);
    var status := Get(t, device, s, now);
    var u := status.tables;
    var c := ConditionFrom(status.response);
    var h := Headers(key, c.0, c.1);
    HeadersReadBack(key, if device.id in u.intents then u.intents[device.id].generation else 1);
    hide Get, GenerationETag, ParseWritePrecondition, WellFormed, Acceptable, Canonical, SafeKey, Upsert, Written, Commits;
    CleanParses(document, |document|, s.policy) by { AcceptableIsClean(document, s.policy); }
    var r := Request(device, h, s, Canonical(Parsed(document)), ParseWritePrecondition(h).value, now);
    FreshWriteCommits(u, r);
    CommitsGivesResult(u, r);
    CommittedLeaves(u, r);
    LeavesSince(t, u, Upsert(u, r).tables, device, key, Canonical(r.addresses), Written(u, r).generation);
  }

  lemma LeavesSince(t: Tables, u: Tables, v: Tables, device: Device, key: string, addresses: seq<Addr>, generation: int)
    requires Leaves(u, v, device.id, device.hostname, key, addresses, generation)
    requires u.idempotency == t.idempotency && (device.id in t.intents <==> device.id in u.intents)
    requires generation <= if device.id in t.intents then t.intents[device.id].generation + 2 else 1
    ensures Leaves(t, v, device.id, device.hostname, key, addresses, generation)
  {
  }

  lemma AcceptableIsClean(document: seq<WireAddress>, policy: Policy)
    requires Acceptable(document, policy)
    ensures CleanUpTo(document, |document|, policy)
  {
  }

  lemma CommitsGivesResult(t: Tables, r: UpsertRequest)
    requires Commits(t, r)
    ensures Upsert(t, r).result.Ok?
  {
  }
}
