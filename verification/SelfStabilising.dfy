/** From any store and any pending file, how one `UpdateOnce` ends. */
module SelfStabilising {
  import opened Results
  import opened Addresses
  import opened ETag
  import opened Wire
  import opened DesiredState
  import opened StoreRuns
  import opened Controller
  import opened Agent

  /** The device may write: its hostname is its own, and its generation is not
      about to leave the int64 range. */
  ghost predicate Placed(t: Tables, device: Device, margin: nat) {
    && WellFormed(t)
    && (device.id in t.intents ==>
          t.intents[device.id].hostname == device.hostname && t.intents[device.id].generation + margin <= MAX_INT64)
    && (device.id !in t.intents ==> !HostnameInUse(t, device.hostname))
  }

  ghost predicate UnusedKey(t: Tables, device: Device, key: string) {
    SafeKey(key) && (device.id, key) !in t.idempotency
  }

  /** The document is one the controller accepts; see `Wire.AgentDocumentAccepted`. */
  ghost predicate Submittable(addresses: seq<Addr>, s: Settings) {
    Acceptable(ToWire(Canonical(addresses)), s.policy)
  }

  lemma SubmittableIsNonEmpty(addresses: seq<Addr>, s: Settings)
    requires Submittable(addresses, s)
    ensures addresses != []
  {
  }

  /** The status reply is always usable. */
  lemma FetchesCondition(t: Tables, device: Device, s: Settings, now: int)
    requires Placed(t, device, 2)
    ensures
      var status := Get(t, device, s, now);
      Fetched(status.response) == Ok(if device.id in t.intents then (status.response.etag, false) else ("", true))
  {
    StatusSettles(t, device, s, now);
    if device.id in t.intents {
      var g := Get(t, device, s, now).tables.intents[device.id].generation;
      ETagRoundTrip(GenerationETag(g), g);
    }
    hide GenerationETag, ParseGenerationETag, WellFormed, ToWire, Canonical;
  }

  /** In calm weather the submission is loaded or made as usual, ... */
  lemma CalmLoad(t: Tables, f: File, hash: Digest, device: Device, s: Settings, now: int, clock: int, key: string)
    ensures
      var status := Get(t, device, s, now);
      var c := Fetched(status.response);
      LoadOrCreate(t, f, hash, device, s, key, Calm(now, clock))
      == if Usable(f, hash) then Loaded(t, f, Ok(f.pending))
         else if c.Err? then Loaded(status.tables, f, Err(c.error))
         else Loaded(status.tables, Saved(Pending(hash, key, c.value.0, c.value.1)), Ok(Pending(hash, key, c.value.0, c.value.1)))
  {
    hide GetUnder, Fetched, Usable;
  }

  /** ... sent, and settled by the verdict on the reply. */
  lemma CalmUpdate(t: Tables, f: File, addresses: seq<Addr>, device: Device, s: Settings, now: int, clock: int, keys: (string, string), refresh: bool)
    requires addresses != []
    requires LoadOrCreate(t, f, Hash(addresses), device, s, keys.0, Calm(now, clock)).pending.Ok?
    ensures
      var loaded := LoadOrCreate(t, f, Hash(addresses), device, s, keys.0, Calm(now, clock));
      var put := Put(loaded.tables, device, loaded.pending.value.HeadersFor(), Document(ToWire(Canonical(addresses))), s, now);
      var v := Judge(put.response, clock, refresh);
      Update(t, f, addresses, device, s, now, clock, keys, refresh)
      == if v.Again?
         then
           var second := Update(put.tables, Absent, addresses, device, s, now, clock, (keys.1, keys.1), false);
           second.(puts := second.puts + 1)
         else UpdateRun(put.tables, FileAfter(loaded.file, v, true), Ended(v, true), 1)
  {
    hide LoadOrCreate, PutUnder, Hash, Canonical, ToWire, Judge;
    if !refresh { NeverAgain(clock); }
  }

  lemma NeverAgain(now: int)
    ensures forall r: Response :: !Judge(r, now, false).Again?
  {
    hide Sound;
  }

  lemma FreshLoad(t: Tables, f: File, hash: Digest, device: Device, s: Settings, now: int, clock: int, key: string)
    requires Placed(t, device, 2) && !Usable(f, hash)
    ensures
      var status := Get(t, device, s, now);
      var c := ConditionFrom(status.response);
      var loaded := LoadOrCreate(t, f, hash, device, s, key, Calm(now, clock));
      loaded.tables == status.tables && loaded.pending.Ok? && loaded.pending.value.HeadersFor() == Headers(key, c.0, c.1)
  {
    hide Placed, Usable, Get, Fetched, WellFormed, LoadOrCreate;
    FetchesCondition(t, device, s, now);
    StatusSettles(t, device, s, now) by { PlacedFacts(t, device); }
    CalmLoad(t, f, hash, device, s, now, clock, key);
  }

  lemma PlacedFacts(t: Tables, device: Device)
    requires Placed(t, device, 2)
    ensures WellFormed(t)
    ensures device.id in t.intents ==> t.intents[device.id].hostname == device.hostname && t.intents[device.id].generation + 2 <= MAX_INT64
    ensures device.id !in t.intents ==> !HostnameInUse(t, device.hostname)
  {
  }

  /** What an accepted write leaves is again a place to write from. */
  lemma LeavesPlace(t: Tables, u: Tables, device: Device, key: string, addresses: seq<Addr>, generation: int, margin: nat)
    requires Placed(t, device, margin + 2) && margin < 1000 && Leaves(t, u, device.id, device.hostname, key, addresses, generation)
    ensures Placed(u, device, margin)
  {
  }

  /** Without a reusable file one GET and one PUT are accepted, with a lease from the
      controller's now; they settle it when the agent's clock has not reached its end. */
  lemma FreshAttempt(t: Tables, f: File, addresses: seq<Addr>, device: Device, s: Settings, now: int, clock: int, keys: (string, string))
    returns (left: Tables)
    requires Placed(t, device, 4) && !Usable(f, Hash(addresses)) && UnusedKey(t, device, keys.0)
    requires Submittable(addresses, s)
    ensures exists g :: Leaves(t, left, device.id, device.hostname, keys.0, Canonical(addresses), g)
    ensures
      var once := Update(t, f, addresses, device, s, now, clock, keys, false);
      var run := Update(t, f, addresses, device, s, now, clock, keys, true);
      if clock < now + s.leaseDuration then
        && run == once && run.result.Ok? && run.puts == 1 && run.file.Absent? && run.tables == left
        && run.result.value.leaseExpiresAt == now + s.leaseDuration
        && Leaves(t, left, device.id, device.hostname, keys.0, Canonical(addresses), run.result.value.generation)
      else
        && once.result == Err(LeaseOver) && once.puts == 1
        && (var second := Update(left, Absent, addresses, device, s, now, clock, (keys.1, keys.1), false);
            run == second.(puts := second.puts + 1))
  {
    hide Placed, Get, Put, Usable, WellFormed, GenerationETag, ParseGenerationETag, ToWire, Canonical, Hash, LoadOrCreate, HostnameInUse, Acceptable, Update, Leaves;
    SubmittableIsNonEmpty(addresses, s);
    PlacedLess(t, device, 4, 2);
    PlacedFacts(t, device);
    var document := ToWire(Canonical(addresses));
    StatusAdmitsWrite(t, device, s, now, keys.0, document);
    FreshLoad(t, f, Hash(addresses), device, s, now, clock, keys.0);
    var loaded := LoadOrCreate(t, f, Hash(addresses), device, s, keys.0, Calm(now, clock));
    var put := Put(loaded.tables, device, loaded.pending.value.HeadersFor(), Document(document), s, now);
    ETagRoundTrip(put.response.etag, put.response.state.generation);
    WireRoundTrip(addresses);
    CanonicalIdempotent(addresses);
    CalmUpdate(t, f, addresses, device, s, now, clock, keys, true);
    CalmUpdate(t, f, addresses, device, s, now, clock, keys, false);
    left := put.tables;
  }

  lemma PlacedLess(t: Tables, device: Device, margin: nat, less: nat)
    requires Placed(t, device, margin) && less <= margin
    ensures Placed(t, device, less)
  {
    hide WellFormed;
  }

  // ----------------------------------------------------- with a kept file

  ghost function PreconditionOf(p: Pending): Precondition
    requires p.ValidPrecondition()
  {
    if p.ifNoneMatch then RequireAbsent() else MatchGeneration(ParseGenerationETag(p.ifMatch).value)
  }

  lemma PendingReadsBack(p: Pending)
    requires p.ValidPrecondition()
    ensures ParseWritePrecondition(p.HeadersFor()) == Ok(PreconditionOf(p)) && PreconditionOf(p).Valid()
  {
  }

  ghost function Resubmission(p: Pending, addresses: seq<Addr>, device: Device, s: Settings, now: int): UpsertRequest
    requires p.ValidPrecondition()
  {
    Request(device, p.HeadersFor(), s, Canonical(addresses), PreconditionOf(p), now)
  }

  lemma PutIsResubmission(t: Tables, p: Pending, addresses: seq<Addr>, device: Device, s: Settings, now: int, fault: Fault)
    requires p.ValidPrecondition() && SafeKey(p.key) && Submittable(addresses, s)
    ensures PutUnder(t, device, p.HeadersFor(), Document(ToWire(Canonical(addresses))), s, now, fault)
         == Answer(UpsertUnder(t, Resubmission(p, addresses, device, s, now), fault))
  {
    PendingReadsBack(p);
    WireRoundTrip(addresses);
    AcceptableIsClean(ToWire(Canonical(addresses)), s.policy);
    CleanParses(ToWire(Canonical(addresses)), |ToWire(Canonical(addresses))|, s.policy);
    hide Upsert, Strikes, Misreported, ParseWritePrecondition, ToWire, Canonical, Acceptable, SafeKey;
  }

  lemma CalmPut(t: Tables, p: Pending, addresses: seq<Addr>, device: Device, s: Settings, now: int)
    requires p.ValidPrecondition() && SafeKey(p.key) && Submittable(addresses, s)
    ensures Put(t, device, p.HeadersFor(), Document(ToWire(Canonical(addresses))), s, now)
         == Answer(Upsert(t, Resubmission(p, addresses, device, s, now)))
  {
    hide PutUnder, Upsert, Answer, Resubmission, Submittable;
    PutIsResubmission(t, p, addresses, device, s, now, NoFault);
  }

  /** The kept key is stored for another body or precondition. */
  ghost predicate BoundElsewhere(t: Tables, r: UpsertRequest) {
    r.RowKey() in t.idempotency && !Bound(t.idempotency[r.RowKey()], r)
  }

  /** How a resubmission can be answered. */
  lemma ResubmissionAnswers(t: Tables, r: UpsertRequest)
    requires r.precondition.Valid()
    requires r.deviceID in t.intents ==> t.intents[r.deviceID].hostname == r.hostname
    requires r.deviceID !in t.intents ==> !HostnameInUse(t, r.hostname)
    ensures
      var o := Upsert(t, r);
      if BoundElsewhere(t, r) then o == Outcome(t, Err(IdempotencyConflict))
      else if r.RowKey() in t.idempotency then
        o.tables == t && o.result.Ok? && o.result.value.intent == Restore(t.idempotency[r.RowKey()].response)
      else
        || o == Outcome(SettleDevice(t, r.deviceID, r.now), Err(PreconditionFailed))
        || (Commits(t, r) && o.result.value.intent == Written(SettleDevice(t, r.deviceID, r.now), r))
  {
  }

  /** The generation a resubmission reports, and its lease if it was new. */
  lemma ReportedState(t: Tables, r: UpsertRequest, device: Device)
    requires Placed(t, device, 2) && r.deviceID == device.id && r.hostname == device.hostname && r.precondition.Valid()
    requires Upsert(t, r).result.Ok?
    ensures 1 <= Upsert(t, r).result.value.intent.generation <= MAX_INT64
    ensures r.RowKey() !in t.idempotency ==> Upsert(t, r).result.value.intent.leaseExpiresAt == r.now + r.leaseDuration
  {
    ResubmissionAnswers(t, r);
    SettleKeeps(t, r.deviceID, r.now);
    var settled := SettleDevice(t, r.deviceID, r.now);
    WrittenRow(settled, r);
    if r.RowKey() in t.idempotency {
      assert ResponseOk(t, r.RowKey());
    }
    hide Upsert, Canonical, IsCanonical;
  }

  /** The reply stored for the file's key has a lease the agent's clock has not reached. */
  ghost predicate LiveReply(t: Tables, device: Device, key: string, clock: int) {
    (device.id, key) in t.idempotency && clock < t.idempotency[(device.id, key)].response.leaseExpiresAt
  }

  /** One PUT of a kept file is done, is refused with 409, or leads to a refresh
      over tables the refresh can use. */
  lemma KeptAttempt(t: Tables, p: Pending, addresses: seq<Addr>, device: Device, s: Settings, now: int, clock: int)
    requires Placed(t, device, 6) && p.ValidPrecondition() && SafeKey(p.key)
    requires Submittable(addresses, s)
    ensures
      var put := Put(t, device, p.HeadersFor(), Document(ToWire(Canonical(addresses))), s, now);
      KeptVerdict(t, Resubmission(p, addresses, device, s, now), device, put, Judge(put.response, clock, true), clock)
  {
    hide Upsert, Put, ParseWritePrecondition, GenerationETag, ParseGenerationETag, ToWire, Canonical, Placed, Submittable, Commits, Judge, KeptVerdict, WellFormed;
    var r := Resubmission(p, addresses, device, s, now);
    PendingReadsBack(p);
    CalmPut(t, p, addresses, device, s, now);
    JudgeResubmission(t, r, device, clock);
  }

  ghost predicate KeptVerdict(t: Tables, r: UpsertRequest, device: Device, put: Handled, v: Verdict, clock: int) {
    var stored := r.RowKey() in t.idempotency;
    if BoundElsewhere(t, r) then v == Stop(AgentError.Refused(409), true) && put.tables == t
    else
      && (v.Done? || v.Again?)
      && (v.Done? ==> v.state.leaseExpiresAt > clock)
      && (if stored then (v.Done? <==> LiveReply(t, device, r.idempotencyKey, clock)) && put.tables == t
          else v.Done? ==> clock < r.now + r.leaseDuration)
      && (v.Done? && stored ==> v.state.generation == t.idempotency[r.RowKey()].response.generation)
      && (v.Done? && !stored ==> Leaves(t, put.tables, device.id, device.hostname, r.idempotencyKey, Canonical(r.addresses), v.state.generation))
      && (v.Again? && !stored && clock < r.now + r.leaseDuration ==> put.tables.idempotency == t.idempotency)
      && Placed(put.tables, device, 4)
      && put.tables.idempotency.Keys <= t.idempotency.Keys + {r.RowKey()}
  }

  lemma JudgeResubmission(t: Tables, r: UpsertRequest, device: Device, clock: int)
    requires Placed(t, device, 6) && r.deviceID == device.id && r.hostname == device.hostname
    requires r.precondition.Valid()
    ensures
      var put := Answer(Upsert(t, r));
      KeptVerdict(t, r, device, put, Judge(put.response, clock, true), clock)
  {
    hide Upsert, ParseGenerationETag, GenerationETag, Placed, Written, WellFormed, SettleDevice, BoundElsewhere, HostnameInUse, Canonical, ToWire, Leaves;
    SettledPlace(t, device, r.now, 6);
    PlacedLess(SettleDevice(t, device.id, r.now), device, 5, 4);
    PlacedLess(t, device, 6, 4);
    PlacedLess(t, device, 6, 2);
    PlacedFacts(t, device);
    ResubmissionAnswers(t, r);
    if Upsert(t, r).result.Ok? {
      AnswerIsSound(t, r, device);
      if Commits(t, r) {
        CommittedLeaves(t, r);
        LeavesPlace(t, Upsert(t, r).tables, device, r.idempotencyKey, Canonical(r.addresses), Upsert(t, r).result.value.intent.generation, 4);
        LeavesKeys(t, Upsert(t, r).tables, device, r.idempotencyKey, Canonical(r.addresses), Upsert(t, r).result.value.intent.generation);
      }
    }
  }

  lemma LeavesKeys(t: Tables, u: Tables, device: Device, key: string, addresses: seq<Addr>, generation: int)
    requires Leaves(t, u, device.id, device.hostname, key, addresses, generation)
    ensures u.idempotency.Keys <= t.idempotency.Keys + {(device.id, key)}
  {
  }

  lemma AnswerIsSound(t: Tables, r: UpsertRequest, device: Device)
    requires Placed(t, device, 2) && r.deviceID == device.id && r.hostname == device.hostname && r.precondition.Valid()
    requires Upsert(t, r).result.Ok?
    ensures
      var reply := Answer(Upsert(t, r)).response;
      && Sound(reply)
      && reply.state.generation == Upsert(t, r).result.value.intent.generation
      && reply.state.leaseExpiresAt == Upsert(t, r).result.value.intent.leaseExpiresAt
      && (r.RowKey() !in t.idempotency ==> reply.state.leaseExpiresAt == r.now + r.leaseDuration)
  {
    ReportedState(t, r, device);
    var g := Upsert(t, r).result.value.intent.generation;
    ETagRoundTrip(GenerationETag(g), g);
    hide Upsert, GenerationETag, ParseGenerationETag, Placed, ToWire, Canonical;
  }

  lemma SettledPlace(t: Tables, device: Device, now: int, margin: nat)
    requires Placed(t, device, margin) && margin > 0
    ensures Placed(SettleDevice(t, device.id, now), device, margin - 1)
    ensures SettleDevice(t, device.id, now).idempotency == t.idempotency
  {
    SettleKeeps(t, device.id, now);
    hide WellFormed, Advances;
  }

  /** The two files that defeat an update: a key the controller refuses to read,
      and a key already stored for something else. */
  ghost predicate Poisoned(t: Tables, f: File, addresses: seq<Addr>, device: Device, s: Settings, now: int) {
    Usable(f, Hash(addresses)) &&
      (!SafeKey(f.pending.key) || BoundElsewhere(t, Resubmission(f.pending, addresses, device, s, now)))
  }

  /** A lease granted now outlasts the agent's clock, or the reply kept for the file does. */
  ghost predicate InTime(t: Tables, f: File, addresses: seq<Addr>, device: Device, s: Settings, now: int, clock: int) {
    || clock < now + s.leaseDuration
    || (Usable(f, Hash(addresses)) && LiveReply(t, device, f.pending.key, clock))
  }

  /** Two keys that are new to the store and to the file. */
  ghost predicate UnusedKeys(t: Tables, f: File, device: Device, keys: (string, string)) {
    && UnusedKey(t, device, keys.0) && UnusedKey(t, device, keys.1) && keys.0 != keys.1
    && (f.Saved? ==> f.pending.key != keys.1)
  }

  /** For a sole writer and reliable exchanges, whatever the two clocks show, one update
      succeeds, with at most two PUTs and a lease after the agent's now, from exactly the
      store and file pairs that are not poisoned and in time. With one shared clock and
      a positive lease every pair is in time. */
  lemma UpdateSucceedsUnlessPoisoned(t: Tables, f: File, addresses: seq<Addr>, device: Device, s: Settings, now: int, clock: int, keys: (string, string))
    requires Placed(t, device, 6) && UnusedKeys(t, f, device, keys) && Submittable(addresses, s)
    ensures
      var run := Update(t, f, addresses, device, s, now, clock, keys, true);
      && run.puts <= 2
      && (run.result.Ok? <==> !Poisoned(t, f, addresses, device, s, now) && InTime(t, f, addresses, device, s, now, clock))
      && (run.result.Ok? ==> run.result.value.leaseExpiresAt > clock && run.file.Absent?)
  {
    hide Placed, Submittable, Update, Hash, Leaves, BoundElsewhere, LiveReply;
    if !Usable(f, Hash(addresses)) {
      PlacedLess(t, device, 6, 4);
      FreshUpdate(t, f, addresses, device, s, now, clock, keys);
    } else if SafeKey(f.pending.key) {
      KeptUpdate(t, f, addresses, device, s, now, clock, keys);
    } else {
      SubmittableIsNonEmpty(addresses, s);
      UnreadableKeySticks(t, f, addresses, device, s, now, clock, keys);
    }
  }

  lemma FreshUpdate(t: Tables, f: File, addresses: seq<Addr>, device: Device, s: Settings, now: int, clock: int, keys: (string, string))
    requires Placed(t, device, 6) && UnusedKeys(t, f, device, keys) && Submittable(addresses, s) && !Usable(f, Hash(addresses))
    ensures
      var run := Update(t, f, addresses, device, s, now, clock, keys, true);
      && run.puts <= 2 && (run.result.Ok? <==> clock < now + s.leaseDuration)
      && (run.result.Ok? ==> run.result.value.leaseExpiresAt > clock && run.file.Absent?)
  {
    hide Placed, Submittable, Update, Hash, Leaves, SafeKey, Canonical;
    PlacedLess(t, device, 6, 4);
    var left := FreshAttempt(t, f, addresses, device, s, now, clock, keys);
    if !(clock < now + s.leaseDuration) {
      var g :| Leaves(t, left, device.id, device.hostname, keys.0, Canonical(addresses), g);
      LeavesPlace(t, left, device, keys.0, Canonical(addresses), g, 4);
      LeavesKeys(t, left, device, keys.0, Canonical(addresses), g);
      var _ := FreshAttempt(left, Absent, addresses, device, s, now, clock, (keys.1, keys.1));
    }
  }

  lemma KeptUpdate(t: Tables, f: File, addresses: seq<Addr>, device: Device, s: Settings, now: int, clock: int, keys: (string, string))
    requires Placed(t, device, 6) && UnusedKeys(t, f, device, keys) && Submittable(addresses, s)
    requires Usable(f, Hash(addresses)) && SafeKey(f.pending.key)
    ensures
      var run := Update(t, f, addresses, device, s, now, clock, keys, true);
      && run.puts <= 2
      && (run.result.Ok? <==> && !BoundElsewhere(t, Resubmission(f.pending, addresses, device, s, now))
                              && (clock < now + s.leaseDuration || LiveReply(t, device, f.pending.key, clock)))
      && (run.result.Ok? ==> run.result.value.leaseExpiresAt > clock && run.file.Absent?)
  {
    hide Placed, Submittable, Put, BoundElsewhere, Hash, Judge, SafeKey, Canonical, ToWire, Update, LoadOrCreate, Leaves;
    SubmittableIsNonEmpty(addresses, s);
    CalmLoad(t, f, Hash(addresses), device, s, now, clock, keys.0);
    CalmUpdate(t, f, addresses, device, s, now, clock, keys, true);
    KeptAttempt(t, f.pending, addresses, device, s, now, clock);
    var put := Put(t, device, f.pending.HeadersFor(), Document(ToWire(Canonical(addresses))), s, now);
    if Judge(put.response, clock, true).Again? {
      var _ := FreshAttempt(put.tables, Absent, addresses, device, s, now, clock, (keys.1, keys.1));
    }
  }

  /** The kept reply answers the update, and nothing is written. */
  ghost predicate Replays(t: Tables, f: File, addresses: seq<Addr>, device: Device, clock: int) {
    Usable(f, Hash(addresses)) && LiveReply(t, device, f.pending.key, clock)
  }

  /** The row holds this address set, at this generation. */
  ghost predicate Holds(t: Tables, device: Device, addresses: seq<Addr>, generation: int) {
    && device.id in t.intents && t.intents[device.id].hostname == device.hostname
    && t.intents[device.id].addresses == Canonical(addresses) && t.intents[device.id].generation == generation
  }

  lemma LeavesHolds(t: Tables, u: Tables, device: Device, key: string, addresses: seq<Addr>, generation: int)
    requires Leaves(t, u, device.id, device.hostname, key, Canonical(addresses), generation)
    ensures Holds(u, device, addresses, generation)
  {
  }

  /** What a successful update leaves: the row holds the addresses at the reported
      generation, unless the answer was only the reply kept for the file's key. */
  lemma UpdateWrites(t: Tables, f: File, addresses: seq<Addr>, device: Device, s: Settings, now: int, clock: int, keys: (string, string))
    requires Placed(t, device, 6) && UnusedKeys(t, f, device, keys) && Submittable(addresses, s)
    requires !Poisoned(t, f, addresses, device, s, now) && InTime(t, f, addresses, device, s, now, clock)
    ensures
      var run := Update(t, f, addresses, device, s, now, clock, keys, true);
      && run.result.Ok?
      && if Replays(t, f, addresses, device, clock) then
           run.tables == t && run.result.value.generation == t.idempotency[(device.id, f.pending.key)].response.generation
         else Holds(run.tables, device, addresses, run.result.value.generation)
  {
    hide Placed, Submittable, Update, Hash, Leaves, BoundElsewhere, SafeKey, Canonical, Put, Judge, ToWire, LoadOrCreate, Holds;
    if !Usable(f, Hash(addresses)) {
      PlacedLess(t, device, 6, 4);
      var left := FreshAttempt(t, f, addresses, device, s, now, clock, keys);
      LeavesHolds(t, left, device, keys.0, addresses, Update(t, f, addresses, device, s, now, clock, keys, true).result.value.generation);
    } else {
      KeptWrites(t, f, addresses, device, s, now, clock, keys);
    }
  }

  lemma KeptWrites(t: Tables, f: File, addresses: seq<Addr>, device: Device, s: Settings, now: int, clock: int, keys: (string, string))
    requires Placed(t, device, 6) && UnusedKeys(t, f, device, keys) && Submittable(addresses, s)
    requires Usable(f, Hash(addresses)) && SafeKey(f.pending.key) && !BoundElsewhere(t, Resubmission(f.pending, addresses, device, s, now))
    requires clock < now + s.leaseDuration || LiveReply(t, device, f.pending.key, clock)
    ensures
      var run := Update(t, f, addresses, device, s, now, clock, keys, true);
      && run.result.Ok?
      && if LiveReply(t, device, f.pending.key, clock) then
           run.tables == t && run.result.value.generation == t.idempotency[(device.id, f.pending.key)].response.generation
         else Holds(run.tables, device, addresses, run.result.value.generation)
  {
    hide Placed, Submittable, Put, BoundElsewhere, Hash, Judge, SafeKey, Canonical, ToWire, Update, LoadOrCreate, Leaves, Holds;
    SubmittableIsNonEmpty(addresses, s);
    CalmLoad(t, f, Hash(addresses), device, s, now, clock, keys.0);
    CalmUpdate(t, f, addresses, device, s, now, clock, keys, true);
    KeptAttempt(t, f.pending, addresses, device, s, now, clock);
    CanonicalIdempotent(addresses);
    var put := Put(t, device, f.pending.HeadersFor(), Document(ToWire(Canonical(addresses))), s, now);
    var v := Judge(put.response, clock, true);
    if v.Again? {
      var left := FreshAttempt(put.tables, Absent, addresses, device, s, now, clock, (keys.1, keys.1));
      LeavesHolds(put.tables, left, device, keys.1, addresses,
                  Update(put.tables, Absent, addresses, device, s, now, clock, (keys.1, keys.1), false).result.value.generation);
    } else if (device.id, f.pending.key) !in t.idempotency {
      LeavesHolds(t, put.tables, device, f.pending.key, addresses, v.state.generation);
    }
  }

  /** A conflict clears the file, so the update after it succeeds. */
  lemma ConflictIsTransient(t: Tables, f: File, addresses: seq<Addr>, device: Device, s: Settings, now: int, clock: int, keys: (string, string),
                            later: int, again: (string, string))
    requires Placed(t, device, 6) && Submittable(addresses, s) && s.leaseDuration > 0
    requires Poisoned(t, f, addresses, device, s, now) && SafeKey(f.pending.key)
    requires UnusedKey(t, device, again.0)
    ensures
      var run := Update(t, f, addresses, device, s, now, clock, keys, true);
      && run.tables == t && run.file.Absent?
      && Update(run.tables, run.file, addresses, device, s, later, later, again, true).result.Ok?
  {
    hide Placed, Submittable, Put, Upsert, Hash, Judge, Update, LoadOrCreate, BoundElsewhere, Leaves, Canonical, ToWire;
    SubmittableIsNonEmpty(addresses, s);
    CalmLoad(t, f, Hash(addresses), device, s, now, clock, keys.0);
    CalmUpdate(t, f, addresses, device, s, now, clock, keys, true);
    KeptAttempt(t, f.pending, addresses, device, s, now, clock);
    PlacedLess(t, device, 6, 4);
    var _ := FreshAttempt(t, Absent, addresses, device, s, later, later, again);
  }

  /** A key the controller cannot read keeps the agent stuck on the same file. */
  lemma UnreadableKeySticks(t: Tables, f: File, addresses: seq<Addr>, device: Device, s: Settings, now: int, clock: int, keys: (string, string))
    requires addresses != [] && Usable(f, Hash(addresses)) && !SafeKey(f.pending.key)
    ensures Update(t, f, addresses, device, s, now, clock, keys, true) == UpdateRun(t, f, Err(AgentError.Refused(400)), 1)
  {
  }
}
