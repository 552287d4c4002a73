/** How an update can be acknowledged by a reply that is no longer what the row holds. */
module StaleReplays {
  import opened Results
  import opened Addresses
  import opened ETag
  import opened DesiredState
  import opened StoreRuns
  import opened Controller
  import opened Agent
  import opened SelfStabilising
  import opened AgentRuns
  import opened AgentTruth
  import opened AgentSteps

  /** The agent is at rest, its device may write, and its next keys are new. */
  ghost predicate ReadyToUpdate(w: Site, addresses: seq<Addr>, keys: (string, string)) {
    && Resting(w.process) && NewKeys(w, keys) && keys.0 != keys.1
    && Placed(w.tables, w.device, 6) && Submittable(addresses, w.settings)
  }

  /** The kept file's key already has a live reply, for addresses the row no longer holds. */
  ghost predicate StaleReplay(w: Site, addresses: seq<Addr>, clock: int) {
    && Replays(w.tables, w.file, addresses, w.device, clock)
    && w.device.id in w.tables.intents && w.tables.intents[w.device.id].addresses != Canonical(addresses)
  }

  // -------------------------------------------------- a request left on the wire

  /** The condition the status reply names. */
  ghost function ConditionNow(w: Site): (string, bool) {
    if w.device.id in w.tables.intents then (GenerationETag(w.tables.intents[w.device.id].generation), false) else ("", true)
  }

  ghost function Submission(w: Site, addresses: seq<Addr>, key: string): Pending {
    Pending(Hash(addresses), key, ConditionNow(w).0, ConditionNow(w).1)
  }

  ghost predicate LiveRow(w: Site, now: int) {
    w.device.id in w.tables.intents ==>
      && !Lapsed(w.tables.intents[w.device.id], now) && 1 <= w.tables.intents[w.device.id].generation <= MAX_INT64
  }

  /** The agent at rest, the submission of these addresses under this key on the wire. */
  ghost function OnTheWire(w: Site, addresses: seq<Addr>, key: string): Site {
    var p := Submission(w, addresses, key);
    w.(file := Saved(p), process := Failed(NoReply), sent := w.sent + {Message(p, addresses)})
  }

  lemma StatusNames(w: Site, now: int)
    requires LiveRow(w, now)
    ensures Fetched(RowReply(w, true)) == Ok(ConditionNow(w))
  {
    hide GenerationETag, ParseGenerationETag;
    if w.device.id in w.tables.intents {
      var g := w.tables.intents[w.device.id].generation;
      ETagRoundTrip(GenerationETag(g), g);
    }
  }

  /** An update whose reply is lost, started when the file is of no use. */
  lemma SubmitsAndForgets(w: Site, addresses: seq<Addr>, now: int, key: string) returns (events: seq<Event>)
    requires Resting(w.process) && addresses != [] && !Usable(w.file, Hash(addresses)) && FreshKey(w, key) && LiveRow(w, now)
    ensures Leads(w, events, 1, OnTheWire(w, addresses, key)) && Alone(events)
  {
    hide Leads, Hash, SafeKey, Usable, Fetched, StatusReply, ConditionNow;
    StatusNames(w, now);
    One(w, Start(addresses));
    events := [Start(addresses)];
    var w2 := Extend(w, events, 0, Next(w, Start(addresses)), Load(true));
    events := events + [Load(true)];
    var w3 := Extend(w, events, 0, w2, Look(now, true));
    events := events + [Look(now, true)];
    var w4 := Extend(w, events, 0, w3, Save(key, true));
    events := events + [Save(key, true)];
    var w5 := Extend(w, events, 0, w4, Submit);
    events := events + [Submit];
    var w6 := Extend(w, events, 1, w5, LoseReply);
    events := events + [LoseReply];
  }

  // ------------------------------------------------------------- on the tables

  /** The first write of a device. */
  lemma FirstWrite(t: Tables, r: UpsertRequest)
    requires r.precondition == RequireAbsent() && r.RowKey() !in t.idempotency
    requires r.deviceID !in t.intents && !HostnameInUse(t, r.hostname)
    ensures
      var u := Upsert(t, r).tables;
      && r.deviceID in u.intents && u.intents[r.deviceID] == Written(t, r) && Written(t, r).generation == 1
      && u.idempotency.Keys == t.idempotency.Keys + {r.RowKey()}
  {
    CommitsIffAccepts(t, r);
    UpsertShape(t, r);
    hide Upsert, Canonical;
  }

  /** A live row is renewed, and an older request under the same condition replaces it. */
  lemma Overtaken(t: Tables, renewal: UpsertRequest, delayed: UpsertRequest)
    requires renewal.deviceID == delayed.deviceID && renewal.hostname == delayed.hostname && renewal.now == delayed.now
    requires renewal.deviceID in t.intents
    requires
      var row := t.intents[renewal.deviceID];
      && row.hostname == renewal.hostname && row.leaseExpiresAt > renewal.now && row.addresses == Canonical(renewal.addresses)
      && renewal.precondition == delayed.precondition == MatchGeneration(row.generation) && row.generation >= 1
    requires renewal.leaseDuration > 0 && renewal.RowKey() != delayed.RowKey()
    requires renewal.RowKey() !in t.idempotency && delayed.RowKey() !in t.idempotency
    requires Canonical(renewal.addresses) != Canonical(delayed.addresses)
    ensures
      var u := Upsert(Upsert(t, renewal).tables, delayed).tables;
      && renewal.deviceID in u.intents && u.intents[renewal.deviceID].hostname == renewal.hostname
      && u.intents[renewal.deviceID].addresses == Canonical(delayed.addresses)
      && u.intents[renewal.deviceID].generation == t.intents[renewal.deviceID].generation + 1
      && u.idempotency.Keys == t.idempotency.Keys + {renewal.RowKey(), delayed.RowKey()}
      && u.idempotency[renewal.RowKey()].response.leaseExpiresAt == renewal.now + renewal.leaseDuration
  {
    CanonicalIdempotent(renewal.addresses);
    CommitsIffAccepts(t, renewal);
    UpsertShape(t, renewal);
    var mid := Upsert(t, renewal).tables;
    CommitsIffAccepts(mid, delayed);
    UpsertShape(mid, delayed);
    hide Upsert, Canonical;
  }

  // ------------------------------------------------------------------- the run

  /** The device's first row, just written and still live. */
  ghost predicate FirstRow(w: Site, addresses: seq<Addr>, now: int) {
    && w.device.id in w.tables.intents
    && var row := w.tables.intents[w.device.id];
    && row.hostname == w.device.hostname && row.generation == 1
    && row.addresses == Canonical(addresses) && row.leaseExpiresAt > now
  }

  /** Which keys have been used. */
  ghost predicate Used(w: Site, keys: set<string>) {
    && (forall m :: m in w.sent ==> m.pending.key in keys)
    && (forall key :: (w.device.id, key) in w.tables.idempotency ==> key in keys)
  }

  ghost predicate ThreeKeys(keys: seq<string>) {
    && |keys| == 3 && keys[0] != keys[1] && keys[1] != keys[2] && keys[0] != keys[2]
    && SafeKey(keys[0]) && SafeKey(keys[1]) && SafeKey(keys[2])
  }

  /** What the submission names: no row, or the row's generation. */
  lemma SubmissionNames(w: Site, addresses: seq<Addr>, key: string, now: int)
    requires LiveRow(w, now)
    ensures
      var p := Submission(w, addresses, key);
      && p.ValidPrecondition()
      && PreconditionOf(p) == if w.device.id in w.tables.intents then MatchGeneration(w.tables.intents[w.device.id].generation) else RequireAbsent()
  {
    hide GenerationETag, ParseGenerationETag, Hash;
    if w.device.id in w.tables.intents {
      var g := w.tables.intents[w.device.id].generation;
      ETagRoundTrip(GenerationETag(g), g);
      EmptyIsNoETag();
    }
  }

  lemma EmptyIsNoETag()
    ensures ParseGenerationETag("").Err?
  {
  }

  /** A request on the wire arrives. */
  lemma Arrives(w: Site, events: seq<Event>, puts: nat, w1: Site, m: Message, now: int) returns (longer: seq<Event>, w2: Site)
    requires Leads(w, events, puts, w1) && Alone(events)
    requires m in w1.sent && m.pending.ValidPrecondition() && SafeKey(m.pending.key) && Submittable(m.addresses, w1.settings)
    ensures Leads(w, longer, puts, w2) && Alone(longer) && Meddled(w1, w2, Upsert(w1.tables, RequestOf(w1, m, now)).tables)
  {
    hide Leads, Allowed, Next, Submittable, SafeKey, Meddled;
    Delivers(w1, m, now);
    w2 := Extend(w, events, puts, w1, Deliver(m, now, NoFault));
    longer := events + [Deliver(m, now, NoFault)];
  }

  /** A new device writes its first row, and never hears of it. */
  lemma FirstRowWritten(w: Site, addresses: seq<Addr>, now: int, key: string) returns (events: seq<Event>, w2: Site)
    requires Initial(w) && w.device.id !in w.tables.intents && !HostnameInUse(w.tables, w.device.hostname)
    requires Submittable(addresses, w.settings) && SafeKey(key) && w.settings.leaseDuration > 0
    ensures Leads(w, events, 1, w2) && Alone(events)
    ensures w2.device == w.device && w2.settings == w.settings && Resting(w2.process)
    ensures FirstRow(w2, addresses, now) && Used(w2, {key}) && w2.file.Saved? && w2.file.pending.payloadHash == Hash(addresses)
  {
    hide Leads, Submittable, SafeKey, Upsert, Hash, TablesOk, HostnameInUse, ConditionNow;
    SubmittableIsNonEmpty(addresses, w.settings);
    SubmissionNames(w, addresses, key, now);
    var m := Message(Submission(w, addresses, key), addresses);
    events := SubmitsAndForgets(w, addresses, now, key);
    var w1 := OnTheWire(w, addresses, key);
    events, w2 := Arrives(w, events, 1, w1, m, now);
    FirstWrite(w.tables, RequestOf(w1, m, now));
    CanonicalIdempotent(addresses);
  }

  /** So there is a run to a stale replay: a device writes x, sends y and hears nothing,
      renews x and hears nothing, and then its request for y arrives. The file is for x, its key
      is answered with x, and the row holds y. */
  lemma StaleReplayHappens(w: Site, x: seq<Addr>, y: seq<Addr>, now: int, keys: seq<string>) returns (events: seq<Event>)
    requires Initial(w) && w.device.id !in w.tables.intents && !HostnameInUse(w.tables, w.device.hostname)
    requires Submittable(x, w.settings) && Submittable(y, w.settings) && Canonical(x) != Canonical(y)
    requires w.settings.leaseDuration > 0
    requires ThreeKeys(keys)
    ensures Alone(events)
    ensures
      var end := Play(w, events);
      StaleReplay(end, x, now) && Resting(end.process) && Placed(end.tables, end.device, 6)
  {
    hide Leads, Submittable, SafeKey, Initial, HostnameInUse, Play, StaleReplay, Placed, FirstRow, Inv;
    var first, w2 := FirstRowWritten(w, x, now, keys[0]);
    var rest, end := Overtakes(w2, x, y, now, keys);
    Then(w, first, 1, w2, rest, 2, end);
    events := first + rest;
    LeadsIsPlay(w, events, 3, end);
    InitialInv(w);
    PlayKeeps(w, events);
    PlacedAgain(end);
  }

  lemma Overtakes(w: Site, x: seq<Addr>, y: seq<Addr>, now: int, keys: seq<string>) returns (events: seq<Event>, end: Site)
    requires Resting(w.process) && w.file.Saved? && w.file.pending.payloadHash == Hash(x)
    requires Submittable(x, w.settings) && Submittable(y, w.settings) && Canonical(x) != Canonical(y)
    requires w.settings.leaseDuration > 0
    requires ThreeKeys(keys)
    requires FirstRow(w, x, now) && Used(w, {keys[0]})
    ensures Leads(w, events, 2, end) && Alone(events) && Resting(end.process)
    ensures StaleReplay(end, x, now)
    ensures
      && end.device == w.device && end.device.id in end.tables.intents
      && end.tables.intents[end.device.id].hostname == w.device.hostname && end.tables.intents[end.device.id].generation == 2
  {
    hide Leads, Submittable, SafeKey, Upsert, HostnameInUse, ConditionNow, Canonical;
    SubmittableIsNonEmpty(x, w.settings);
    SubmittableIsNonEmpty(y, w.settings);
    CanonicalIdempotent(x);
    CanonicalIdempotent(y);
    SafeIsNonEmpty(keys[2]);
    SubmissionNames(w, y, keys[1], now);
    var delayed := Message(Submission(w, y, keys[1]), y);
    events := SubmitsAndForgets(w, y, now, keys[1]);
    var w1 := OnTheWire(w, y, keys[1]);
    SubmissionNames(w1, x, keys[2], now);
    var renewal := Message(Submission(w1, x, keys[2]), x);
    var more := SubmitsAndForgets(w1, x, now, keys[2]);
    var w2 := OnTheWire(w1, x, keys[2]);
    Then(w, events, 1, w1, more, 1, w2);
    var w3;
    events, w3 := Arrives(w, events + more, 2, w2, renewal, now);
    events, end := Arrives(w, events, 2, w3, delayed, now);
    Overtaken(w2.tables, RequestOf(w2, renewal, now), RequestOf(w2, delayed, now));
  }

  lemma SafeIsNonEmpty(key: string)
    requires SafeKey(key)
    ensures key != ""
  {
  }

  lemma PlacedAgain(w: Site)
    requires Inv(w) && w.device.id in w.tables.intents
    requires w.tables.intents[w.device.id].hostname == w.device.hostname && w.tables.intents[w.device.id].generation == 2
    ensures Placed(w.tables, w.device, 6)
  {
  }
}
