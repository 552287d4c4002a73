/** How one update of the agent ends, by the replies it gets and what its disk does. */
module AgentLaws {
  import opened Results
  import opened Addresses
  import opened ETag
  import opened Wire
  import opened DesiredState
  import opened StoreRuns
  import opened Controller
  import opened ControllerLaws
  import opened Agent
  import opened SelfStabilising

  /** The text is the printed ETag of this generation, a positive int64. */
  predicate IsETagOf(etag: string, generation: int) {
    1 <= generation <= 9_223_372_036_854_775_807 && etag == Printed(generation)
  }

  lemma ETagExactly(etag: string, generation: int)
    ensures ParseGenerationETag(etag) == Ok(generation) <==> IsETagOf(etag, generation)
  {
    ETagRoundTrip(etag, generation);
  }

  // -------------------------------------------------------- the condition

  /** A 404 asks for creation, a 200 for the generation that ETag and body agree on;
      every other reply, and a lost one, ends the update. */
  lemma FetchReads(t: Tables, device: Device, s: Settings, trip: StatusTrip)
    ensures
      var reply := GetUnder(t, device, s, trip.now, trip.turn).response;
      var fetched := FetchUnder(t, device, s, trip);
      && fetched.0 == (if trip.sent then GetUnder(t, device, s, trip.now, trip.turn).tables else t)
      && fetched.1 ==
           if !trip.sent || !trip.answered then Err(NoReply)
           else if reply.Failure? then (if reply.status == 404 then Ok(("", true)) else Err(StatusFailed(reply.status)))
           else if reply.status != 200 then Err(StatusFailed(reply.status))
           else if IsETagOf(reply.etag, reply.state.generation) then Ok((reply.etag, false))
           else Err(BadStatusETag)
  {
    var reply := GetUnder(t, device, s, trip.now, trip.turn).response;
    hide GetUnder, ParseGenerationETag, IsETagOf;
    if reply.Success? {
      ETagExactly(reply.etag, reply.state.generation);
    }
  }

  /** The file holds a submission of this set with a key and exactly one condition. */
  ghost predicate Reusable(f: File, addresses: seq<Addr>) {
    && f.Saved? && f.pending.payloadHash.canonical == Canonical(addresses) && f.pending.key != ""
    && if f.pending.ifNoneMatch then f.pending.ifMatch == "" else exists g :: IsETagOf(f.pending.ifMatch, g)
  }

  lemma ReusableExactly(f: File, addresses: seq<Addr>)
    ensures Usable(f, Hash(addresses)) <==> Reusable(f, addresses)
  {
    if f.Saved? {
      var parsed := ParseGenerationETag(f.pending.ifMatch);
      forall g: int ensures parsed == Ok(g) <==> IsETagOf(f.pending.ifMatch, g) {
        ETagExactly(f.pending.ifMatch, g);
      }
      if !f.pending.ifNoneMatch && parsed.Ok? {
        assert IsETagOf(f.pending.ifMatch, parsed.value);
      }
      hide ParseGenerationETag, IsETagOf, Canonical;
      EmptyIsNone();
    }
  }

  lemma EmptyIsNone()
    ensures forall g :: !IsETagOf("", g)
  {
  }

  /** A reusable file is reused as it is; otherwise a new submission is on file before it
      is handed out, under the new key and the fetched condition. Whatever fails on the way
      leaves the old file. */
  lemma LoadsOrCreates(t: Tables, f: File, addresses: seq<Addr>, device: Device, s: Settings, key: string, w: Weather)
    ensures
      var loaded := LoadOrCreate(t, f, Hash(addresses), device, s, key, w);
      var fetched := FetchUnder(Run(t, w.beforeStatus), device, s, w.status);
      if !w.readable then loaded == Loaded(t, f, Err(FileUnreadable))
      else if Reusable(f, addresses) then loaded == Loaded(t, f, Ok(f.pending))
      else
        && loaded.tables == fetched.0
        && (fetched.1.Err? ==> loaded.pending == Err(fetched.1.error) && loaded.file == f)
        && (fetched.1.Ok? && !w.written ==> loaded.pending == Err(FileUnwritable) && loaded.file == f)
        && (fetched.1.Ok? && w.written ==>
              && loaded.pending.Ok? && loaded.file == Saved(loaded.pending.value)
              && loaded.pending.value.payloadHash.canonical == Canonical(addresses) && loaded.pending.value.key == key
              && (loaded.pending.value.ifMatch, loaded.pending.value.ifNoneMatch) == fetched.1.value)
  {
    ReusableExactly(f, addresses);
    hide Usable, Reusable, FetchUnder, Canonical, Run;
  }

  // ------------------------------------------------------------ the outcome

  /** The reply settles the submission: accepted with a matching ETag, or refused for good. */
  ghost predicate Settles(reply: Response) {
    if reply.Success? then reply.status == 202 && IsETagOf(reply.etag, reply.state.generation)
    else reply.status in {409, 412}
  }

  /** The attempt's own PUT and its reply. */
  ghost function PutReply(t: Tables, f: File, addresses: seq<Addr>, device: Device, s: Settings, key: string, w: Weather): Handled
    requires LoadOrCreate(t, f, Hash(addresses), device, s, key, w).pending.Ok?
  {
    var loaded := LoadOrCreate(t, f, Hash(addresses), device, s, key, w);
    PutUnder(Run(loaded.tables, w.beforePut), device, loaded.pending.value.HeadersFor(), Document(ToWire(Canonical(addresses))), s, w.put.now, w.put.fault)
  }

  /** How an attempt that is not repeated ends on this reply. */
  ghost function EndOn(reply: Response, clock: int, cleared: bool): Result<State, AgentError> {
    if reply.Failure? then (if reply.status == 412 && !cleared then Err(FileStuck) else Err(AgentError.Refused(reply.status)))
    else if reply.status != 202 then Err(AgentError.Refused(reply.status))
    else if !IsETagOf(reply.etag, reply.state.generation) then Err(BadETag)
    else if !cleared then Err(FileStuck)
    else if clock < reply.state.leaseExpiresAt then Ok(reply.state)
    else Err(LeaseOver)
  }

  /** A 412, or an acknowledgement whose lease is over. */
  ghost predicate Stale(reply: Response, clock: int) {
    if reply.Failure? then reply.status == 412 else Settles(reply) && reply.state.leaseExpiresAt <= clock
  }

  lemma JudgedOnce(reply: Response, clock: int, f: File, cleared: bool)
    requires reply.Success? ==> reply.status in {200, 202}
    requires reply.Failure? ==> reply.status != 202
    ensures
      var v := Judge(reply, clock, false);
      && !v.Again? && Ended(v, cleared) == EndOn(reply, clock, cleared)
      && FileAfter(f, v, cleared) == if cleared && Settles(reply) then Absent else f
  {
    if reply.Success? {
      ETagExactly(reply.etag, reply.state.generation);
    }
    hide ParseGenerationETag, IsETagOf;
  }

  lemma JudgedTwice(reply: Response, clock: int, f: File, cleared: bool)
    requires reply.Success? ==> reply.status in {200, 202}
    requires reply.Failure? ==> reply.status != 202
    ensures
      var v, last := Judge(reply, clock, true), Judge(reply, clock, false);
      && (v.Again? <==> Stale(reply, clock)) && !last.Again?
      && (!(v.Again? && cleared) ==> FileAfter(f, v, cleared) == FileAfter(f, last, cleared) && Ended(v, cleared) == Ended(last, cleared))
  {
    if reply.Success? {
      ETagExactly(reply.etag, reply.state.generation);
    }
    hide ParseGenerationETag, IsETagOf;
  }

  /** A PUT is acknowledged with 202 and with nothing else. */
  lemma ReplyKind(t: Tables, device: Device, h: Headers, body: Body, s: Settings, now: int, fault: Fault)
    ensures
      var reply := PutUnder(t, device, h, body, s, now, fault).response;
      reply.Success? <==> reply.status == 202
  {
    hide UpsertUnder, Acceptable, SafeKey, Canonical, StateOf, GenerationETag, ParseGenerationETag, TrimSpace;
  }

  /** An attempt that is not repeated keeps its file exactly until a reply settles it and
      the file can be removed; a reply that is lost or says anything else keeps it. */
  lemma FileOutlives(t: Tables, f: File, addresses: seq<Addr>, device: Device, s: Settings, keys: (string, string), weather: (Weather, Weather))
    requires addresses != [] && LoadOrCreate(t, f, Hash(addresses), device, s, keys.0, weather.0).pending.Ok?
    ensures
      var w := weather.0;
      var loaded := LoadOrCreate(t, f, Hash(addresses), device, s, keys.0, w);
      var reply := PutReply(t, f, addresses, device, s, keys.0, w).response;
      var run := UpdateUnder(t, f, addresses, device, s, keys, weather, false);
      && loaded.file == Saved(loaded.pending.value) && run.puts == 1
      && run.file == (if w.put.sent && w.put.answered && w.cleared && Settles(reply) then Absent else loaded.file)
      && run.result == if w.put.sent && w.put.answered then EndOn(reply, w.clock, w.cleared) else Err(NoReply)
  {
    hide PutUnder, LoadOrCreate, Hash, Canonical, ToWire, Run, Judge, FileAfter, Ended, Settles, EndOn;
    var w := weather.0;
    var loaded := LoadOrCreate(t, f, Hash(addresses), device, s, keys.0, w);
    LoadedIsSaved(t, f, Hash(addresses), device, s, keys.0, w);
    ReplyKind(Run(loaded.tables, w.beforePut), device, loaded.pending.value.HeadersFor(), Document(ToWire(Canonical(addresses))), s, w.put.now, w.put.fault);
    JudgedOnce(PutReply(t, f, addresses, device, s, keys.0, w).response, w.clock, loaded.file, w.cleared);
  }

  lemma LoadedIsSaved(t: Tables, f: File, hash: Digest, device: Device, s: Settings, key: string, w: Weather)
    ensures
      var loaded := LoadOrCreate(t, f, hash, device, s, key, w);
      loaded.pending.Ok? ==> loaded.file == Saved(loaded.pending.value)
  {
    hide FetchUnder, Run;
  }

  /** The first attempt ends the same way, unless its file is cleared after a 412 or an
      acknowledgement whose lease is over: then a second one follows, with a new key. */
  lemma RepeatsOnce(t: Tables, f: File, addresses: seq<Addr>, device: Device, s: Settings, keys: (string, string), weather: (Weather, Weather))
    requires addresses != [] && LoadOrCreate(t, f, Hash(addresses), device, s, keys.0, weather.0).pending.Ok?
    ensures
      var w := weather.0;
      var sent := PutReply(t, f, addresses, device, s, keys.0, w);
      var run := UpdateUnder(t, f, addresses, device, s, keys, weather, true);
      if w.put.sent && w.put.answered && w.cleared && Stale(sent.response, w.clock) then
        var second := UpdateUnder(Run(sent.tables, w.beforeReply), Absent, addresses, device, s, (keys.1, keys.1), (weather.1, weather.1), false);
        run == second.(puts := second.puts + 1)
      else run == UpdateUnder(t, f, addresses, device, s, keys, weather, false)
  {
    hide PutUnder, LoadOrCreate, Hash, Canonical, ToWire, Run, Judge, FileAfter, Ended, Stale;
    var w := weather.0;
    var loaded := LoadOrCreate(t, f, Hash(addresses), device, s, keys.0, w);
    ReplyKind(Run(loaded.tables, w.beforePut), device, loaded.pending.value.HeadersFor(), Document(ToWire(Canonical(addresses))), s, w.put.now, w.put.fault);
    JudgedTwice(PutReply(t, f, addresses, device, s, keys.0, w).response, w.clock, loaded.file, w.cleared);
  }

  /** Without addresses or a submission nothing is sent. */
  lemma NothingToSend(t: Tables, f: File, addresses: seq<Addr>, device: Device, s: Settings, keys: (string, string), weather: (Weather, Weather), refresh: bool)
    requires addresses == [] || LoadOrCreate(t, f, Hash(addresses), device, s, keys.0, weather.0).pending.Err?
    ensures
      var loaded := LoadOrCreate(t, f, Hash(addresses), device, s, keys.0, weather.0);
      var run := UpdateUnder(t, f, addresses, device, s, keys, weather, refresh);
      && run.puts == 0 && run.file == f
      && (addresses == [] ==> run.tables == t && run.result == Err(NoAddressesFound))
      && (addresses != [] ==> run.tables == loaded.tables && run.result == Err(loaded.pending.error))
  {
    hide FetchUnder, Usable, Hash, Run;
  }

  // ---------------------------------------------- an effect without an answer

  /** The file holds a submission of these addresses that can be sent again. */
  ghost predicate Resendable(f: File, addresses: seq<Addr>, s: Settings) {
    Usable(f, Hash(addresses)) && SafeKey(f.pending.key) && Submittable(addresses, s)
  }

  /** The write took effect, and the agent does not learn of it: the reply is lost, or the
      commit was reported as failed. */
  ghost predicate TakesEffectUnseen(t: Tables, p: Pending, addresses: seq<Addr>, device: Device, s: Settings, w: Weather)
    requires p.ValidPrecondition()
  {
    && w.put.sent && Accepts(Run(t, w.beforePut), Resubmission(p, addresses, device, s, w.put.now))
    && (w.put.fault.CommitUnsure? || (w.put.fault.NoFault? && !w.put.answered))
  }

  /** Such an attempt keeps its file, whether or not it would have been repeated. */
  lemma UnseenIsKept(t: Tables, f: File, addresses: seq<Addr>, device: Device, s: Settings, keys: (string, string), weather: (Weather, Weather), refresh: bool)
    requires
      var loaded := LoadOrCreate(t, f, Hash(addresses), device, s, keys.0, weather.0);
      && loaded.pending.Ok? && Resendable(loaded.file, addresses, s)
      && TakesEffectUnseen(loaded.tables, loaded.pending.value, addresses, device, s, weather.0)
    ensures
      var w := weather.0;
      var loaded := LoadOrCreate(t, f, Hash(addresses), device, s, keys.0, w);
      var r := Resubmission(loaded.pending.value, addresses, device, s, w.put.now);
      var run := UpdateUnder(t, f, addresses, device, s, keys, weather, refresh);
      && run == UpdateRun(Run(Upsert(Run(loaded.tables, w.beforePut), r).tables, w.beforeReply), loaded.file,
                          Err(if w.put.answered then AgentError.Refused(500) else NoReply), 1)
  {
    hide LoadOrCreate, PutUnder, Hash, Run, Upsert, Submittable, SafeKey, Canonical, ToWire;
    var w := weather.0;
    var loaded := LoadOrCreate(t, f, Hash(addresses), device, s, keys.0, w);
    LoadedIsSaved(t, f, Hash(addresses), device, s, keys.0, w);
    SubmittableIsNonEmpty(addresses, s);
    var p := loaded.pending.value;
    var u := Run(loaded.tables, w.beforePut);
    PutIsResubmission(u, p, addresses, device, s, w.put.now, w.put.fault);
    CommitsIffAccepts(u, Resubmission(p, addresses, device, s, w.put.now));
  }

  /** The next update sends the same key again: whatever the store has done in between, it
      gets the response kept for that key and writes nothing. */
  lemma UnseenIsAnswered(t: Tables, p: Pending, addresses: seq<Addr>, device: Device, s: Settings, once: int, ops: seq<Op>, now: int, clock: int, keys: (string, string))
    requires p.ValidPrecondition() && Resendable(Saved(p), addresses, s) && WellFormed(t)
    requires
      var r := Resubmission(p, addresses, device, s, once);
      Accepts(t, r) && Upsert(t, r).result.Ok? && Upsert(t, r).result.value.intent.generation <= MAX_INT64
    requires clock < once + s.leaseDuration
    ensures
      var first := Upsert(t, Resubmission(p, addresses, device, s, once));
      var later := Run(first.tables, ops);
      var run := Update(later, Saved(p), addresses, device, s, now, clock, keys, true);
      && run.tables == later && run.file.Absent? && run.puts == 1 && run.result.Ok?
      && Describes(run.result.value, first.result.value.intent, run.result.value.renewAfterSeconds)
      && run.result.value.leaseExpiresAt == once + s.leaseDuration
  {
    hide LoadOrCreate, Put, Hash, Run, Upsert, Submittable, SafeKey, Canonical, ToWire, Usable, Describes, WellFormed, Update, GenerationETag, ParseGenerationETag, StateOf;
    SubmittableIsNonEmpty(addresses, s);
    var r, again := Resubmission(p, addresses, device, s, once), Resubmission(p, addresses, device, s, now);
    CommitsIffAccepts(t, r);
    LaterDelivery(t, r, ops, again);
    FirstIntent(t, r);
    var first := Upsert(t, r);
    var later := Run(first.tables, ops);
    CalmLoad(later, Saved(p), Hash(addresses), device, s, now, clock, keys.0);
    CalmUpdate(later, Saved(p), addresses, device, s, now, clock, keys, true);
    CalmPut(later, p, addresses, device, s, now);
    var reply := Upsert(later, again).result.value;
    assert reply.intent == first.result.value.intent;
    StateDescribes(reply.intent, reply.renewAfterSeconds);
    ETagRoundTrip(GenerationETag(reply.intent.generation), reply.intent.generation);
    DescribedState(reply.intent, reply.renewAfterSeconds);
  }

  /** An effect the agent did not learn of is not repeated and not lost: the update
      fails and keeps its file; and the next one, over whatever the store has done since,
      returns the row that was written then and writes nothing. */
  lemma UnseenIsRecovered(t: Tables, f: File, addresses: seq<Addr>, device: Device, s: Settings, keys: (string, string), weather: (Weather, Weather), refresh: bool,
                          ops: seq<Op>, now: int, clock: int, next: (string, string))
    requires
      var loaded := LoadOrCreate(t, f, Hash(addresses), device, s, keys.0, weather.0);
      && loaded.pending.Ok? && Resendable(loaded.file, addresses, s)
      && TakesEffectUnseen(loaded.tables, loaded.pending.value, addresses, device, s, weather.0)
      && WellFormed(Run(loaded.tables, weather.0.beforePut)) && clock < weather.0.put.now + s.leaseDuration
    requires
      var loaded := LoadOrCreate(t, f, Hash(addresses), device, s, keys.0, weather.0);
      var first := Upsert(Run(loaded.tables, weather.0.beforePut), Resubmission(loaded.pending.value, addresses, device, s, weather.0.put.now));
      first.result.Ok? && first.result.value.intent.generation <= MAX_INT64
    ensures
      var loaded := LoadOrCreate(t, f, Hash(addresses), device, s, keys.0, weather.0);
      var first := Upsert(Run(loaded.tables, weather.0.beforePut), Resubmission(loaded.pending.value, addresses, device, s, weather.0.put.now));
      var run := UpdateUnder(t, f, addresses, device, s, keys, weather, refresh);
      var later := Run(run.tables, ops);
      var second := Update(later, run.file, addresses, device, s, now, clock, next, true);
      && run.result.Err? && run.file == Saved(loaded.pending.value) && run.puts == 1
      && second.result.Ok? && second.tables == later && second.puts == 1
      && Describes(second.result.value, first.result.value.intent, second.result.value.renewAfterSeconds)
  {
    hide LoadOrCreate, Hash, Run, Upsert, Describes, WellFormed, Update, UpdateUnder, Accepts, Resubmission, SafeKey, Submittable;
    var w := weather.0;
    var loaded := LoadOrCreate(t, f, Hash(addresses), device, s, keys.0, w);
    LoadedIsSaved(t, f, Hash(addresses), device, s, keys.0, w);
    UnseenIsKept(t, f, addresses, device, s, keys, weather, refresh);
    var t1 := Run(loaded.tables, w.beforePut);
    var first := Upsert(t1, Resubmission(loaded.pending.value, addresses, device, s, w.put.now));
    RunAppend(first.tables, w.beforeReply, ops);
    UnseenIsAnswered(t1, loaded.pending.value, addresses, device, s, w.put.now, w.beforeReply + ops, now, clock, next);
  }

  lemma FirstIntent(t: Tables, r: UpsertRequest)
    requires WellFormed(t) && Commits(t, r)
    ensures Upsert(t, r).result.value.intent.generation >= 1
    ensures Upsert(t, r).result.value.intent.leaseExpiresAt == r.now + r.leaseDuration
  {
    SettleKeeps(t, r.deviceID, r.now);
    WrittenRow(SettleDevice(t, r.deviceID, r.now), r);
    UpsertShape(t, r);
    hide Canonical, IsCanonical, WellFormed, Advances;
  }

  lemma DescribedState(row: Intent, renewAfterSeconds: int)
    ensures
      var state := StateOf(row, renewAfterSeconds);
      state.generation == row.generation && state.leaseExpiresAt == row.leaseExpiresAt && state.renewAfterSeconds == renewAfterSeconds
  {
    hide Canonical, ToWire;
  }
}
