/** What holds of agent, network and store together, over every run. */
module AgentTruth {
  import opened Results
  import opened Addresses
  import opened ETag
  import opened Wire
  import opened DesiredState
  import opened StoreRuns
  import opened History
  import opened Controller
  import opened Agent
  import opened SelfStabilising
  import opened AgentRuns

  // -------------------------------------------------------- the store moves

  ghost predicate NewRowsStart(t: Tables, u: Tables) {
    forall d :: d in u.intents && d !in t.intents ==> u.intents[d].generation == 1
  }

  ghost predicate Grows(w: Site, w': Site) {
    && w'.device == w.device && w'.settings == w.settings
    && Advances(w.tables, w'.tables)
    && forall d :: d in w.hist ==> d in w'.hist && w.hist[d] <= w'.hist[d]
  }

  lemma StoreDevice(w: Site, t: Tables, d: string)
    requires TablesOk(w) && WellFormed(t) && Advances(w.tables, t) && NewRowsStart(w.tables, t) && d in t.intents
    ensures HistoryOk(Store(w, t).hist[d], t.intents[d])
    ensures d in w.hist ==> w.hist[d] <= Store(w, t).hist[d]
  {
    assert RowOk(d, t.intents[d]);
    if d in w.tables.intents {
      assert RowAdvances(w.tables.intents[d], t.intents[d]) && HistoryOk(w.hist[d], w.tables.intents[d]);
      ExtendedOk(w.hist[d], w.tables.intents[d], t.intents[d]);
    } else {
      FirstHistoryOk(d, t.intents[d]);
    }
    hide WellFormed, HistoryOk, Extended;
  }

  lemma StoreGrows(w: Site, t: Tables)
    requires TablesOk(w) && WellFormed(t) && Advances(w.tables, t) && NewRowsStart(w.tables, t)
    ensures TablesOk(Store(w, t)) && Grows(w, Store(w, t))
  {
    hide WellFormed, HistoryOk, Extended, Advances, NewRowsStart;
    forall d | d in t.intents
      ensures HistoryOk(Store(w, t).hist[d], t.intents[d])
      ensures d in w.hist ==> w.hist[d] <= Store(w, t).hist[d]
    {
      StoreDevice(w, t, d);
    }
    RowsStay(w.tables, t);
    assert forall d :: d in w.hist ==> d in w.tables.intents;
  }

  lemma RowsStay(t: Tables, u: Tables)
    requires Advances(t, u)
    ensures forall d :: d in t.intents ==> d in u.intents
  {
  }

  lemma StepStartsRows(t: Tables, op: Op)
    requires WellFormed(t)
    ensures NewRowsStart(t, Step(t, op))
  {
    match op
    case Write(r) => WriteMoves(t, r); hide Upsert;
    case Sweep(_) =>
    case MarkApplied(_, _) =>
    case MarkObserved(_, _) =>
    case MarkError(_, _, _) =>
  }

  // ------------------------------------------------------ facts that persist

  lemma KeyPersists(w: Site, w': Site, key: string)
    requires Grows(w, w') && (w.device.id, key) in w.tables.idempotency && KeyOk(w, key) && w.sent <= w'.sent
    ensures (w'.device.id, key) in w'.tables.idempotency && KeyOk(w', key)
  {
  }

  lemma ReplyPersists(w: Site, w': Site, m: Message, r: Response)
    requires Grows(w, w') && ReplyOk(w, m, r) && w.sent <= w'.sent
    requires r.status == 412 ==> (w.device.id, m.pending.key) !in w'.tables.idempotency
    ensures ReplyOk(w', m, r)
  {
  }

  /** The store moved on, and no request refused with 412 was stored. */
  ghost predicate StoreOnly(w: Site, w': Site) {
    && Grows(w, w')
    && w'.sent == w.sent && w'.replies == w.replies && w'.file == w.file && w'.process == w.process
    && forall m, r :: (m, r) in w.replies && r.status == 412 ==> (w.device.id, m.pending.key) !in w'.tables.idempotency
  }

  lemma SentPersists(w: Site, w': Site)
    requires SentOk(w) && StoreOnly(w, w')
    ensures SentOk(w')
  {
  }

  lemma RepliesPersist(w: Site, w': Site)
    requires RepliesOk(w) && StoreOnly(w, w')
    ensures RepliesOk(w')
  {
  }

  lemma FilePersists(w: Site, w': Site)
    requires FileOk(w) && StoreOnly(w, w')
    ensures FileOk(w')
  {
  }

  lemma ProcessPersists(w: Site, w': Site)
    requires ProcessOk(w) && StoreOnly(w, w')
    ensures ProcessOk(w')
  {
  }

  lemma StoreOnlyKeeps(w: Site, w': Site)
    requires Inv(w) && StoreOnly(w, w') && TablesOk(w') && KeysOk(w')
    ensures Inv(w')
  {
    hide TablesOk, KeysOk, SentOk, RepliesOk, FileOk, ProcessOk, StoreOnly;
    SentPersists(w, w');
    RepliesPersist(w, w');
    FilePersists(w, w');
    ProcessPersists(w, w');
  }

  /** Nothing was stored for this device. */
  lemma SameKeysKeep(w: Site, w': Site)
    requires Inv(w) && Grows(w, w') && TablesOk(w')
    requires w'.sent == w.sent && w'.replies == w.replies && w'.file == w.file && w'.process == w.process
    requires forall key :: (w.device.id, key) in w'.tables.idempotency ==> (w.device.id, key) in w.tables.idempotency
    ensures Inv(w')
  {
    forall key | (w.device.id, key) in w'.tables.idempotency ensures KeyOk(w', key) {
      assert KeyOk(w, key);
      KeyPersists(w, w', key);
    }
    forall m, r | (m, r) in w.replies && r.status == 412 ensures (w.device.id, m.pending.key) !in w'.tables.idempotency {
      assert ReplyOk(w, m, r);
    }
    hide TablesOk, SentOk, RepliesOk, FileOk, ProcessOk, KeyOk, Grows;
    StoreOnlyKeeps(w, w');
  }

  // ----------------------------------------------------------- quiet events

  /** Only the process and its file move. */
  lemma ProcessMoves(w: Site, f: File, p: Process)
    requires Inv(w)
    requires FileOk(w.(file := f, process := p)) && ProcessOk(w.(file := f, process := p))
    ensures Inv(w.(file := f, process := p))
  {
    var w' := w.(file := f, process := p);
    hide WellFormed, HistoryOk, FileOk, ProcessOk, StateOf, Canonical;
    forall m | m in w.sent ensures PendingOk(w', m.pending) {
      assert PendingOk(w, m.pending);
    }
    forall m, r | (m, r) in w.replies ensures ReplyOk(w', m, r) {
      assert ReplyOk(w, m, r);
    }
    forall key | (w.device.id, key) in w.tables.idempotency ensures KeyOk(w', key) {
      assert KeyOk(w, key);
    }
  }

  lemma AckedUnder(w: Site, f: File, p: Process, key: string, addresses: seq<Addr>, state: State)
    requires Acked(w, key, addresses, state)
    ensures Acked(w.(file := f, process := p), key, addresses, state)
  {
  }

  predicate IsLocal(e: Event) {
    e.Start? || e.Load? || e.Look? || e.LookAgain? || e.Receive? || e.LoseReply? || e.Clear? || e.Crash?
  }

  lemma ReplyOfInv(w: Site, m: Message, r: Response)
    requires Inv(w) && (m, r) in w.replies
    ensures ReplyOk(w, m, r)
  {
    hide TablesOk, SentOk, KeysOk, FileOk, ProcessOk, ReplyOk;
  }

  lemma ReceivedVerdict(w: Site, e: Event)
    requires Inv(w) && Allowed(w, e) && e.Receive?
    ensures
      var p := w.process;
      var v := Judge(e.response, e.now, p.refresh);
      && (v.Done? ==> Acked(w, p.pending.key, p.addresses, v.state))
      && (v.Stop? ==> v.error != AgentError.Refused(409))
  {
    hide Inv, Acked, Dead, ParseGenerationETag, PreconditionOf;
    ReplyOfInv(w, Message(w.process.pending, w.process.addresses), e.response);
  }

  lemma LocalFile(w: Site, e: Event)
    requires FileOk(w) && Allowed(w, e) && IsLocal(e)
    ensures FileOk(Next(w, e))
  {
  }

  lemma LocalProcess(w: Site, e: Event)
    requires Inv(w) && Allowed(w, e) && IsLocal(e)
    ensures ProcessOk(Next(w, e))
  {
    hide TablesOk, SentOk, KeysOk, RepliesOk, FileOk, ProcessOk, AfterLoad, AfterClear, Judge;
    match e {
      case Receive(_, _) => ReceivedProcess(w, e);
      case Clear(_, _) => ClearedProcess(w, e);
      case Load(readable) => LoadedProcess(w, readable);
      case Look(_, _) => LookedProcess(w, e);
      case LookAgain(_) => LookedProcess(w, e);
      case _ => PlainProcess(w, Next(w, e).process);
    }
  }

  lemma PlainProcess(w: Site, p: Process)
    requires p.Down? || p.Starting? || p == Failed(NoReply)
    ensures ProcessOk(w.(process := p))
  {
  }

  lemma LoadedProcess(w: Site, readable: bool)
    requires w.process.Starting?
    ensures ProcessOk(Next(w, Load(readable)))
  {
  }

  lemma LookedProcess(w: Site, e: Event)
    requires Inv(w) && Allowed(w, e) && (e.Look? || e.LookAgain?)
    ensures ProcessOk(Next(w, e))
  {
    TablesOfInv(w);
    hide Inv, TablesOk, WellFormed, Fetched, RowReply, ConditionOk, Lapsed;
    var p := w.process;
    var readOk := e.readOk && (e.Look? || w.device.id in w.tables.intents);
    StatusCondition(w, p.addresses, p.refresh, RowReply(w, readOk), readOk);
  }

  /** A status reply is no conflict, and its condition names a generation the device
      has had. */
  lemma StatusCondition(w: Site, addresses: seq<Addr>, refresh: bool, r: Response, readOk: bool)
    requires WellFormed(w.tables) && r == RowReply(w, readOk)
    ensures ProcessOk(w.(process := AfterStatus(addresses, refresh, r)))
  {
    hide StatusReply, WellFormed, ConditionOk, Fetched;
    FetchedErrors(r);
    var c := Fetched(r);
    if c.Ok? {
      if r.Success? {
        RowCondition(w);
      } else {
        AbsentCondition(w, r);
      }
      ConditionUnder(w, AfterStatus(addresses, refresh, r), c.value.0, c.value.1);
    }
  }

  lemma FetchedErrors(r: Response)
    ensures Fetched(r).Err? ==> Fetched(r).error.StatusFailed? || Fetched(r).error.BadStatusETag?
  {
    hide ParseGenerationETag;
  }

  lemma RowCondition(w: Site)
    requires WellFormed(w.tables) && w.device.id in w.tables.intents
    ensures
      var c := Fetched(StatusReply(w.tables.intents[w.device.id], w.settings));
      c.Ok? ==> ConditionOk(w, c.value.0, c.value.1)
  {
    hide GenerationETag, ParseGenerationETag, ToWire, Canonical, StatusOf;
    var row := w.tables.intents[w.device.id];
    assert RowOk(w.device.id, row);
    hide WellFormed;
    var etag := GenerationETag(row.generation);
    if ParseGenerationETag(etag).Ok? {
      ETagRoundTrip(etag, ParseGenerationETag(etag).value);
      assert etag != "" by { ETagNotBlank(row.generation); }
    }
  }

  lemma ETagNotBlank(generation: int)
    ensures GenerationETag(generation) != ""
  {
  }

  lemma AbsentCondition(w: Site, r: Response)
    requires r.Failure? && Fetched(r).Ok?
    ensures ConditionOk(w, Fetched(r).value.0, Fetched(r).value.1)
  {
  }

  lemma ConditionUnder(w: Site, p: Process, ifMatch: string, ifNoneMatch: bool)
    requires ConditionOk(w, ifMatch, ifNoneMatch)
    ensures ConditionOk(w.(process := p), ifMatch, ifNoneMatch)
  {
  }

  lemma ReceivedProcess(w: Site, e: Event)
    requires Inv(w) && Allowed(w, e) && e.Receive?
    ensures ProcessOk(Next(w, e))
  {
    hide Inv, Acked, Judge, ReplyOk;
    ReceivedVerdict(w, e);
    var w' := Next(w, e);
    var v := w'.process.verdict;
    if v.Done? {
      AckedUnder(w, w'.file, w'.process, w.process.pending.key, w.process.addresses, v.state);
    }
  }

  lemma ClearedProcess(w: Site, e: Event)
    requires ProcessOk(w) && Allowed(w, e) && e.Clear?
    ensures ProcessOk(Next(w, e))
  {
    hide Acked, PendingOk, ConditionOk;
    var w' := Next(w, e);
    if w.process.verdict.Done? {
      AckedUnder(w, w'.file, w'.process, w.process.pending.key, w.process.addresses, w.process.verdict.state);
    }
  }

  lemma LocalKeeps(w: Site, e: Event)
    requires Inv(w) && Allowed(w, e) && IsLocal(e)
    ensures Inv(Next(w, e))
  {
    hide ProcessOk, FileOk, TablesOk, SentOk, KeysOk, RepliesOk, AfterLoad, AfterClear, Judge;
    LocalFile(w, e);
    LocalProcess(w, e);
    ProcessMoves(w, Next(w, e).file, Next(w, e).process);
  }

  lemma SaveKeeps(w: Site, e: Event)
    requires Inv(w) && Allowed(w, e) && e.Save?
    ensures Inv(Next(w, e))
  {
    hide Inv, Hash, SafeKey, ConditionOk, FileOk;
    var w' := Next(w, e);
    ProcessOfInv(w);
    if e.written {
      SavedIsOk(w, e.key);
    } else {
      FileOfInv(w);
      FileUnder(w, w'.process);
    }
    ProcessMoves(w, w'.file, w'.process);
  }

  lemma FileUnder(w: Site, p: Process)
    requires FileOk(w)
    ensures FileOk(w.(process := p))
  {
  }

  lemma SavedIsOk(w: Site, key: string)
    requires w.process.Creating? && ConditionOk(w, w.process.ifMatch, w.process.ifNoneMatch) && FreshKey(w, key)
    ensures FileOk(Next(w, Save(key, true)))
  {
    hide Hash, SafeKey, ParseGenerationETag;
  }

  lemma SubmittedAll(w: Site, p: Pending, addresses: seq<Addr>, refresh: bool, w': Site)
    requires SentOk(w) && FileOk(w) && w.file == Saved(p) && Hash(addresses) == p.payloadHash
    requires w' == w.(sent := w.sent + {Message(p, addresses)}, process := Waiting(addresses, refresh, p))
    ensures SentOk(w') && FileOk(w') && ProcessOk(w')
  {
    hide Hash, PreconditionOf, SafeKey, Reached;
    forall m | m in w'.sent ensures PendingOk(w', m.pending) && Sole(w', m.pending) && Hash(m.addresses) == m.pending.payloadHash {
      if m in w.sent {
        assert PendingOk(w, m.pending) && Sole(w, m.pending);
      }
    }
  }

  lemma SubmitKeeps(w: Site, e: Event)
    requires Inv(w) && Allowed(w, e) && e.Submit?
    ensures Inv(Next(w, e))
  {
    var w' := Next(w, e);
    var p := w.process;
    assert w.file == Saved(p.pending) && Hash(p.addresses) == p.pending.payloadHash;
    hide TablesOk, KeysOk, RepliesOk, SentOk, FileOk, ProcessOk, Hash;
    SubmittedAll(w, p.pending, p.addresses, p.refresh, w');
    SubmitStore(w, w');
  }

  lemma SubmitStore(w: Site, w': Site)
    requires TablesOk(w) && KeysOk(w) && RepliesOk(w)
    requires w' == w.(sent := w'.sent, process := w'.process) && w.sent <= w'.sent
    ensures TablesOk(w') && KeysOk(w') && RepliesOk(w')
  {
    hide WellFormed, HistoryOk;
    Unmoved(w.tables);
    assert Grows(w, w');
    hide Grows, ReplyOk, KeyOk;
    forall key | (w.device.id, key) in w.tables.idempotency ensures KeyOk(w', key) {
      KeyPersists(w, w', key);
    }
    forall m, r | (m, r) in w.replies ensures ReplyOk(w', m, r) {
      ReplyNotStored(w, m, r);
      ReplyPersists(w, w', m, r);
    }
  }

  lemma ReplyNotStored(w: Site, m: Message, r: Response)
    requires ReplyOk(w, m, r)
    ensures r.status == 412 ==> (w.device.id, m.pending.key) !in w.tables.idempotency
  {
  }

  // ------------------------------------------------------------ store events

  lemma ElsewhereKeeps(w: Site, e: Event)
    requires Inv(w) && Allowed(w, e) && e.Elsewhere?
    ensures Inv(Next(w, e))
  {
    StepKeeps(w.tables, e.op);
    StepStartsRows(w.tables, e.op);
    StoreGrows(w, Step(w.tables, e.op));
    OthersKeys(w.tables, e.op, w.device.id);
    hide Inv, Step, TablesOk, Grows, WellFormed, Advances;
    SameKeysKeep(w, Next(w, e));
  }

  /** Operations on other devices store nothing under this one. */
  lemma OthersKeys(t: Tables, op: Op, device: string)
    requires op.Write? ==> op.request.deviceID != device
    ensures forall key :: (device, key) in Step(t, op).idempotency ==> (device, key) in t.idempotency
  {
  }

  /** The sweep of the status handler. */
  lemma SweepForStatusKeeps(w: Site, e: Event)
    requires Inv(w) && Allowed(w, e) && e.SweepForStatus?
    ensures Inv(Next(w, e))
  {
    if e.sweepOk {
      hide Inv, TablesOk, Grows, WellFormed, Advances, NewRowsStart, Expire, Record, FileOk, ProcessOk;
      TablesOfInv(w);
      SweepGrows(w.tables, w.process.now);
      var t := Expire(w.tables, w.process.now);
      StoreGrows(w, t);
      SameKeysKeep(w, Store(w, t));
      FileOfInv(Store(w, t));
      RereadingIsQuiet(Store(w, t), w.process.addresses, w.process.refresh);
      ProcessMoves(Store(w, t), w.file, Rereading(w.process.addresses, w.process.refresh));
    } else {
      hide Inv, FileOk, ProcessOk;
      FileOfInv(w);
      RereadingIsQuiet(w, w.process.addresses, w.process.refresh);
      ProcessMoves(w, w.file, AfterStatus(w.process.addresses, w.process.refresh, UNREADABLE));
    }
  }

  lemma RereadingIsQuiet(w: Site, addresses: seq<Addr>, refresh: bool)
    requires FileOk(w)
    ensures FileOk(w.(process := Rereading(addresses, refresh))) && ProcessOk(w.(process := Rereading(addresses, refresh)))
    ensures
      var p := AfterStatus(addresses, refresh, UNREADABLE);
      FileOk(w.(process := p)) && ProcessOk(w.(process := p))
  {
    FileUnder(w, Rereading(addresses, refresh));
    FileUnder(w, AfterStatus(addresses, refresh, UNREADABLE));
    hide FileOk;
  }

  lemma SweepGrows(t: Tables, now: int)
    requires WellFormed(t)
    ensures
      var u := Expire(t, now);
      WellFormed(u) && Advances(t, u) && NewRowsStart(t, u) && u.idempotency == t.idempotency
  {
    SweepKeeps(t, now);
  }

  lemma TablesOfInv(w: Site)
    requires Inv(w)
    ensures TablesOk(w) && WellFormed(w.tables)
  {
  }

  lemma FileOfInv(w: Site)
    requires Inv(w)
    ensures FileOk(w)
  {
  }

  // --------------------------------------------------------------- delivery

  lemma AddReply(w: Site, m: Message, r: Response)
    requires Inv(w) && ReplyOk(w, m, r)
    ensures Inv(w.(replies := w.replies + {(m, r)}))
  {
    var w' := w.(replies := w.replies + {(m, r)});
    hide WellFormed, HistoryOk, StateOf, Canonical, SafeKey, Hash;
    forall n | n in w.sent ensures PendingOk(w', n.pending) {
      assert PendingOk(w, n.pending);
    }
    forall n, q | (n, q) in w'.replies ensures ReplyOk(w', n, q) {
      assert ReplyOk(w, n, q);
    }
    forall key | (w.device.id, key) in w.tables.idempotency ensures KeyOk(w', key) {
      assert KeyOk(w, key);
    }
  }

  lemma StoreSame(w: Site)
    requires TablesOk(w)
    ensures Store(w, w.tables) == w
  {
  }

  ghost function RequestOf(w: Site, m: Message, now: int): UpsertRequest
    requires m.pending.ValidPrecondition()
  {
    Resubmission(m.pending, m.addresses, w.device, w.settings, now)
  }

  lemma RequestFacts(w: Site, m: Message, now: int)
    requires Inv(w) && m in w.sent
    ensures PendingOk(w, m.pending) && Sole(w, m.pending) && Hash(m.addresses) == m.pending.payloadHash
    ensures
      var r := RequestOf(w, m, now);
      && Hash(r.addresses) == m.pending.payloadHash && r.precondition.Valid() && r.RowKey() == (w.device.id, m.pending.key)
      && Canonical(r.addresses) == Canonical(m.addresses) == m.pending.payloadHash.canonical
      && r.precondition == PreconditionOf(m.pending)
      && r.renewAfterSeconds == w.settings.RenewAfterSeconds()
  {
    hide TablesOk, KeysOk, RepliesOk, FileOk, ProcessOk;
    PendingReadsBack(m.pending);
    CanonicalIdempotent(m.addresses);
    hide Canonical, ParseWritePrecondition, ParseGenerationETag;
  }

  /** A delivery under a stored key is a replay: the key was stored for this very
      request. */
  lemma StoredDelivery(w: Site, m: Message, now: int)
    requires Inv(w) && m in w.sent && m.pending.ValidPrecondition() && (w.device.id, m.pending.key) in w.tables.idempotency
    ensures
      var r := RequestOf(w, m, now);
      var put := Answer(Upsert(w.tables, r));
      put.tables == w.tables && ReplyOk(w, m, put.response)
  {
    hide TablesOk, SentOk, KeysOk, RepliesOk, FileOk, ProcessOk, Hash, Canonical, PreconditionOf, Dead, Reached;
    RequestFacts(w, m, now);
    var r := RequestOf(w, m, now);
    var key := m.pending.key;
    KeyOfInv(w, key);
    var row := w.tables.idempotency[r.RowKey()];
    var n :| n in w.sent && n.pending.key == key && row.payloadHash == n.pending.payloadHash
      && n.pending.ValidPrecondition() && row.preconditionKey == PreconditionOf(n.pending).Key();
    assert n.pending == m.pending;
    assert Bound(row, r);
  }

  lemma RefusedTables(w: Site, m: Message, now: int)
    requires Inv(w) && m in w.sent && m.pending.ValidPrecondition() && (w.device.id, m.pending.key) !in w.tables.idempotency
    requires Upsert(w.tables, RequestOf(w, m, now)).result.Err?
    ensures
      var u := Upsert(w.tables, RequestOf(w, m, now)).tables;
      u.idempotency == w.tables.idempotency && Inv(Store(w, u))
  {
    var r := RequestOf(w, m, now);
    var u := Upsert(w.tables, r).tables;
    assert TablesOk(w);
    hide Inv;
    WriteKeeps(w.tables, r);
    StepStartsRows(w.tables, Write(r));
    UpsertShape(w.tables, r);
    hide TablesOk, Upsert, WellFormed, Grows, Advances, Hash, Canonical, PreconditionOf, NewRowsStart;
    StoreGrows(w, u);
    SameKeysKeep(w, Store(w, u));
  }

  lemma RefusedVerdict(t: Tables, r: UpsertRequest)
    requires WellFormed(t) && r.RowKey() !in t.idempotency && Reached(t, r.deviceID, r.precondition)
    requires Upsert(t, r).result.Err?
    ensures
      var put := Answer(Upsert(t, r));
      && put.response.Failure? && put.response.status != 409
      && (put.response.status == 412 ==> Dead(put.tables, r.deviceID, r.precondition))
  {
    hide Upsert, WellFormed, Reached, Dead;
    NotConflict(t, r);
    if Upsert(t, r).result == Err(PreconditionFailed) {
      StaleIsDead(t, r);
    }
  }

  lemma NotConflict(t: Tables, r: UpsertRequest)
    requires r.RowKey() !in t.idempotency
    ensures Upsert(t, r).result != Err(IdempotencyConflict)
  {
  }

  lemma StaleIsDead(t: Tables, r: UpsertRequest)
    requires WellFormed(t) && Reached(t, r.deviceID, r.precondition)
    requires Upsert(t, r).result == Err(PreconditionFailed)
    ensures Dead(Upsert(t, r).tables, r.deviceID, r.precondition)
  {
  }

  /** A first delivery that is refused. */
  lemma RefusedDelivery(w: Site, m: Message, now: int)
    requires Inv(w) && m in w.sent && m.pending.ValidPrecondition() && (w.device.id, m.pending.key) !in w.tables.idempotency
    requires Upsert(w.tables, RequestOf(w, m, now)).result.Err?
    ensures
      var put := Answer(Upsert(w.tables, RequestOf(w, m, now)));
      Inv(Store(w, put.tables)) && ReplyOk(Store(w, put.tables), m, put.response)
  {
    var r := RequestOf(w, m, now);
    RequestFacts(w, m, now);
    RefusedTables(w, m, now);
    assert WellFormed(w.tables);
    hide Inv, WellFormed, Hash, Canonical, PreconditionOf, Upsert, Dead, Reached, Sole, Record;
    RefusedVerdict(w.tables, r);
  }

  lemma CommittedKeys(w: Site, m: Message, now: int)
    requires Inv(w) && m in w.sent && m.pending.ValidPrecondition() && Commits(w.tables, RequestOf(w, m, now))
    ensures
      var w' := Store(w, Upsert(w.tables, RequestOf(w, m, now)).tables);
      TablesOk(w') && Grows(w, w')
  {
    var r := RequestOf(w, m, now);
    WriteKeeps(w.tables, r);
    StepStartsRows(w.tables, Write(r));
    assert TablesOk(w);
    hide Inv, Upsert, Commits;
    StoreGrows(w, Upsert(w.tables, r).tables);
  }

  /** What a first accepted delivery leaves at the device's newest generation. */
  lemma CommittedRow(w: Site, m: Message, now: int)
    requires Inv(w) && m in w.sent && m.pending.ValidPrecondition() && Commits(w.tables, RequestOf(w, m, now))
    ensures
      var r := RequestOf(w, m, now);
      var o := Upsert(w.tables, r);
      var w' := Store(w, o.tables);
      && o.result.value.intent.addresses == m.pending.payloadHash.canonical
      && o.result.value.renewAfterSeconds == r.renewAfterSeconds
      && GenerationHolds(w', o.result.value.intent.generation, m.pending.payloadHash.canonical)
      && r.RowKey() in o.tables.idempotency
      && o.tables.idempotency[r.RowKey()] == IdempotencyRow(m.pending.payloadHash, r.precondition.Key(), Persist(o.result.value.intent, r.renewAfterSeconds))
      && (forall key :: key != r.RowKey() ==> (key in o.tables.idempotency <==> key in w.tables.idempotency))
  {
    var r := RequestOf(w, m, now);
    RequestFacts(w, m, now);
    CommittedKeys(w, m, now);
    UpsertShape(w.tables, r);
    SettleKeeps(w.tables, r.deviceID, r.now);
    var settled := SettleDevice(w.tables, r.deviceID, r.now);
    WrittenRow(settled, r);
    var o := Upsert(w.tables, r);
    assert o.result.value.intent == Written(settled, r);
    hide Inv, Upsert, Written, Commits, WellFormed, Grows, Advances, Hash, IsCanonical, Canonical, SettleDevice, PreconditionHolds;
    assert o.tables.intents[r.deviceID] == o.result.value.intent;
  }

  /** No request refused with 412 shares the key of one that is accepted. */
  lemma AcceptedWasNotRefused(w: Site, m: Message, now: int, n: Message, q: Response)
    requires Inv(w) && m in w.sent && m.pending.ValidPrecondition() && Commits(w.tables, RequestOf(w, m, now))
    requires (n, q) in w.replies && q.status == 412
    ensures n.pending.key != m.pending.key
  {
    RequestFacts(w, m, now);
    var r := RequestOf(w, m, now);
    ReplyOfInv(w, n, q);
    UpsertShape(w.tables, r);
    assert WellFormed(w.tables);
    SettleKeeps(w.tables, r.deviceID, r.now);
    hide Inv, Upsert, Commits, WellFormed, Commit, Hash, Canonical, ParseGenerationETag;
  }

  lemma CommittedStore(w: Site, m: Message, now: int)
    requires Inv(w) && m in w.sent && m.pending.ValidPrecondition() && Commits(w.tables, RequestOf(w, m, now))
    ensures Inv(Store(w, Upsert(w.tables, RequestOf(w, m, now)).tables))
  {
    hide Inv, TablesOk, KeysOk, Upsert, Commits, Grows, RequestOf;
    CommittedKeys(w, m, now);
    CommittedKeysOk(w, m, now);
    CommittedStoreOnly(w, m, now);
    StoreOnlyKeeps(w, Store(w, Upsert(w.tables, RequestOf(w, m, now)).tables));
  }

  lemma CommittedStoreOnly(w: Site, m: Message, now: int)
    requires Inv(w) && m in w.sent && m.pending.ValidPrecondition() && Commits(w.tables, RequestOf(w, m, now))
    ensures StoreOnly(w, Store(w, Upsert(w.tables, RequestOf(w, m, now)).tables))
  {
    hide Inv, Upsert, Commits, Grows, TablesOk, Hash, Canonical, PreconditionOf, Record;
    var o := Upsert(w.tables, RequestOf(w, m, now));
    CommittedKeys(w, m, now);
    CommittedRow(w, m, now);
    forall n, q | (n, q) in w.replies && q.status == 412 ensures (w.device.id, n.pending.key) !in o.tables.idempotency {
      AcceptedWasNotRefused(w, m, now, n, q);
      ReplyOfInv(w, n, q);
      ReplyNotStored(w, n, q);
    }
  }

  lemma KeyOfInv(w: Site, key: string)
    requires Inv(w) && (w.device.id, key) in w.tables.idempotency
    ensures KeyOk(w, key)
  {
    hide TablesOk, SentOk, RepliesOk, FileOk, ProcessOk, KeyOk;
  }

  lemma CommittedKeysOk(w: Site, m: Message, now: int)
    requires Inv(w) && m in w.sent && m.pending.ValidPrecondition() && Commits(w.tables, RequestOf(w, m, now))
    ensures KeysOk(Store(w, Upsert(w.tables, RequestOf(w, m, now)).tables))
  {
    hide Inv, Upsert, Commits, Grows, TablesOk, Hash, Canonical, PreconditionOf, Record, KeyOk, GenerationHolds;
    var o := Upsert(w.tables, RequestOf(w, m, now));
    var w' := Store(w, o.tables);
    CommittedKeys(w, m, now);
    CommittedRow(w, m, now);
    CanonicalIdempotent(m.addresses);
    RequestFacts(w, m, now);
    forall key | (w.device.id, key) in o.tables.idempotency ensures KeyOk(w', key) {
      if key == m.pending.key {
        StoredKey(w', m);
      } else {
        KeyOfInv(w, key);
        KeyPersists(w, w', key);
      }
    }
  }

  lemma StoredKey(w: Site, m: Message)
    requires m in w.sent && m.pending.ValidPrecondition() && (w.device.id, m.pending.key) in w.tables.idempotency
    requires
      var row := w.tables.idempotency[(w.device.id, m.pending.key)];
      && row.payloadHash == m.pending.payloadHash && row.preconditionKey == PreconditionOf(m.pending).Key()
      && row.response.renewAfterSeconds == w.settings.RenewAfterSeconds()
      && row.response.addresses == m.pending.payloadHash.canonical
      && GenerationHolds(w, row.response.generation, m.pending.payloadHash.canonical)
    ensures KeyOk(w, m.pending.key)
  {
  }

  lemma CommittedReply(w: Site, m: Message, now: int)
    requires Inv(w) && m in w.sent && m.pending.ValidPrecondition() && Commits(w.tables, RequestOf(w, m, now))
    ensures
      var put := Answer(Upsert(w.tables, RequestOf(w, m, now)));
      ReplyOk(Store(w, put.tables), m, put.response)
  {
    hide Inv, Upsert, Commits, Hash, Canonical, PreconditionOf, Resubmission, Record, Dead;
    CommittedRow(w, m, now);
    RequestFacts(w, m, now);
    var o := Upsert(w.tables, RequestOf(w, m, now));
    CommitsGivesResult(w.tables, RequestOf(w, m, now));
    CanonicalIdempotent(m.addresses);
    assert Restore(Persist(o.result.value.intent, w.settings.RenewAfterSeconds())) == o.result.value.intent;
  }

  lemma DeliveredAs(w: Site, m: Message, now: int, fault: Fault)
    requires Inv(w) && m in w.sent
    ensures m.pending.ValidPrecondition()
    ensures Submittable(m.addresses, w.settings) ==> PutOf(w, m, now, fault) == Answer(UpsertUnder(w.tables, RequestOf(w, m, now), fault))
    ensures !Submittable(m.addresses, w.settings) ==> PutOf(w, m, now, fault) == Handled(w.tables, Response.Failure(400, "invalid_addresses"))
  {
    hide Inv, Upsert, Strikes, Misreported, Hash, Canonical, ToWire, Acceptable, ParseWritePrecondition, Sole, Answer, Reached;
    RequestFacts(w, m, now);
    if Submittable(m.addresses, w.settings) {
      PutIsResubmission(w.tables, m.pending, m.addresses, w.device, w.settings, now, fault);
    }
  }

  lemma DeliverKeeps(w: Site, e: Event)
    requires Inv(w) && Allowed(w, e) && e.Deliver?
    ensures Inv(Next(w, e))
  {
    hide Inv, PutOf, ReplyOk, Record;
    var m := e.message;
    var put := PutOf(w, m, e.now, e.fault);
    DeliveredInv(w, m, e.now, e.fault);
    AddReply(Store(w, put.tables), m, put.response);
  }

  lemma DeliveredInv(w: Site, m: Message, now: int, fault: Fault)
    requires Inv(w) && m in w.sent
    ensures
      var put := PutOf(w, m, now, fault);
      Inv(Store(w, put.tables)) && ReplyOk(Store(w, put.tables), m, put.response)
  {
    hide Inv, Upsert, Strikes, Misreported, PutOf, Submittable, RequestOf, Store, ReplyOk;
    DeliveredAs(w, m, now, fault);
    if !Submittable(m.addresses, w.settings) {
      FailedDelivery(w, m, 400, "invalid_addresses");
    } else if Strikes(w.tables, RequestOf(w, m, now), fault) {
      FailedDelivery(w, m, 500, "storage_error");
    } else {
      SoundDelivery(w, m, now);
      AnswerKeepsTables(Upsert(w.tables, RequestOf(w, m, now)));
      if Misreported(w.tables, RequestOf(w, m, now), fault) {
        FailureReply(Store(w, Upsert(w.tables, RequestOf(w, m, now)).tables), m, 500, "storage_error") by { SentStays(w, Upsert(w.tables, RequestOf(w, m, now)).tables); }
      }
    }
  }

  lemma AnswerKeepsTables(o: Outcome)
    ensures Answer(o).tables == o.tables
  {
  }

  lemma SentStays(w: Site, t: Tables)
    ensures Store(w, t).sent == w.sent
  {
  }

  lemma FailureReply(w: Site, m: Message, status: int, code: string)
    requires m in w.sent && m.pending.ValidPrecondition() && status != 409 && status != 412
    ensures ReplyOk(w, m, Response.Failure(status, code))
  {
  }

  /** A delivery that changes nothing. */
  lemma FailedDelivery(w: Site, m: Message, status: int, code: string)
    requires Inv(w) && m in w.sent && m.pending.ValidPrecondition() && status != 409 && status != 412
    ensures Inv(Store(w, w.tables)) && ReplyOk(Store(w, w.tables), m, Response.Failure(status, code))
  {
    TablesOfInv(w);
    hide Inv, TablesOk, WellFormed, Store;
    StoreSame(w);
  }

  lemma SoundDelivery(w: Site, m: Message, now: int)
    requires Inv(w) && m in w.sent && m.pending.ValidPrecondition()
    ensures
      var put := Answer(Upsert(w.tables, RequestOf(w, m, now)));
      Inv(Store(w, put.tables)) && ReplyOk(Store(w, put.tables), m, put.response)
  {
    hide Inv, TablesOk, WellFormed, Upsert, RequestOf, Store, ReplyOk, Commits;
    RowKeyOf(w, m, now);
    if (w.device.id, m.pending.key) in w.tables.idempotency {
      StoredDelivery(w, m, now);
      StoreSame(w) by { TablesOfInv(w); }
    } else if Commits(w.tables, RequestOf(w, m, now)) {
      CommittedStore(w, m, now);
      CommittedReply(w, m, now);
    } else {
      FreshIsNotReplay(w.tables, RequestOf(w, m, now));
      RefusedDelivery(w, m, now);
    }
  }

  lemma RowKeyOf(w: Site, m: Message, now: int)
    requires m.pending.ValidPrecondition()
    ensures RequestOf(w, m, now).RowKey() == (w.device.id, m.pending.key)
  {
  }

  lemma FreshIsNotReplay(t: Tables, r: UpsertRequest)
    requires r.RowKey() !in t.idempotency && !Commits(t, r)
    ensures Upsert(t, r).result.Err?
  {
  }

  // ---------------------------------------------------------------- the runs

  lemma NextKeeps(w: Site, e: Event)
    requires Inv(w)
    ensures Inv(Next(w, e))
  {
    hide Inv;
    if Allowed(w, e) {
      match e
      case Elsewhere(_) => ElsewhereKeeps(w, e);
      case SweepForStatus(_) => SweepForStatusKeeps(w, e);
      case Save(_, _) => SaveKeeps(w, e);
      case Submit => SubmitKeeps(w, e);
      case Deliver(_, _, _) => DeliverKeeps(w, e);
      case _ => LocalKeeps(w, e);
    }
  }

  lemma InitialInv(w: Site)
    requires Initial(w)
    ensures Inv(w)
  {
  }

  lemma {:induction false} PlayKeeps(w: Site, events: seq<Event>)
    requires Inv(w)
    ensures Inv(Play(w, events))
    decreases events
  {
    hide Inv, Next;
    if events == [] {
    } else {
      PlayKeeps(w, events[..|events| - 1]);
      NextKeeps(Play(w, events[..|events| - 1]), events[|events| - 1]);
    }
  }

  // -------------------------------------------------------------- main results

  /** An acknowledged update is durable: whenever the agent has returned a state,
      the store holds the response for the key it sent, the state is that response,
      and its generation names exactly the agent's canonical addresses. */
  lemma AcknowledgementIsDurable(w: Site, events: seq<Event>)
    requires Initial(w)
    ensures
      var now := Play(w, events);
      now.process.Acknowledged? ==> Acked(now, now.process.key, now.process.addresses, now.process.state)
  {
    hide Initial, Inv, Acked;
    InitialInv(w);
    PlayKeeps(w, events);
    ProcessOfInv(Play(w, events));
  }

  lemma ProcessOfInv(w: Site)
    requires Inv(w)
    ensures ProcessOk(w)
  {
  }

  /** No request of an honest agent is ever answered with a conflict. */
  lemma HonestAgentNeverConflicts(w: Site, events: seq<Event>, m: Message, r: Response)
    requires Initial(w) && (m, r) in Play(w, events).replies
    ensures r.status != 409
  {
    hide Initial, Inv;
    InitialInv(w);
    PlayKeeps(w, events);
    ReplyOfInv(Play(w, events), m, r);
  }

  /** A key answered with 412 is finished: it is never stored, in that run or any
      continuation of it, so dropping it loses nothing. */
  lemma RefusedKeyNeverTakesEffect(w: Site, events: seq<Event>, more: seq<Event>, m: Message, r: Response)
    requires Initial(w) && (m, r) in Play(w, events).replies && r.status == 412
    ensures (w.device.id, m.pending.key) !in Play(w, events + more).tables.idempotency
  {
    hide Initial, Inv, Next;
    InitialInv(w);
    PlayKeeps(w, events + more);
    RepliesGrow(w, events, more);
    ReplyOfInv(Play(w, events + more), m, r);
    ReplyNotStored(Play(w, events + more), m, r);
  }

  lemma {:induction false} RepliesGrow(w: Site, events: seq<Event>, more: seq<Event>)
    ensures Play(w, events).replies <= Play(w, events + more).replies
    ensures Play(w, events + more).device == w.device
    decreases |events| + |more|
  {
    var all := events + more;
    if more != [] {
      assert all[..|all| - 1] == events + more[..|more| - 1];
      RepliesGrow(w, events, more[..|more| - 1]);
      RepliesStep(Play(w, all[..|all| - 1]), all[|all| - 1]);
    } else {
      assert all == events;
      if events != [] {
        RepliesGrow(w, events[..|events| - 1], []);
        assert events[..|events| - 1] + [] == events[..|events| - 1];
        RepliesStep(Play(w, events[..|events| - 1]), events[|events| - 1]);
      }
    }
  }

  lemma RepliesStep(w: Site, e: Event)
    ensures w.replies <= Next(w, e).replies && Next(w, e).device == w.device
  {
  }

  /** The response stored under the key answers `m`, and every request sent under
      that key carries the payload and precondition of `m`. */
  ghost predicate BoundTo(w: Site, key: string, m: Message)
  {
    && (w.device.id, key) in w.tables.idempotency
    && var row := w.tables.idempotency[(w.device.id, key)];
    && m in w.sent && m.pending.key == key
    && row.payloadHash == Hash(m.addresses)
    && m.pending.ValidPrecondition() && row.preconditionKey == PreconditionOf(m.pending).Key()
    && (forall n :: n in w.sent && n.pending.key == key ==> n.pending == m.pending && Hash(n.addresses) == Hash(m.addresses))
  }

  /** Every stored response of the device answers one request the agent sent, and
      all requests under that key are that same request. */
  lemma KeysStayBound(w: Site, events: seq<Event>, key: string)
    requires Initial(w) && (w.device.id, key) in Play(w, events).tables.idempotency
    ensures
      var now := Play(w, events);
      exists m :: BoundTo(now, key, m)
  {
    InitialInv(w);
    PlayKeeps(w, events);
    RepliesGrow(w, [], events);
    assert [] + events == events;
    var now := Play(w, events);
    hide Initial, Next, Play, Hash;
    BoundKey(now, key);
  }

  lemma BoundKey(now: Site, key: string)
    requires Inv(now) && (now.device.id, key) in now.tables.idempotency
    ensures exists m :: BoundTo(now, key, m)
  {
    hide TablesOk, RepliesOk, FileOk, ProcessOk, Hash, PendingOk, PreconditionOf;
    assert KeyOk(now, key);
    var m :| m in now.sent && m.pending.key == key
      && now.tables.idempotency[(now.device.id, key)].payloadHash == m.pending.payloadHash
      && m.pending.ValidPrecondition()
      && now.tables.idempotency[(now.device.id, key)].preconditionKey == PreconditionOf(m.pending).Key();
    assert Sole(now, m.pending);
    assert BoundTo(now, key, m);
  }

  /** In a reachable site the file is never one of the two that defeat an update. */
  lemma FileIsClean(w: Site, addresses: seq<Addr>, now: int)
    requires Inv(w)
    ensures !Poisoned(w.tables, w.file, addresses, w.device, w.settings, now)
  {
  }

  /** Self-stabilisation: whatever crashes, losses, delays and repetitions came
      before, one update over reliable exchanges takes at most two PUTs, and succeeds
      exactly when it is in time: always, if the agent's clock is not ahead of the
      controller's by the lease or more. */
  lemma UpdateRecovers(w: Site, events: seq<Event>, addresses: seq<Addr>, now: int, clock: int, keys: (string, string))
    requires Initial(w)
    requires
      var site := Play(w, events);
      && Placed(site.tables, site.device, 6) && Submittable(addresses, site.settings)
      && UnusedKeys(site.tables, site.file, site.device, keys)
    ensures
      var site := Play(w, events);
      var run := Update(site.tables, site.file, addresses, site.device, site.settings, now, clock, keys, true);
      && run.puts <= 2
      && (run.result.Ok? <==> InTime(site.tables, site.file, addresses, site.device, site.settings, now, clock))
      && (clock < now + site.settings.leaseDuration ==> run.result.Ok?)
      && (run.result.Ok? ==> run.file.Absent? && run.result.value.leaseExpiresAt > clock)
  {
    hide Initial, Inv, Placed, Submittable, Update, UnusedKeys, Poisoned, Play, Usable, LiveReply;
    InitialInv(w);
    PlayKeeps(w, events);
    var site := Play(w, events);
    FileIsClean(site, addresses, now);
    UpdateSucceedsUnlessPoisoned(site.tables, site.file, addresses, site.device, site.settings, now, clock, keys);
  }
}
