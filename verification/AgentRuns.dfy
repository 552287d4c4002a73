/** The agent as a process that can crash, over a network that can lose, delay
    and repeat its requests, beside everything else that happens to the store. */
module AgentRuns {
  import opened Addresses
  import opened Wire
  import opened DesiredState
  import opened StoreRuns
  import opened History
  import opened Controller
  import opened Agent
  import opened SelfStabilising

  /** A PUT on the wire. */
  datatype Message = Message(pending: Pending, addresses: seq<Addr>)

  /** How far one `updateOnce` has come. `Expiring` and `Rereading` are the status
      handler between its store calls. */
  datatype Process =
    | Down
    | Starting(addresses: seq<Addr>, refresh: bool)
    | Fetching(addresses: seq<Addr>, refresh: bool)
    | Expiring(addresses: seq<Addr>, refresh: bool, now: int)
    | Rereading(addresses: seq<Addr>, refresh: bool)
    | Creating(addresses: seq<Addr>, refresh: bool, ifMatch: string, ifNoneMatch: bool)
    | Ready(addresses: seq<Addr>, refresh: bool, pending: Pending)
    | Waiting(addresses: seq<Addr>, refresh: bool, pending: Pending)
    | Settling(addresses: seq<Addr>, refresh: bool, pending: Pending, verdict: Verdict)
    | Acknowledged(addresses: seq<Addr>, key: string, state: State)
    | Failed(error: AgentError)

  /** `sent` and `replies` only grow: any request may be delivered again at any
      time, and any reply ever given to it may be the one that arrives. */
  datatype Site = Site(
    tables: Tables,
    hist: map<string, seq<seq<Addr>>>,
    file: File,
    process: Process,
    sent: set<Message>,
    replies: set<(Message, Response)>,
    device: Device,
    settings: Settings)

  datatype Event =
    | Elsewhere(op: Op)
    | Start(addresses: seq<Addr>)
    | Load(readable: bool)
    | Look(now: int, readOk: bool)
    | SweepForStatus(sweepOk: bool)
    | LookAgain(readOk: bool)
    | Save(key: string, written: bool)
    | Submit
    | Deliver(message: Message, now: int, fault: Fault)
    | Receive(response: Response, now: int)
    | LoseReply
    | Clear(ok: bool, addresses: seq<Addr>)
    | Crash

  // --------------------------------------------------------------- steps

  ghost function Store(w: Site, t: Tables): Site {
    w.(tables := t, hist := Record(w.hist, t))
  }

  ghost function PutOf(w: Site, m: Message, now: int, fault: Fault): Handled {
    PutUnder(w.tables, w.device, m.pending.HeadersFor(), Document(ToWire(Canonical(m.addresses))), w.settings, now, fault)
  }

  /** New keys are random: never one already sent, and always readable. */
  ghost predicate FreshKey(w: Site, key: string) {
    SafeKey(key) && forall m :: m in w.sent ==> m.pending.key != key
  }

  ghost predicate Allowed(w: Site, e: Event) {
    match e
    case Elsewhere(op) => op.Write? ==> op.request.deviceID != w.device.id
    case Start(_) => w.process.Down? || w.process.Acknowledged? || w.process.Failed?
    case Load(_) => w.process.Starting?
    case Look(_, _) => w.process.Fetching?
    case SweepForStatus(_) => w.process.Expiring?
    case LookAgain(_) => w.process.Rereading?
    case Save(key, _) => w.process.Creating? && FreshKey(w, key)
    case Submit => w.process.Ready?
    case Deliver(m, _, _) => m in w.sent
    case Receive(r, _) => w.process.Waiting? && (Message(w.process.pending, w.process.addresses), r) in w.replies
    case LoseReply => w.process.Fetching? || w.process.Expiring? || w.process.Rereading? || w.process.Ready? || w.process.Waiting? || w.process.Creating?
    case Clear(_, _) => w.process.Settling?
    case Crash => true
  }

  ghost function AfterLoad(w: Site, readable: bool): Process
    requires w.process.Starting?
  {
    var p := w.process;
    if p.addresses == [] then Failed(NoAddressesFound)
    else if !readable then Failed(FileUnreadable)
    else if Usable(w.file, Hash(p.addresses)) then Ready(p.addresses, p.refresh, w.file.pending)
    else Fetching(p.addresses, p.refresh)
  }

  /** What the agent makes of a status reply. */
  ghost function AfterStatus(addresses: seq<Addr>, refresh: bool, r: Response): Process {
    match Fetched(r)
    case Err(e) => Failed(e)
    case Ok(c) => Creating(addresses, refresh, c.0, c.1)
  }

  /** The reply of the status handler for the row it reads now. */
  ghost function RowReply(w: Site, readOk: bool): Response {
    if !readOk then UNREADABLE
    else if w.device.id !in w.tables.intents then Failure(404, "not_found")
    else StatusReply(w.tables.intents[w.device.id], w.settings)
  }

  ghost function AfterLook(w: Site, now: int, readOk: bool): Process
    requires w.process.Fetching?
  {
    var p := w.process;
    if readOk && w.device.id in w.tables.intents && Lapsed(w.tables.intents[w.device.id], now)
    then Expiring(p.addresses, p.refresh, now)
    else AfterStatus(p.addresses, p.refresh, RowReply(w, readOk))
  }

  ghost function AfterLookAgain(w: Site, readOk: bool): Process
    requires w.process.Rereading?
  {
    var gone := w.device.id !in w.tables.intents;
    AfterStatus(w.process.addresses, w.process.refresh, RowReply(w, readOk && !gone))
  }

  /** The refresh reads the addresses again. */
  ghost function AfterClear(p: Process, ok: bool, addresses: seq<Addr>): Process
    requires p.Settling?
  {
    if p.verdict.Again? && ok then Starting(addresses, false)
    else
      match Ended(p.verdict, ok)
      case Ok(state) => Acknowledged(p.addresses, p.pending.key, state)
      case Err(e) => Failed(e)
  }

  ghost function Effect(w: Site, e: Event): Site
    requires Allowed(w, e)
  {
    var p := w.process;
    match e
    case Elsewhere(op) => Store(w, Step(w.tables, op))
    case Start(addresses) => w.(process := Starting(addresses, true))
    case Load(readable) => w.(process := AfterLoad(w, readable))
    case Look(now, readOk) => w.(process := AfterLook(w, now, readOk))
    case SweepForStatus(sweepOk) =>
      if sweepOk then Store(w, Expire(w.tables, p.now)).(process := Rereading(p.addresses, p.refresh))
      else w.(process := AfterStatus(p.addresses, p.refresh, UNREADABLE))
    case LookAgain(readOk) => w.(process := AfterLookAgain(w, readOk))
    case Save(key, written) =>
      var pending := Pending(Hash(p.addresses), key, p.ifMatch, p.ifNoneMatch);
      if written then w.(file := Saved(pending), process := Ready(p.addresses, p.refresh, pending))
      else w.(process := Failed(FileUnwritable))
    case Submit =>
      w.(sent := w.sent + {Message(p.pending, p.addresses)}, process := Waiting(p.addresses, p.refresh, p.pending))
    case Deliver(m, now, fault) =>
      var put := PutOf(w, m, now, fault);
      Store(w, put.tables).(replies := w.replies + {(m, put.response)})
    case Receive(r, now) => w.(process := Settling(p.addresses, p.refresh, p.pending, Judge(r, now, p.refresh)))
    case LoseReply => w.(process := Failed(NoReply))
    case Clear(ok, addresses) => w.(file := FileAfter(w.file, p.verdict, ok), process := AfterClear(p, ok, addresses))
    case Crash => w.(process := Down)
  }

  ghost function Next(w: Site, e: Event): Site {
    if Allowed(w, e) then Effect(w, e) else w
  }

  ghost function Play(w: Site, events: seq<Event>): Site
    decreases events
  {
    if events == [] then w else Next(Play(w, events[..|events| - 1]), events[|events| - 1])
  }

  // ----------------------------------------------------------- invariant

  ghost predicate TablesOk(w: Site) {
    && WellFormed(w.tables) && w.hist.Keys == w.tables.intents.Keys
    && forall d :: d in w.tables.intents ==> HistoryOk(w.hist[d], w.tables.intents[d])
  }

  /** A submission the agent may hold: readable, and naming a generation the
      device has had. */
  ghost predicate PendingOk(w: Site, p: Pending) {
    && p.ValidPrecondition() && SafeKey(p.key)
    && Reached(w.tables, w.device.id, PreconditionOf(p))
  }

  /** Every request sent under the key of `p` is `p`. */
  ghost predicate Sole(w: Site, p: Pending) {
    forall m :: m in w.sent && m.pending.key == p.key ==> m.pending == p
  }

  ghost predicate SentOk(w: Site) {
    forall m :: m in w.sent ==> PendingOk(w, m.pending) && Sole(w, m.pending) && Hash(m.addresses) == m.pending.payloadHash
  }

  ghost predicate GenerationHolds(w: Site, generation: int, addresses: seq<Addr>) {
    w.device.id in w.hist && 0 <= generation < |w.hist[w.device.id]| && w.hist[w.device.id][generation] == addresses
  }

  /** A stored response of this device answers a request the agent sent. */
  ghost predicate KeyOk(w: Site, key: string)
    requires (w.device.id, key) in w.tables.idempotency
  {
    var row := w.tables.idempotency[(w.device.id, key)];
    && row.response.renewAfterSeconds == w.settings.RenewAfterSeconds()
    && row.response.addresses == row.payloadHash.canonical
    && GenerationHolds(w, row.response.generation, row.payloadHash.canonical)
    && exists m :: m in w.sent && m.pending.key == key && row.payloadHash == m.pending.payloadHash
         && m.pending.ValidPrecondition() && row.preconditionKey == PreconditionOf(m.pending).Key()
  }

  ghost predicate KeysOk(w: Site) {
    forall key :: (w.device.id, key) in w.tables.idempotency ==> KeyOk(w, key)
  }

  /** The state is the response stored under the key, which is for exactly these
      addresses, and its generation named exactly them. */
  ghost predicate Acked(w: Site, key: string, addresses: seq<Addr>, state: State) {
    && (w.device.id, key) in w.tables.idempotency
    && var stored := w.tables.idempotency[(w.device.id, key)].response;
    && state == StateOf(Restore(stored), stored.renewAfterSeconds)
    && stored.addresses == Canonical(addresses)
    && GenerationHolds(w, state.generation, Canonical(addresses))
  }

  ghost predicate ReplyOk(w: Site, m: Message, r: Response) {
    && m in w.sent && m.pending.ValidPrecondition()
    && r.status != 409
    && (r.Success? ==> Acked(w, m.pending.key, m.addresses, r.state))
    && (r.status == 412 ==>
          r.Failure? && Dead(w.tables, w.device.id, PreconditionOf(m.pending))
          && (w.device.id, m.pending.key) !in w.tables.idempotency)
  }

  ghost predicate RepliesOk(w: Site) {
    forall m, r :: (m, r) in w.replies ==> ReplyOk(w, m, r)
  }

  ghost predicate FileOk(w: Site) {
    w.file.Saved? ==> PendingOk(w, w.file.pending) && Sole(w, w.file.pending)
  }

  ghost predicate ConditionOk(w: Site, ifMatch: string, ifNoneMatch: bool) {
    var p := Pending(Digest([]), "k", ifMatch, ifNoneMatch);
    p.ValidPrecondition() && Reached(w.tables, w.device.id, PreconditionOf(p))
  }

  ghost predicate ProcessOk(w: Site) {
    match w.process
    case Creating(_, _, ifMatch, ifNoneMatch) => ConditionOk(w, ifMatch, ifNoneMatch)
    case Ready(addresses, _, p) => w.file == Saved(p) && Hash(addresses) == p.payloadHash
    case Waiting(addresses, _, p) => Message(p, addresses) in w.sent
    case Settling(addresses, _, p, v) =>
      && (v.Done? ==> Acked(w, p.key, addresses, v.state))
      && (v.Stop? ==> v.error != AgentError.Refused(409))
    case Acknowledged(addresses, key, state) => Acked(w, key, addresses, state)
    case Failed(e) => e != AgentError.Refused(409)
    case _ => true
  }

  ghost predicate Inv(w: Site) {
    TablesOk(w) && SentOk(w) && KeysOk(w) && RepliesOk(w) && FileOk(w) && ProcessOk(w)
  }

  /** A newly deployed agent: nothing sent, no readable file, and no stored
      response for its device. The rest of the store is arbitrary. */
  ghost predicate Initial(w: Site) {
    && TablesOk(w) && w.sent == {} && w.replies == {} && !w.file.Saved? && w.process.Down?
    && forall key :: (w.device.id, key) !in w.tables.idempotency
  }
}
