/** The store, one publisher and the origin zone as a single machine. Each event
    is one atomic step; controller events may fall between any two publisher steps
    (`internal/publisher`). Events that the phase does not allow change nothing. */
module Publication {
  import opened Order
  import opened Addresses
  import opened Names
  import opened DesiredState
  import opened StoreRuns
  import opened History
  import opened DnsUpdate
  import opened Observer

  /** Where the publisher is. `queue` is the listed snapshot still to do. */
  datatype Phase =
    | Idle
    | Writing(queue: seq<Intent>)
    | Marking(queue: seq<Intent>)
    | Failing(queue: seq<Intent>, message: string)
    | Observing(queue: seq<Intent>, asked: nat)

  /** `hist` and `served` are history: the address set of every generation, and
      the generation last written to the origin. `names` are the hostnames the
      identity policy hands out, `servers` the number of public servers. */
  datatype World = World(
    tables: Tables,
    zone: Zone,
    phase: Phase,
    hist: map<string, seq<seq<Addr>>>,
    served: map<string, int>,
    servers: nat,
    names: set<Name>)

  datatype Event =
    | Control(op: Op)
    | ListOrigin(limit: int)
    | SkipOrigin
    | Send(exchange: Exchange, ttl: int, message: string)
    | Mark(stored: bool)
    | NoteFailure(stored: bool)
    | ListObservation(limit: int)
    | Ask(replies: ServerReplies)
    | Confirm(stored: bool)
    | EndPass
    | Crash

  // --------------------------------------------------------------- steps

  ghost function Tracked(served: map<string, int>, t: Tables): map<string, int> {
    map d | d in t.intents :: if d in served then served[d] else 0
  }

  ghost function WithTables(w: World, t: Tables): World {
    w.(tables := t, hist := Record(w.hist, t), served := Tracked(w.served, t))
  }

  predicate Allowed(w: World, e: Event) {
    match e
    case Control(op) => IsControl(op) && (op.Write? ==> op.request.hostname in w.names)
    case ListOrigin(_) => w.phase.Idle?
    case SkipOrigin => w.phase.Idle?
    case Send(_, _, _) => w.phase.Writing? && w.phase.queue != []
    case Mark(_) => w.phase.Marking? && w.phase.queue != []
    case NoteFailure(_) => w.phase.Failing? && w.phase.queue != []
    case ListObservation(_) => w.phase.Writing? && w.phase.queue == []
    case Ask(_) => w.phase.Observing? && w.phase.queue != [] && (w.phase.asked < w.servers || w.servers == 0)
    case Confirm(_) => w.phase.Observing? && w.phase.queue != [] && w.phase.asked == w.servers > 0
    case EndPass => (w.phase.Writing? || w.phase.Observing?) && w.phase.queue == []
    case Crash => true
  }

  ghost function Effect(w: World, e: Event): World
    requires Allowed(w, e)
  {
    match e
    case Control(op) => WithTables(w, Step(w.tables, op))
    case ListOrigin(limit) => w.(phase := Writing(Listing(w.tables, OriginBacklog, limit)))
    case SkipOrigin => w.(phase := Writing([]))
    case Send(exchange, ttl, message) =>
      var q := w.phase.queue;
      var p := if exchange.Acknowledged? then Marking(q) else Failing(q, message);
      if exchange.Refused? then w.(phase := p)
      else w.(zone := ApplyAll(w.zone, Replacement(q[0].hostname, q[0].addresses, ttl)),
              served := w.served[q[0].deviceID := q[0].generation],
              phase := p)
    case Mark(stored) =>
      var q := w.phase.queue;
      w.(tables := if stored then DesiredState.MarkOriginApplied(w.tables, q[0].deviceID, q[0].generation) else w.tables,
         phase := Writing(q[1..]))
    case NoteFailure(stored) =>
      var q := w.phase.queue;
      w.(tables := if stored then DesiredState.MarkPublicationError(w.tables, q[0].deviceID, q[0].generation, w.phase.message) else w.tables,
         phase := Writing(q[1..]))
    case ListObservation(limit) => w.(phase := Observing(Listing(w.tables, ObservationBacklog, limit), 0))
    case Ask(replies) =>
      var q := w.phase.queue;
      if w.servers > 0 && Agrees(replies, q[0].hostname, q[0].addresses)
      then w.(phase := Observing(q, w.phase.asked + 1))
      else w.(phase := Observing(q[1..], 0))
    case Confirm(stored) =>
      var q := w.phase.queue;
      w.(tables := if stored then DesiredState.MarkPubliclyObserved(w.tables, q[0].deviceID, q[0].generation) else w.tables,
         phase := Observing(q[1..], 0))
    case EndPass => w.(phase := Idle)
    case Crash => w.(phase := Idle)
  }

  ghost function Next(w: World, e: Event): World {
    if Allowed(w, e) then Effect(w, e) else w
  }

  ghost function Play(w: World, events: seq<Event>): World
    decreases events
  {
    if events == [] then w else Next(Play(w, events[..|events| - 1]), events[|events| - 1])
  }

  // ------------------------------------------------- asking about one row

  ghost function Controls(ops: seq<Op>): seq<Event> {
    seq(|ops|, k requires 0 <= k < |ops| => Control(ops[k]))
  }

  /** The servers from the k-th on are asked in turn, up to the first that does not
      agree, with `between(k)` falling before the k-th. */
  ghost function AsksFrom(item: Intent, replies: seq<ServerReplies>, between: nat -> seq<Op>, k: nat): seq<Event>
    decreases |replies| - k
  {
    if k >= |replies| then []
    else
      Controls(between(k)) + [Ask(replies[k])]
      + if Agrees(replies[k], item.hostname, item.addresses) then AsksFrom(item, replies, between, k + 1) else []
  }

  ghost function AskEvents(item: Intent, replies: seq<ServerReplies>, between: nat -> seq<Op>): seq<Event> {
    if replies == [] then [Ask(ServerReplies(NoReply, NoReply))] else AsksFrom(item, replies, between, 0)
  }

  ghost predicate AllAgree(item: Intent, replies: seq<ServerReplies>) {
    replies != [] && forall k :: 0 <= k < |replies| ==> Agrees(replies[k], item.hostname, item.addresses)
  }

  // ----------------------------------------------------------- invariant

  ghost predicate DeviceOk(w: World, d: string)
    requires d in w.tables.intents
  {
    var row := w.tables.intents[d];
    && d in w.hist && d in w.served
    && HistoryOk(w.hist[d], row)
    && row.originApplied <= w.served[d] <= row.generation && 0 <= w.served[d]
    && row.hostname in w.names
    && AddressesAt(w.zone, row.hostname) == Elements(w.hist[d][w.served[d]])
    && (row.lastError != "" ==> row.originApplied < row.generation)
  }

  /** The publisher is the only writer of the handed-out names. */
  ghost predicate NamesOk(w: World) {
    && (forall n :: n in w.names ==> !HasAlias(w.zone, n))
    && (forall n :: n in w.names && !HostnameInUse(w.tables, n) ==> AddressesAt(w.zone, n) == {})
  }

  /** A listed row is a generation its device has had. */
  ghost predicate Known(w: World, item: Intent) {
    var d := item.deviceID;
    && d in w.tables.intents && d in w.hist && d in w.served
    && w.tables.intents[d].hostname == item.hostname
    && 1 <= item.generation <= w.tables.intents[d].generation
    && item.generation < |w.hist[d]| && w.hist[d][item.generation] == item.addresses
  }

  ghost predicate Unapplied(w: World, item: Intent)
    requires Known(w, item)
  {
    var row := w.tables.intents[item.deviceID];
    row.generation == item.generation ==> row.originApplied < row.generation
  }

  ghost predicate ToWrite(w: World, item: Intent) {
    Known(w, item) && w.served[item.deviceID] <= item.generation && Unapplied(w, item)
  }

  ghost predicate AtOrigin(w: World, item: Intent) {
    Known(w, item) && w.served[item.deviceID] == item.generation
  }

  ghost predicate ToObserve(w: World, item: Intent) {
    Known(w, item) && w.served[item.deviceID] >= item.generation
  }

  ghost predicate OncePerDevice(q: seq<Intent>) {
    forall i, j :: 0 <= i < j < |q| ==> q[i].deviceID != q[j].deviceID
  }

  ghost predicate PhaseOk(w: World) {
    match w.phase
    case Idle => true
    case Writing(q) => OncePerDevice(q) && forall i :: 0 <= i < |q| ==> ToWrite(w, q[i])
    case Marking(q) =>
      && OncePerDevice(q) && q != []
      && (forall i :: 1 <= i < |q| ==> ToWrite(w, q[i]))
      && AtOrigin(w, q[0])
    case Failing(q, _) => OncePerDevice(q) && q != [] && forall i :: 0 <= i < |q| ==> ToWrite(w, q[i])
    case Observing(q, asked) => OncePerDevice(q) && asked <= w.servers && forall i :: 0 <= i < |q| ==> ToObserve(w, q[i])
  }

  ghost predicate Inv(w: World) {
    && WellFormed(w.tables)
    && w.hist.Keys == w.tables.intents.Keys && w.served.Keys == w.tables.intents.Keys
    && (forall d :: d in w.tables.intents ==> DeviceOk(w, d))
    && NamesOk(w)
    && PhaseOk(w)
  }

  /** An empty store over a zone that is clean at the handed-out names. */
  ghost predicate Initial(w: World) {
    && w.tables == Tables(map[], map[]) && w.hist == map[] && w.served == map[] && w.phase.Idle?
    && forall n :: n in w.names ==> !HasAlias(w.zone, n) && AddressesAt(w.zone, n) == {}
  }

  /** What one step, and so a whole run, may do: the tables advance, histories
      only grow, and the origin never goes back to an older generation. */
  ghost predicate Moves(w: World, w': World) {
    && w'.names == w.names && w'.servers == w.servers
    && Advances(w.tables, w'.tables)
    && (forall d :: d in w.tables.intents ==>
          && d in w.hist && d in w'.hist && w.hist[d] <= w'.hist[d]
          && d in w.served && d in w'.served && w.served[d] <= w'.served[d])
  }
}
