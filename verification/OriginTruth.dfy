/** The origin always serves some generation of each device, between the one
    marked applied and the current one, and never goes back. */
module OriginTruth {
  import opened Order
  import opened Addresses
  import opened Names
  import opened DesiredState
  import opened StoreRuns
  import opened History
  import opened DnsUpdate
  import opened Observer
  import opened Publication

  lemma KeptDevice(w: World, u: Tables, d: string)
    requires d in w.tables.intents && d in u.intents && DeviceOk(w, d)
    requires RowOk(d, u.intents[d]) && ControlRow(w.tables.intents[d], u.intents[d])
    ensures
      var w' := WithTables(w, u);
      DeviceOk(w', d) && w.hist[d] <= w'.hist[d] && w'.served[d] == w.served[d]
  {
  }

  lemma NewDevice(w: World, u: Tables, d: string)
    requires d !in w.hist && d !in w.served && d in u.intents
    requires RowOk(d, u.intents[d]) && FreshRow(u.intents[d])
    requires u.intents[d].hostname in w.names && AddressesAt(w.zone, u.intents[d].hostname) == {}
    ensures DeviceOk(WithTables(w, u), d)
  {
  }

  lemma KnownAfterControl(w: World, u: Tables, item: Intent)
    requires Known(w, item) && item.deviceID in u.intents && DeviceOk(w, item.deviceID)
    requires RowOk(item.deviceID, u.intents[item.deviceID])
    requires ControlRow(w.tables.intents[item.deviceID], u.intents[item.deviceID])
    ensures
      var w' := WithTables(w, u);
      && Known(w', item) && w'.served[item.deviceID] == w.served[item.deviceID]
      && (Unapplied(w, item) ==> Unapplied(w', item))
  {
    KeptDevice(w, u, item.deviceID);
    hide DeviceOk, IsCanonical, Extended;
  }

  /** A listed row keeps its standing while the controller moves on. */
  lemma ItemAfterControl(w: World, u: Tables, item: Intent)
    requires Inv(w) && WellFormed(u) && ControlMoves(w.tables, u)
    ensures
      var w' := WithTables(w, u);
      && (ToWrite(w, item) ==> ToWrite(w', item))
      && (AtOrigin(w, item) ==> AtOrigin(w', item))
      && (ToObserve(w, item) ==> ToObserve(w', item))
  {
    var d := item.deviceID;
    assert d in w.tables.intents ==> DeviceOk(w, d);
    assert d in w.tables.intents ==> d in u.intents && ControlRow(w.tables.intents[d], u.intents[d]);
    assert d in u.intents ==> RowOk(d, u.intents[d]);
    hide DeviceOk, RowOk, ControlRow, Inv, WellFormed, ControlMoves, WithTables;
    if Known(w, item) {
      KnownAfterControl(w, u, item);
    }
  }

  lemma ControlKeepsPhase(w: World, u: Tables)
    requires Inv(w) && WellFormed(u) && ControlMoves(w.tables, u)
    ensures PhaseOk(WithTables(w, u))
  {
    hide ToWrite, AtOrigin, ToObserve, WellFormed, ControlMoves, WithTables;
    assert WithTables(w, u).phase == w.phase && WithTables(w, u).servers == w.servers by { PhaseUntouched(w, u); }
    if !w.phase.Idle? {
      var q := w.phase.queue;
      forall i | 0 <= i < |q|
        ensures var w' := WithTables(w, u);
          && (ToWrite(w, q[i]) ==> ToWrite(w', q[i]))
          && (AtOrigin(w, q[i]) ==> AtOrigin(w', q[i]))
          && (ToObserve(w, q[i]) ==> ToObserve(w', q[i]))
      {
        ItemAfterControl(w, u, q[i]);
      }
    }
  }

  lemma PhaseUntouched(w: World, u: Tables)
    ensures WithTables(w, u).phase == w.phase && WithTables(w, u).servers == w.servers
  {
  }

  lemma ControlKeepsNames(w: World, u: Tables)
    requires NamesOk(w) && ControlMoves(w.tables, u)
    ensures NamesOk(WithTables(w, u))
  {
  }

  lemma ControlKeepsDevice(w: World, u: Tables, d: string)
    requires Inv(w) && WellFormed(u) && ControlMoves(w.tables, u) && d in u.intents
    requires d !in w.tables.intents ==> u.intents[d].hostname in w.names
    ensures DeviceOk(WithTables(w, u), d)
    ensures d in w.tables.intents ==>
      var w' := WithTables(w, u);
      d in w.hist && d in w.served && w.hist[d] <= w'.hist[d] && w'.served[d] == w.served[d]
  {
    assert RowOk(d, u.intents[d]);
    if d in w.tables.intents {
      assert DeviceOk(w, d) && ControlRow(w.tables.intents[d], u.intents[d]);
      KeptDevice(w, u, d);
    } else {
      HostnameWasFree(w.tables, u, d);
      NewDevice(w, u, d);
    }
  }

  lemma ControlKeeps(w: World, op: Op)
    requires Inv(w) && Allowed(w, Control(op))
    ensures Inv(Next(w, Control(op))) && Moves(w, Next(w, Control(op)))
  {
    hide Step, DeviceOk, PhaseOk, NamesOk, WellFormed, ControlMoves, Advances, Extended;
    var u := Step(w.tables, op);
    var w' := WithTables(w, u);
    ControlOpMoves(w.tables, op);
    forall d | d in u.intents
      ensures DeviceOk(w', d)
      ensures d in w.tables.intents ==>
        d in w.hist && d in w.served && w.hist[d] <= w'.hist[d] && w'.served[d] == w.served[d]
    {
      ControlKeepsDevice(w, u, d);
    }
    ControlKeepsNames(w, u);
    ControlKeepsPhase(w, u);
  }

  /** Hostnames are unique, so a new row's hostname was free. */
  lemma HostnameWasFree(t: Tables, u: Tables, d: string)
    requires WellFormed(u) && ControlMoves(t, u) && d in u.intents && d !in t.intents
    ensures !HostnameInUse(t, u.intents[d].hostname)
  {
  }

  // ------------------------------------------------------------- listing

  lemma ListedIsKnown(w: World, which: Backlog, limit: int, i: nat)
    requires Inv(w) && i < |Listing(w.tables, which, limit)|
    ensures
      var item := Listing(w.tables, which, limit)[i];
      && Known(w, item) && item == w.tables.intents[item.deviceID] && Pending(item, which)
      && item.deviceID == FirstPending(w.tables, which, limit)[i]
  {
    var d := FirstPending(w.tables, which, limit)[i];
    assert DeviceOk(w, d) && RowOk(d, w.tables.intents[d]);
    hide IsCanonical;
  }

  /** A step that only moves the publisher. */
  lemma PhaseOnly(w: World, p: Phase)
    requires Inv(w) && PhaseOk(w.(phase := p))
    ensures Inv(w.(phase := p)) && Moves(w, w.(phase := p))
  {
    hide PhaseOk, WellFormed, HistoryOk, AddressesAt, HasAlias, HostnameInUse;
    var w' := w.(phase := p);
    Unmoved(w.tables);
    forall d | d in w.tables.intents ensures DeviceOk(w', d) {
      assert DeviceOk(w, d);
    }
  }

  lemma ListedStanding(w: World, which: Backlog, limit: int, i: nat, p: Phase)
    requires Inv(w) && i < |Listing(w.tables, which, limit)|
    ensures
      var item := Listing(w.tables, which, limit)[i];
      if which.OriginBacklog? then ToWrite(w.(phase := p), item) else ToObserve(w.(phase := p), item)
  {
    hide Listing, DeviceOk, NamesOk, PhaseOk, WellFormed, Inv, ToWrite, ToObserve, Pending;
    ListedIsKnown(w, which, limit, i);
    DeviceOfInv(w, Listing(w.tables, which, limit)[i].deviceID);
    PendingStanding(w, which, Listing(w.tables, which, limit)[i], p);
  }

  lemma DeviceOfInv(w: World, d: string)
    requires Inv(w) && d in w.tables.intents
    ensures DeviceOk(w, d)
  {
    hide DeviceOk, NamesOk, PhaseOk, WellFormed;
  }

  /** A pending row is one still to write, or one already written. */
  lemma PendingStanding(w: World, which: Backlog, item: Intent, p: Phase)
    requires Known(w, item) && DeviceOk(w, item.deviceID)
    requires item == w.tables.intents[item.deviceID] && Pending(item, which)
    ensures if which.OriginBacklog? then ToWrite(w.(phase := p), item) else ToObserve(w.(phase := p), item)
  {
    hide HistoryOk, AddressesAt, Elements;
  }

  lemma ListedOnce(w: World, which: Backlog, limit: int)
    requires Inv(w)
    ensures OncePerDevice(Listing(w.tables, which, limit))
  {
    var q := Listing(w.tables, which, limit);
    forall i | 0 <= i < |q| ensures q[i].deviceID == FirstPending(w.tables, which, limit)[i] {
      ListedIsKnown(w, which, limit, i);
    }
    assert Distinct(FirstPending(w.tables, which, limit));
    hide FirstPending, Inv;
  }

  lemma ListingKeeps(w: World, e: Event)
    requires Inv(w) && Allowed(w, e) && (e.ListOrigin? || e.ListObservation?)
    ensures Inv(Next(w, e)) && Moves(w, Next(w, e))
  {
    hide Inv, Moves, ToWrite, ToObserve, Listing;
    var which := if e.ListOrigin? then OriginBacklog else ObservationBacklog;
    var q := Listing(w.tables, which, e.limit);
    var p := if e.ListOrigin? then Writing(q) else Observing(q, 0);
    forall i | 0 <= i < |q|
      ensures if e.ListOrigin? then ToWrite(w.(phase := p), q[i]) else ToObserve(w.(phase := p), q[i])
    {
      ListedStanding(w, which, e.limit, i, p);
    }
    ListedOnce(w, which, e.limit);
    PhaseOnly(w, p);
  }

  // ------------------------------------------------------------- writing

  lemma ZoneAtOtherNames(w: World, item: Intent, ttl: int, z: Zone, n: Name)
    requires Assigned(w.zone, item.hostname, Elements(item.addresses), ttl, z)
    ensures HasAlias(z, n) <==> HasAlias(w.zone, n)
    ensures AddressesAt(z, n) == if n == item.hostname then Elements(item.addresses) else AddressesAt(w.zone, n)
  {
  }

  /** The world after the head of the queue reached the origin. */
  ghost function Sent(w: World, item: Intent, z: Zone, p: Phase): World {
    w.(zone := z, served := w.served[item.deviceID := item.generation], phase := p)
  }

  lemma SentDevice(w: World, item: Intent, ttl: int, z: Zone, p: Phase, d: string)
    requires Inv(w) && ToWrite(w, item) && d in w.tables.intents
    requires Assigned(w.zone, item.hostname, Elements(item.addresses), ttl, z)
    ensures DeviceOk(Sent(w, item, z, p), d)
    ensures d in w.hist && d in w.served && w.served[d] <= Sent(w, item, z, p).served[d]
  {
    assert DeviceOk(w, d) && DeviceOk(w, item.deviceID);
    assert d != item.deviceID ==> w.tables.intents[d].hostname != item.hostname;
    hide WellFormed, PhaseOk, NamesOk;
    ZoneAtOtherNames(w, item, ttl, z, w.tables.intents[d].hostname);
    hide IsCanonical, Assigned, AddressesAt;
  }

  lemma SentItem(w: World, item: Intent, z: Zone, p: Phase, other: Intent)
    requires ToWrite(w, item) && ToWrite(w, other)
    ensures ToWrite(Sent(w, item, z, p), other) || other.deviceID == item.deviceID
    ensures ToWrite(Sent(w, item, z, p), item) && AtOrigin(Sent(w, item, z, p), item)
  {
  }

  lemma SentPhase(w: World, item: Intent, z: Zone, p: Phase)
    requires Inv(w) && w.phase.Writing? && w.phase.queue != [] && item == w.phase.queue[0]
    requires p == Marking(w.phase.queue) || (p.Failing? && p.queue == w.phase.queue)
    ensures PhaseOk(Sent(w, item, z, p))
  {
    var q := w.phase.queue;
    forall i | 0 <= i < |q| ensures ToWrite(Sent(w, item, z, p), q[i]) {
      SentItem(w, item, z, p, q[i]);
    }
    SentItem(w, item, z, p, item);
    hide ToWrite, AtOrigin, WellFormed, DeviceOk, NamesOk;
  }

  lemma SentNames(w: World, item: Intent, ttl: int, z: Zone, p: Phase)
    requires NamesOk(w) && ToWrite(w, item)
    requires Assigned(w.zone, item.hostname, Elements(item.addresses), ttl, z)
    ensures NamesOk(Sent(w, item, z, p))
  {
  }

  lemma HeadToWrite(w: World)
    requires Inv(w) && w.phase.Writing? && w.phase.queue != []
    ensures ToWrite(w, w.phase.queue[0]) && w.phase.queue[0].deviceID in w.served
    ensures NamesOk(w)
  {
  }

  lemma HeadIsPlain(w: World)
    requires Inv(w) && w.phase.Writing? && w.phase.queue != []
    ensures
      var item := w.phase.queue[0];
      Unmapped(item.addresses) == Elements(item.addresses) && !HasAlias(w.zone, item.hostname)
  {
  }

  /** A step that leaves the tables alone. */
  lemma SameTables(w: World, w': World)
    requires Inv(w)
    requires w'.tables == w.tables && w'.hist == w.hist && w'.names == w.names && w'.servers == w.servers
    requires w'.served.Keys == w.served.Keys
    requires forall d :: d in w.tables.intents ==>
      DeviceOk(w', d) && d in w.hist && d in w.served && d in w'.served && w.served[d] <= w'.served[d]
    requires NamesOk(w') && PhaseOk(w')
    ensures Inv(w') && Moves(w, w')
  {
  }

  lemma ServedKeeps(w: World, item: Intent, ttl: int, z: Zone, p: Phase)
    requires Inv(w) && w.phase.Writing? && w.phase.queue != [] && item == w.phase.queue[0]
    requires Assigned(w.zone, item.hostname, Elements(item.addresses), ttl, z)
    requires p == Marking(w.phase.queue) || (p.Failing? && p.queue == w.phase.queue)
    ensures Inv(Sent(w, item, z, p)) && Moves(w, Sent(w, item, z, p))
  {
    hide Inv, Moves, DeviceOk, NamesOk, PhaseOk, ToWrite, Assigned, Known;
    HeadToWrite(w);
    forall d | d in w.tables.intents
      ensures DeviceOk(Sent(w, item, z, p), d)
      ensures d in w.hist && d in w.served && w.served[d] <= Sent(w, item, z, p).served[d]
    {
      SentDevice(w, item, ttl, z, p, d);
    }
    SentNames(w, item, ttl, z, p);
    SentPhase(w, item, z, p);
    SameTables(w, Sent(w, item, z, p));
  }

  lemma SendKeeps(w: World, e: Event)
    requires Inv(w) && Allowed(w, e) && e.Send?
    ensures Inv(Next(w, e)) && Moves(w, Next(w, e))
  {
    hide Inv, Moves, Assigned, HasAlias;
    var q := w.phase.queue;
    var item := q[0];
    if e.exchange.Refused? {
      RefusedPhase(w, e.message);
      PhaseOnly(w, Failing(q, e.message));
    } else {
      HeadIsPlain(w);
      ReplacementAssigns(w.zone, item.hostname, item.addresses, e.ttl);
      var z := ApplyAll(w.zone, Replacement(item.hostname, item.addresses, e.ttl));
      var p := if e.exchange.Acknowledged? then Marking(q) else Failing(q, e.message);
      ServedKeeps(w, item, e.ttl, z, p);
    }
  }

  lemma RefusedPhase(w: World, message: string)
    requires Inv(w) && w.phase.Writing? && w.phase.queue != []
    ensures PhaseOk(w.(phase := Failing(w.phase.queue, message)))
  {
  }

  // ------------------------------------------------------------- marking

  ghost function Marked(w: World, d: string, row: Intent, p: Phase): World {
    w.(tables := w.tables.(intents := w.tables.intents[d := row]), phase := p)
  }

  /** Only the publication fields of the row change. */
  ghost predicate MarksRow(w: World, d: string, row: Intent) {
    && d in w.tables.intents && d in w.served && RowOk(d, row) && RowAdvances(w.tables.intents[d], row)
    && row.generation == w.tables.intents[d].generation && row.originApplied <= w.served[d]
    && (row.lastError != "" ==> row.originApplied < row.generation)
  }

  lemma MarkedDevice(w: World, d: string, row: Intent, p: Phase, e: string)
    requires Inv(w) && MarksRow(w, d, row) && e in w.tables.intents
    ensures DeviceOk(Marked(w, d, row, p), e) && e in w.hist && e in w.served
  {
    hide AddressesAt, IsCanonical, NamesOk, PhaseOk, HostnameInUse, HasAlias, Elements;
    assert DeviceOk(w, e);
    hide WellFormed;
  }

  lemma MarkedNames(w: World, d: string, row: Intent, p: Phase)
    requires Inv(w) && MarksRow(w, d, row)
    ensures NamesOk(Marked(w, d, row, p))
  {
    hide HasAlias, AddressesAt, PhaseOk, DeviceOk, WellFormed;
    var w' := Marked(w, d, row, p);
    forall n | HostnameInUse(w.tables, n) ensures HostnameInUse(w'.tables, n) {
      var e :| e in w.tables.intents && w.tables.intents[e].hostname == n;
      assert w'.tables.intents[e].hostname == n;
    }
  }

  lemma MarkedKeeps(w: World, d: string, row: Intent, p: Phase)
    requires Inv(w) && MarksRow(w, d, row) && PhaseOk(Marked(w, d, row, p))
    ensures Inv(Marked(w, d, row, p)) && Moves(w, Marked(w, d, row, p))
  {
    hide DeviceOk, NamesOk, PhaseOk, WellFormed, Advances;
    var w' := Marked(w, d, row, p);
    ReplaceRow(w.tables, d, row);
    forall e | e in w.tables.intents ensures DeviceOk(w', e) && e in w.hist && e in w.served {
      MarkedDevice(w, d, row, p, e);
    }
    MarkedNames(w, d, row, p);
  }

  /** Marking one device leaves the standing of the others. */
  lemma MarkedItem(w: World, d: string, row: Intent, p: Phase, item: Intent)
    requires MarksRow(w, d, row) && item.deviceID != d
    ensures ToWrite(w, item) ==> ToWrite(Marked(w, d, row, p), item)
    ensures ToObserve(w, item) ==> ToObserve(Marked(w, d, row, p), item)
  {
  }

  ghost function TailPhase(w: World): Phase
    requires !w.phase.Idle? && w.phase.queue != []
  {
    if w.phase.Observing? then Observing(w.phase.queue[1..], 0) else Writing(w.phase.queue[1..])
  }

  lemma TailMarked(w: World, d: string, row: Intent)
    requires Inv(w) && !w.phase.Idle? && w.phase.queue != [] && d == w.phase.queue[0].deviceID
    requires MarksRow(w, d, row)
    ensures PhaseOk(Marked(w, d, row, TailPhase(w)))
  {
    hide ToWrite, ToObserve, AtOrigin, MarksRow, DeviceOk, NamesOk, WellFormed;
    var q := w.phase.queue;
    forall i | 1 <= i < |q|
      ensures ToWrite(w, q[i]) ==> ToWrite(Marked(w, d, row, TailPhase(w)), q[i])
      ensures ToObserve(w, q[i]) ==> ToObserve(Marked(w, d, row, TailPhase(w)), q[i])
    {
      MarkedItem(w, d, row, TailPhase(w), q[i]);
    }
  }

  /** What the three marks do when they take effect. */
  ghost function MarkOf(w: World): Intent
    requires !w.phase.Idle? && w.phase.queue != [] && w.phase.queue[0].deviceID in w.tables.intents
  {
    var row := w.tables.intents[w.phase.queue[0].deviceID];
    match w.phase
    case Marking(_) => row.(originApplied := row.generation, lastError := "")
    case Failing(_, message) => row.(lastError := message)
    case _ => row.(publicObserved := row.generation)
  }

  predicate IsMark(e: Event) {
    e.Mark? || e.NoteFailure? || e.Confirm?
  }

  /** What a listed row knows of its device when its mark comes. */
  lemma HeadStanding(w: World, e: Event)
    requires Inv(w) && Allowed(w, e) && IsMark(e)
    ensures
      var item := w.phase.queue[0];
      var d := item.deviceID;
      && Known(w, item) && RowOk(d, w.tables.intents[d])
      && w.tables.intents[d].originApplied <= w.served[d] <= w.tables.intents[d].generation
      && (w.tables.intents[d].lastError != "" ==> w.tables.intents[d].originApplied < w.tables.intents[d].generation)
      && (e.Mark? ==> w.served[d] == item.generation)
      && (e.NoteFailure? ==> Unapplied(w, item))
      && (e.Confirm? ==> w.served[d] >= item.generation)
  {
    var item := w.phase.queue[0];
    match e {
      case Mark(_) => assert AtOrigin(w, item);
      case NoteFailure(_) => assert ToWrite(w, item);
      case Confirm(_) => assert ToObserve(w, item);
    }
    assert DeviceOk(w, item.deviceID);
    hide PhaseOk, NamesOk, HistoryOk, AddressesAt, IsCanonical;
  }

  lemma MarkShape(w: World, e: Event)
    requires Inv(w) && Allowed(w, e) && IsMark(e)
    ensures
      var q := w.phase.queue;
      var d := q[0].deviceID;
      && d in w.tables.intents
      && (Next(w, e) == w.(phase := TailPhase(w)) ||
          (MarksRow(w, d, MarkOf(w)) && Next(w, e) == Marked(w, d, MarkOf(w), TailPhase(w))))
  {
    hide Inv, IsCanonical;
    HeadStanding(w, e);
  }

  lemma MarkKeeps(w: World, e: Event)
    requires Inv(w) && Allowed(w, e) && IsMark(e)
    ensures Inv(Next(w, e)) && Moves(w, Next(w, e))
  {
    MarkShape(w, e);
    PhaseOfInv(w);
    hide PhaseOk;
    var d := w.phase.queue[0].deviceID;
    if Next(w, e) == w.(phase := TailPhase(w)) {
      TailUnmarked(w);
      PhaseOnly(w, TailPhase(w));
    } else {
      hide Inv, Moves, MarksRow, Next, MarkOf;
      TailMarked(w, d, MarkOf(w));
      MarkedKeeps(w, d, MarkOf(w), TailPhase(w));
    }
  }

  lemma PhaseOfInv(w: World)
    requires Inv(w)
    ensures PhaseOk(w)
  {
  }

  lemma TailUnmarked(w: World)
    requires PhaseOk(w) && !w.phase.Idle? && w.phase.queue != []
    ensures PhaseOk(w.(phase := TailPhase(w)))
  {
  }

  lemma AskedPhase(w: World)
    requires PhaseOk(w) && w.phase.Observing? && w.phase.asked < w.servers
    ensures PhaseOk(w.(phase := Observing(w.phase.queue, w.phase.asked + 1)))
  {
  }

  lemma AskKeeps(w: World, e: Event)
    requires Inv(w) && Allowed(w, e) && e.Ask?
    ensures Inv(Next(w, e)) && Moves(w, Next(w, e))
  {
    hide Inv, Moves, Agrees, PhaseOk;
    PhaseOfInv(w);
    if Next(w, e).phase == TailPhase(w) {
      TailUnmarked(w);
      PhaseOnly(w, TailPhase(w));
    } else {
      AskedPhase(w);
      PhaseOnly(w, Observing(w.phase.queue, w.phase.asked + 1));
    }
  }

  // ------------------------------------------------------------ the runs

  lemma NextKeeps(w: World, e: Event)
    requires Inv(w)
    ensures Inv(Next(w, e)) && Moves(w, Next(w, e))
  {
    hide Inv, Moves;
    if !Allowed(w, e) {
      Stays(w);
      return;
    }
    match e
    case Control(op) => ControlKeeps(w, op);
    case ListOrigin(_) => ListingKeeps(w, e);
    case ListObservation(_) => ListingKeeps(w, e);
    case Send(_, _, _) => SendKeeps(w, e);
    case Mark(_) => MarkKeeps(w, e);
    case NoteFailure(_) => MarkKeeps(w, e);
    case Confirm(_) => MarkKeeps(w, e);
    case Ask(_) => AskKeeps(w, e);
    case SkipOrigin => PhaseOnly(w, Writing([]));
    case EndPass => PhaseOnly(w, Idle);
    case Crash => PhaseOnly(w, Idle);
  }

  lemma Stays(w: World)
    requires Inv(w)
    ensures Moves(w, w)
  {
  }

  lemma MovesTransitive(a: World, b: World, c: World)
    requires Moves(a, b) && Moves(b, c)
    ensures Moves(a, c)
  {
  }

  lemma InitialInv(w: World)
    requires Initial(w)
    ensures Inv(w)
  {
  }

  lemma {:induction false} PlayKeeps(w: World, events: seq<Event>)
    requires Inv(w)
    ensures Inv(Play(w, events)) && Moves(w, Play(w, events))
    decreases events
  {
    hide Inv, Moves;
    if events == [] {
      Stays(w);
    } else {
      var front := events[..|events| - 1];
      PlayKeeps(w, front);
      NextKeeps(Play(w, front), events[|events| - 1]);
      MovesTransitive(w, Play(w, front), Play(w, events));
    }
  }

  lemma {:induction false} PlayAppend(w: World, a: seq<Event>, b: seq<Event>)
    ensures Play(w, a + b) == Play(Play(w, a), b)
    decreases b
  {
    if b == [] {
      assert a + b == a;
    } else {
      var ab := a + b;
      assert ab[..|ab| - 1] == a + b[..|b| - 1];
      PlayAppend(w, a, b[..|b| - 1]);
    }
  }

  lemma BetweenPoints(w: World, events: seq<Event>, i: nat, j: nat)
    requires Inv(w) && i <= j <= |events|
    ensures Inv(Play(w, events[..i])) && Inv(Play(w, events[..j]))
    ensures Moves(Play(w, events[..i]), Play(w, events[..j]))
  {
    hide Inv, Moves;
    PlayKeeps(w, events[..i]);
    PlayKeeps(Play(w, events[..i]), events[i..j]);
    PlayAppend(w, events[..i], events[i..j]);
    assert events[..i] + events[i..j] == events[..j];
  }

  // -------------------------------------------------------- main results

  lemma ReachableDevice(w: World, events: seq<Event>, d: string)
    requires Initial(w)
    ensures
      var now := Play(w, events);
      Inv(now) && (d in now.tables.intents ==> DeviceOk(now, d))
  {
    hide DeviceOk, Play, WellFormed, NamesOk, PhaseOk;
    InitialInv(w);
    PlayKeeps(w, events);
  }

  /** In every reachable world the origin shows, at a device's hostname, exactly
      one of the generations from origin_applied to the current one. */
  lemma OriginServesAGeneration(w: World, events: seq<Event>, d: string)
    requires Initial(w)
    ensures
      var now := Play(w, events);
      d in now.tables.intents ==>
        var row := now.tables.intents[d];
        && d in now.hist && |now.hist[d]| == row.generation + 1
        && exists k :: 0 <= k && row.originApplied <= k <= row.generation
             && AddressesAt(now.zone, row.hostname) == Elements(now.hist[d][k])
  {
    ReachableDevice(w, events, d);
    hide Initial, Play, IsCanonical, AddressesAt;
  }

  /** `origin-applied` is the truth: the origin then shows the row's own addresses. */
  lemma AppliedMeansServed(w: World, events: seq<Event>, d: string)
    requires Initial(w)
    ensures
      var now := Play(w, events);
      d in now.tables.intents && now.tables.intents[d].originApplied == now.tables.intents[d].generation ==>
        AddressesAt(now.zone, now.tables.intents[d].hostname) == Elements(now.tables.intents[d].addresses)
  {
    hide Initial, Play, Inv, DeviceOk, AddressesAt, Elements;
    ReachableDevice(w, events, d);
    var now := Play(w, events);
    if d in now.tables.intents {
      DeviceServes(now, d);
    }
  }

  lemma DeviceServes(w: World, d: string)
    requires d in w.tables.intents && DeviceOk(w, d)
    ensures
      var row := w.tables.intents[d];
      row.originApplied == row.generation ==> AddressesAt(w.zone, row.hostname) == Elements(row.addresses)
  {
    hide IsCanonical, AddressesAt, Elements;
  }

  /** A recorded publication error belongs to a row still waiting for the origin. */
  lemma ErrorMeansPending(w: World, events: seq<Event>, d: string)
    requires Initial(w)
    ensures
      var now := Play(w, events);
      d in now.tables.intents && now.tables.intents[d].lastError != "" ==> Pending(now.tables.intents[d], OriginBacklog)
  {
    ReachableDevice(w, events, d);
    hide Initial, Play, IsCanonical, AddressesAt;
  }

  /** The generation the origin shows for a device. */
  ghost function Shown(w: World, d: string): int {
    if d in w.served then w.served[d] else 0
  }

  lemma ShownAt(w: World, events: seq<Event>, i: nat, j: nat, d: string)
    requires Initial(w) && i <= j <= |events|
    ensures
      var early, late := Play(w, events[..i]), Play(w, events[..j]);
      && 0 <= Shown(early, d) <= Shown(late, d)
      && (d in early.tables.intents ==>
            var row := early.tables.intents[d];
            && d in late.hist && row.originApplied <= Shown(early, d) <= row.generation && Shown(early, d) < |late.hist[d]|
            && AddressesAt(early.zone, row.hostname) == Elements(late.hist[d][Shown(early, d)]))
  {
    InitialInv(w);
    BetweenPoints(w, events, i, j);
    var early, late := Play(w, events[..i]), Play(w, events[..j]);
    assert d in early.tables.intents ==> DeviceOk(early, d);
    assert d in late.tables.intents ==> DeviceOk(late, d);
    hide Inv, IsCanonical, AddressesAt, Play;
    if d in early.tables.intents {
      var k := early.served[d];
      assert late.hist[d][k] == early.hist[d][k];
    }
  }

  /** The origin never goes back: over a whole run the generations it shows form
      one ascending sequence, each within its row's bounds at that moment and each
      naming the addresses the final history keeps for it. */
  lemma OriginNeverReverts(w: World, events: seq<Event>, d: string) returns (shown: seq<int>)
    requires Initial(w)
    ensures |shown| == |events| + 1
    ensures forall i, j :: 0 <= i <= j <= |events| ==> shown[i] <= shown[j]
    ensures forall i :: 0 <= i <= |events| && d in Play(w, events[..i]).tables.intents ==>
      var past, end := Play(w, events[..i]), Play(w, events);
      var row := past.tables.intents[d];
      && row.originApplied <= shown[i] <= row.generation
      && d in end.hist && 0 <= shown[i] < |end.hist[d]|
      && AddressesAt(past.zone, row.hostname) == Elements(end.hist[d][shown[i]])
  {
    hide Initial, Play, Shown, AddressesAt, Elements;
    shown := seq(|events| + 1, i requires 0 <= i <= |events| => Shown(Play(w, events[..i]), d));
    forall i, j | 0 <= i <= j <= |events| ensures shown[i] <= shown[j] {
      ShownAt(w, events, i, j, d);
    }
    assert events[..|events|] == events;
    forall i | 0 <= i <= |events| && d in Play(w, events[..i]).tables.intents
      ensures
        var past, end := Play(w, events[..i]), Play(w, events);
        var row := past.tables.intents[d];
        && row.originApplied <= shown[i] <= row.generation
        && d in end.hist && 0 <= shown[i] < |end.hist[d]|
        && AddressesAt(past.zone, row.hostname) == Elements(end.hist[d][shown[i]])
    {
      ShownAt(w, events, i, |events|, d);
    }
  }

  /** The recorded history is what the rows really held at every earlier point. */
  lemma HistoryIsTrue(w: World, events: seq<Event>, i: nat, j: nat, d: string)
    requires Initial(w) && i <= j <= |events| && d in Play(w, events[..i]).tables.intents
    ensures
      var past, now := Play(w, events[..i]).tables.intents[d], Play(w, events[..j]);
      && d in now.hist && 0 <= past.generation < |now.hist[d]|
      && now.hist[d][past.generation] == past.addresses
  {
    InitialInv(w);
    BetweenPoints(w, events, i, j);
    var early, late := Play(w, events[..i]), Play(w, events[..j]);
    assert DeviceOk(early, d);
    hide Inv, IsCanonical, AddressesAt, Play;
  }

  // ------------------------------------------------- what a step may touch

  /** A publisher step changes a row only by a mark that is recorded, and only the row at
      the head of its queue, still at the generation that was listed: a newer generation
      is never marked with the outcome of an older one. */
  lemma MarksMatchTheListing(w: World, e: Event, d: string)
    requires !e.Control?
    ensures Next(w, e).tables.idempotency == w.tables.idempotency && Next(w, e).tables.intents.Keys == w.tables.intents.Keys
    ensures d in w.tables.intents && Next(w, e).tables.intents[d] != w.tables.intents[d] ==>
      && Allowed(w, e) && e in {Mark(true), NoteFailure(true), Confirm(true)}
      && w.phase.queue[0].deviceID == d && w.phase.queue[0].generation == w.tables.intents[d].generation
      && var row, next := w.tables.intents[d], Next(w, e).tables.intents[d];
         match e
         case Mark(_) => next == row.(originApplied := row.generation, lastError := "")
         case NoteFailure(_) => next == row.(lastError := w.phase.message)
         case _ => next == row.(publicObserved := row.generation)
  {
    hide Listing, ApplyAll, Replacement, Agrees;
  }

  /** The zone changes only by an update that gets to the origin, and then only in the
      address records at the hostname of the head of the queue, which without an alias there
      become exactly the addresses that were listed. */
  lemma SendsTouchOneName(w: World, e: Event)
    requires Next(w, e).zone != w.zone
    ensures e.Send? && Allowed(w, e) && e.exchange != Refused
    ensures
      var item := w.phase.queue[0];
      && (forall rr: RR :: rr.name != item.hostname ==> (rr in Next(w, e).zone <==> rr in w.zone) && (rr in w.zone ==> Next(w, e).zone[rr] == w.zone[rr]))
      && (!HasAlias(w.zone, item.hostname) ==> AddressesAt(Next(w, e).zone, item.hostname) == Unmapped(item.addresses))
  {
    hide Listing, ApplyAll, Replacement, Agrees, Step, Record, Tracked, AddressesAt, Unmapped;
    var item := w.phase.queue[0];
    if HasAlias(w.zone, item.hostname) {
      AliasBlocks(w.zone, item.hostname, item.addresses, e.ttl);
    } else {
      ReplacementAssigns(w.zone, item.hostname, item.addresses, e.ttl);
    }
  }
}
