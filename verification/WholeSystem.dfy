/** Agent, controller, store, publisher and origin together: the machine of
    `AgentRuns` and the machine of `Publication` over one pair of tables. */
module WholeSystem {
  import opened Results
  import opened Addresses
  import opened DesiredState
  import opened StoreRuns
  import opened History
  import opened DnsUpdate
  import opened Controller
  import opened SelfStabilising
  import Runs = AgentRuns
  import Truth = AgentTruth
  import Dns = Publication
  import Origin = OriginTruth

  datatype System = System(world: Dns.World, site: Runs.Site)

  /** One step of the agent and its requests, or one of everything else: the
      controller serving other devices, sweeps, the publisher, a crash of it. */
  datatype Event = Agent(step: Runs.Event) | Rest(other: Dns.Event)

  ghost predicate Allowed(s: System, e: Event) {
    match e
    case Agent(a) => Runs.Allowed(s.site, a) && !a.Elsewhere?
    case Rest(p) =>
      && Dns.Allowed(s.world, p)
      && (p.Control? && p.op.Write? ==> p.op.request.deviceID != s.site.device.id)
  }

  /** The store operation inside an agent step. */
  ghost function AgentOp(w: Runs.Site, a: Runs.Event): Option<Op>
    requires Runs.Allowed(w, a)
  {
    match a
    case SweepForStatus(sweepOk) => if sweepOk then Some(Sweep(w.process.now)) else None
    case Deliver(m, now, fault) =>
      if m.pending.ValidPrecondition() && Submittable(m.addresses, w.settings)
         && !Strikes(w.tables, Truth.RequestOf(w, m, now), fault)
      then Some(Write(Truth.RequestOf(w, m, now))) else None
    case _ => None
  }

  /** The store operation inside a step of the rest. */
  ghost function RestOp(w: Dns.World, p: Dns.Event): Option<Op>
    requires Dns.Allowed(w, p)
  {
    match p
    case Control(op) => Some(op)
    case Mark(stored) => if stored then Some(MarkApplied(w.phase.queue[0].deviceID, w.phase.queue[0].generation)) else None
    case NoteFailure(stored) =>
      if stored then Some(MarkError(w.phase.queue[0].deviceID, w.phase.queue[0].generation, w.phase.message)) else None
    case Confirm(stored) => if stored then Some(MarkObserved(w.phase.queue[0].deviceID, w.phase.queue[0].generation)) else None
    case _ => None
  }

  ghost function Next(s: System, e: Event): System {
    if !Allowed(s, e) then s
    else
      match e
      case Agent(a) =>
        var op := AgentOp(s.site, a);
        System(if op.None? then s.world else Dns.Next(s.world, Dns.Control(op.value)), Runs.Next(s.site, a))
      case Rest(p) =>
        var op := RestOp(s.world, p);
        System(Dns.Next(s.world, p), if op.None? then s.site else Runs.Next(s.site, Runs.Elsewhere(op.value)))
  }

  ghost function Play(s: System, events: seq<Event>): System
    decreases events
  {
    if events == [] then s else Next(Play(s, events[..|events| - 1]), events[|events| - 1])
  }

  // ----------------------------------------------------------- invariant

  /** The device's row carries the hostname its identity maps to. */
  ghost predicate HostOk(t: Tables, device: Device) {
    device.id in t.intents ==> t.intents[device.id].hostname == device.hostname
  }

  ghost predicate Inv(s: System) {
    && Dns.Inv(s.world) && Runs.Inv(s.site)
    && s.world.tables == s.site.tables
    && s.site.device.hostname in s.world.names
    && HostOk(s.site.tables, s.site.device)
  }

  ghost predicate Initial(s: System) {
    && Dns.Initial(s.world) && Runs.Initial(s.site)
    && s.site.tables == s.world.tables && s.site.device.hostname in s.world.names
  }

  // --------------------------------------------------- the tables stay equal

  lemma AgentTables(w: Runs.Site, a: Runs.Event)
    requires Runs.Inv(w) && Runs.Allowed(w, a) && !a.Elsewhere?
    ensures
      var op := AgentOp(w, a);
      && Runs.Next(w, a).tables == (if op.None? then w.tables else Step(w.tables, op.value))
      && (op.Some? ==> IsControl(op.value) && (op.value.Write? ==> op.value.request.deviceID == w.device.id && op.value.request.hostname == w.device.hostname))
      && Runs.Next(w, a).device == w.device
  {
    hide Runs.Inv, Upsert, Expire, Strikes, Misreported, Submittable, Runs.PutOf, Record;
    if a.Deliver? {
      Truth.DeliveredAs(w, a.message, a.now, a.fault);
      Truth.AnswerKeepsTables(UpsertUnder(w.tables, Truth.RequestOf(w, a.message, a.now), a.fault));
    }
  }

  lemma RestTables(s: System, p: Dns.Event)
    requires Allowed(s, Rest(p))
    ensures
      var op := RestOp(s.world, p);
      && Dns.Next(s.world, p).tables == (if op.None? then s.world.tables else Step(s.world.tables, op.value))
      && (op.Some? ==> Runs.Allowed(s.site, Runs.Elsewhere(op.value)))
      && Dns.Next(s.world, p).names == s.world.names
  {
    hide Upsert, Expire, Listing, Replacement, ApplyAll, Record;
  }

  /** No operation gives the device another hostname. */
  lemma HostKept(t: Tables, op: Op, device: Device)
    requires WellFormed(t) && HostOk(t, device)
    requires op.Write? ==> op.request.deviceID != device.id || op.request.hostname == device.hostname
    ensures HostOk(Step(t, op), device)
  {
    StepKeeps(t, op);
    if device.id in t.intents {
      assert RowAdvances(t.intents[device.id], Step(t, op).intents[device.id]);
    } else if op.Write? {
      WriteMovesDevice(t, op.request);
    }
    hide WellFormed, Upsert;
  }

  lemma TablesFacts(s: System)
    requires Inv(s)
    ensures WellFormed(s.site.tables)
  {
  }

  lemma NextKeeps(s: System, e: Event)
    requires Inv(s)
    ensures Inv(Next(s, e))
  {
    hide Dns.Inv, Runs.Inv, Dns.Next, Runs.Next, HostOk, Step, AgentOp, RestOp, WellFormed, Truth.Grows, Dns.Moves;
    if Allowed(s, e) {
      TablesFacts(s);
      match e
      case Agent(a) =>
        AgentTables(s.site, a);
        Truth.NextKeeps(s.site, a);
        var op := AgentOp(s.site, a);
        if op.Some? {
          Origin.NextKeeps(s.world, Dns.Control(op.value));
          ControlTables(s.world, op.value);
          HostKept(s.site.tables, op.value, s.site.device);
        }
      case Rest(p) =>
        RestTables(s, p);
        Origin.NextKeeps(s.world, p);
        var op := RestOp(s.world, p);
        if op.Some? {
          Truth.NextKeeps(s.site, Runs.Elsewhere(op.value));
          ElsewhereTables(s.site, op.value);
          HostKept(s.site.tables, op.value, s.site.device);
        }
    }
  }

  lemma ControlTables(w: Dns.World, op: Op)
    requires Dns.Allowed(w, Dns.Control(op))
    ensures Dns.Next(w, Dns.Control(op)).tables == Step(w.tables, op) && Dns.Next(w, Dns.Control(op)).names == w.names
  {
    hide Step;
  }

  lemma ElsewhereTables(w: Runs.Site, op: Op)
    requires Runs.Allowed(w, Runs.Elsewhere(op))
    ensures Runs.Next(w, Runs.Elsewhere(op)).tables == Step(w.tables, op) && Runs.Next(w, Runs.Elsewhere(op)).device == w.device
    ensures op.Write? ==> op.request.deviceID != w.device.id
  {
    hide Step;
  }

  lemma InitialInv(s: System)
    requires Initial(s)
    ensures Inv(s)
  {
    Origin.InitialInv(s.world);
    Truth.InitialInv(s.site);
  }

  lemma {:induction false} PlayKeeps(s: System, events: seq<Event>)
    requires Inv(s)
    ensures Inv(Play(s, events))
    decreases events
  {
    hide Inv, Next;
    if events == [] {
    } else {
      PlayKeeps(s, events[..|events| - 1]);
      NextKeeps(Play(s, events[..|events| - 1]), events[|events| - 1]);
    }
  }

  // --------------------------------------------------------- main result

  /** The agent holds an acknowledgement whose generation is still current and does not
      wait for the origin. */
  ghost predicate AcknowledgedAndApplied(s: System) {
    && s.site.process.Acknowledged? && s.site.device.id in s.world.tables.intents
    && var row := s.world.tables.intents[s.site.device.id];
    && row.generation == s.site.process.state.generation && !Pending(row, OriginBacklog)
  }

  /** End to end: whenever the agent holds an acknowledgement whose generation is
      still current and no longer waits for the origin, the origin shows at the
      device's own hostname exactly the addresses the agent had submitted. */
  lemma AcknowledgedIsServed(s: System, events: seq<Event>)
    requires Initial(s)
    ensures
      var now := Play(s, events);
      AcknowledgedAndApplied(now) ==>
        AddressesAt(now.world.zone, now.site.device.hostname) == Unmapped(now.site.process.addresses)
  {
    hide Initial, Inv, Play, AcknowledgedAndApplied;
    InitialInv(s);
    PlayKeeps(s, events);
    if AcknowledgedAndApplied(Play(s, events)) {
      AppliedIsServed(Play(s, events));
    }
  }

  lemma AppliedIsServed(s: System)
    requires Inv(s) && AcknowledgedAndApplied(s)
    ensures AddressesAt(s.world.zone, s.site.device.hostname) == Unmapped(s.site.process.addresses)
  {
    hide Dns.Inv, Runs.Inv, AddressesAt, Unmapped, Runs.Acked;
    var d, p := s.site.device.id, s.site.process;
    var row := s.world.tables.intents[d];
    Origin.DeviceOfInv(s.world, d);
    RowBounds(s.world, d);
    Origin.DeviceServes(s.world, d);
    Truth.ProcessOfInv(s.site);
    AckedCurrent(s.site, p.key, p.addresses, p.state);
    CanonicalForm(p.addresses);
  }

  lemma RowBounds(w: Dns.World, d: string)
    requires Dns.Inv(w) && d in w.tables.intents
    ensures w.tables.intents[d].originApplied <= w.tables.intents[d].generation
  {
    assert RowOk(d, w.tables.intents[d]);
  }

  /** An acknowledged generation that is current holds the acknowledged addresses. */
  lemma AckedCurrent(w: Runs.Site, key: string, addresses: seq<Addr>, state: State)
    requires Runs.Inv(w) && Runs.Acked(w, key, addresses, state)
    requires w.device.id in w.tables.intents && w.tables.intents[w.device.id].generation == state.generation
    ensures w.tables.intents[w.device.id].addresses == Canonical(addresses)
  {
    Truth.TablesOfInv(w);
    assert HistoryOk(w.hist[w.device.id], w.tables.intents[w.device.id]);
    hide Runs.Inv, WellFormed, Canonical, StateOf;
  }
}
