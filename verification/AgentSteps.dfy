/** One `updateOnce` in any weather, with others at work between its steps, as a run
    of the machine in `AgentRuns`. */
module AgentSteps {
  import opened Results
  import opened Addresses
  import opened Wire
  import opened DesiredState
  import opened StoreRuns
  import opened History
  import opened Controller
  import opened Agent
  import opened SelfStabilising
  import opened AgentRuns
  import opened AgentTruth

  // ----------------------------------------------------------------- paths

  function Puts(e: Event): nat {
    if e.Submit? then 1 else 0
  }

  /** From `w` the events lead to `w'`, all of them allowed, none of them a crash, with
      so many requests submitted. */
  ghost predicate Leads(w: Site, events: seq<Event>, puts: nat, w': Site)
    decreases |events|
  {
    if events == [] then puts == 0 && w' == w
    else
      var e := events[0];
      && Allowed(w, e) && !e.Crash?
      && Puts(e) <= puts && Leads(Next(w, e), events[1..], puts - Puts(e), w')
  }

  lemma One(w: Site, e: Event)
    requires Allowed(w, e) && !e.Crash?
    ensures Leads(w, [e], Puts(e), Next(w, e))
  {
    hide Allowed, Next;
    assert [e][1..] == [];
  }

  lemma {:induction false} Then(w: Site, a: seq<Event>, m: nat, w1: Site, b: seq<Event>, n: nat, w2: Site)
    requires Leads(w, a, m, w1) && Leads(w1, b, n, w2)
    ensures Leads(w, a + b, m + n, w2)
    decreases |a|
  {
    hide Allowed, Next;
    if a == [] {
      assert a + b == b;
    } else {
      assert (a + b)[1..] == a[1..] + b;
      Then(Next(w, a[0]), a[1..], m - Puts(a[0]), w1, b, n, w2);
    }
  }

  lemma Extend(w: Site, events: seq<Event>, puts: nat, w1: Site, e: Event) returns (w': Site)
    requires Leads(w, events, puts, w1) && Allowed(w1, e) && !e.Crash?
    ensures w' == Next(w1, e) && Leads(w, events + [e], puts + Puts(e), w')
  {
    hide Allowed, Next, Leads;
    One(w1, e);
    w' := Next(w1, e);
    Then(w, events, puts, w1, [e], Puts(e), w');
  }

  /** A path is a run. */
  lemma {:induction false} LeadsIsPlay(w: Site, events: seq<Event>, puts: nat, w': Site)
    requires Leads(w, events, puts, w')
    ensures Play(w, events) == w'
    decreases |events|
  {
    hide Allowed, Next;
    if events == [] {
    } else {
      LeadsIsPlay(Next(w, events[0]), events[1..], puts - Puts(events[0]), w');
      PlayFirst(w, events);
    }
  }

  lemma {:induction false} PlayFirst(w: Site, events: seq<Event>)
    requires events != []
    ensures Play(w, events) == Play(Next(w, events[0]), events[1..])
    decreases |events|
  {
    hide Next;
    var front := events[..|events| - 1];
    if |events| == 1 {
      assert Play(w, front) == w && events[1..] == [];
    } else {
      PlayFirst(w, front);
      assert events[1..][..|events| - 2] == front[1..];
    }
  }

  // ------------------------------------------------- others between the steps

  /** The operation delivers a request of this agent once more. */
  ghost predicate Redelivers(sent: set<Message>, device: Device, s: Settings, m: Message, op: Op) {
    && op.Write? && m in sent && m.pending.ValidPrecondition() && SafeKey(m.pending.key) && Submittable(m.addresses, s)
    && op.request == Resubmission(m.pending, m.addresses, device, s, op.request.now)
  }

  /** What others may have the store do: anything that is no write of this device, and
      any request this agent has sent, delivered again at any time. */
  ghost predicate Meddles(sent: set<Message>, device: Device, s: Settings, op: Op) {
    (op.Write? ==> op.request.deviceID != device.id) || exists m :: Redelivers(sent, device, s, m, op)
  }

  ghost predicate AllMeddle(sent: set<Message>, device: Device, s: Settings, ops: seq<Op>) {
    forall i :: 0 <= i < |ops| ==> Meddles(sent, device, s, ops[i])
  }

  /** Nobody else acts. */
  ghost predicate Alone(events: seq<Event>) {
    forall e :: e in events ==> !e.Elsewhere?
  }

  predicate Uninterrupted(w: Weather) {
    w.beforeStatus == w.status.turn.beforeSweep == w.status.turn.beforeReread == w.beforePut == w.beforeReply == []
  }

  /** Tables have moved on, the agent has stayed. */
  ghost predicate Meddled(w: Site, w': Site, t: Tables) {
    w' == w.(tables := t, hist := w'.hist, replies := w'.replies) && w.replies <= w'.replies
  }

  /** A request delivered without a fault. */
  lemma Delivers(w: Site, m: Message, now: int)
    requires m in w.sent && m.pending.ValidPrecondition() && SafeKey(m.pending.key) && Submittable(m.addresses, w.settings)
    ensures
      var e := Deliver(m, now, NoFault);
      Allowed(w, e) && Meddled(w, Next(w, e), Upsert(w.tables, RequestOf(w, m, now)).tables)
  {
    hide Upsert, Strikes, Misreported, PutUnder, Submittable, Record, SafeKey, Answer, Resubmission, UpsertUnder;
    var r := RequestOf(w, m, now);
    PutIsResubmission(w.tables, m.pending, m.addresses, w.device, w.settings, now, NoFault);
    UndisturbedUpsert(w.tables, r);
    AnswerKeepsTables(Upsert(w.tables, r));
  }

  lemma OneMeddles(w: Site, op: Op) returns (e: Event)
    requires Meddles(w.sent, w.device, w.settings, op)
    ensures Allowed(w, e) && !e.Crash? && !e.Submit? && Meddled(w, Next(w, e), Step(w.tables, op))
  {
    hide Upsert, Expire, Strikes, Misreported, PutUnder, Submittable, Record, SafeKey;
    if op.Write? && op.request.deviceID == w.device.id {
      var m :| Redelivers(w.sent, w.device, w.settings, m, op);
      e := Deliver(m, op.request.now, NoFault);
      Delivers(w, m, op.request.now);
    } else {
      e := Elsewhere(op);
    }
  }

  lemma UndisturbedUpsert(t: Tables, r: UpsertRequest)
    ensures UpsertUnder(t, r, NoFault) == Upsert(t, r)
  {
    hide Upsert;
  }

  lemma {:induction false} MeddlingPath(w: Site, ops: seq<Op>) returns (events: seq<Event>, w': Site)
    requires AllMeddle(w.sent, w.device, w.settings, ops)
    ensures Leads(w, events, 0, w') && Meddled(w, w', Run(w.tables, ops))
    ensures ops == [] ==> Alone(events)
    decreases ops
  {
    hide Next, Allowed, Meddles, Step;
    if ops == [] {
      events, w' := [], w;
    } else {
      var e := OneMeddles(w, ops[0]);
      One(w, e);
      var rest;
      rest, w' := MeddlingPath(Next(w, e), ops[1..]);
      Then(w, [e], 0, Next(w, e), rest, 0, w');
      events := [e] + rest;
    }
  }

  // ------------------------------------------------------- reading the status

  /** Tables and process have moved on, the rest has stayed. */
  ghost predicate StoreMoved(w: Site, w': Site, t: Tables, p: Process) {
    w' == w.(tables := t, hist := w'.hist, replies := w'.replies, process := p)
  }

  ghost function FetchedProcess(addresses: seq<Addr>, refresh: bool, fetched: Result<(string, bool), AgentError>): Process {
    match fetched
    case Err(e) => Failed(e)
    case Ok(c) => Creating(addresses, refresh, c.0, c.1)
  }

  /** The status handler finds a lapsed row. */
  ghost predicate Sweeps(t: Tables, device: Device, trip: StatusTrip) {
    trip.sent && trip.turn.readOk && device.id in t.intents && Lapsed(t.intents[device.id], trip.now)
  }

  lemma StatusPath(w: Site, trip: StatusTrip) returns (events: seq<Event>, w': Site)
    requires w.process.Fetching?
    requires AllMeddle(w.sent, w.device, w.settings, trip.turn.beforeSweep) && AllMeddle(w.sent, w.device, w.settings, trip.turn.beforeReread)
    ensures Leads(w, events, 0, w')
    ensures
      var f := FetchUnder(w.tables, w.device, w.settings, trip);
      StoreMoved(w, w', f.0, FetchedProcess(w.process.addresses, w.process.refresh, f.1))
    ensures trip.turn.beforeSweep == trip.turn.beforeReread == [] ==> Alone(events)
  {
    if Sweeps(w.tables, w.device, trip) {
      events, w' := SweepPath(w, trip);
    } else {
      hide Fetched, StatusReply, Record, Leads, AllMeddle;
      var e := if trip.sent && trip.answered then Look(trip.now, trip.turn.readOk) else LoseReply;
      One(w, e);
      events, w' := [e], Next(w, e);
    }
  }

  lemma SweepPath(w: Site, trip: StatusTrip) returns (events: seq<Event>, w': Site)
    requires w.process.Fetching? && Sweeps(w.tables, w.device, trip)
    requires AllMeddle(w.sent, w.device, w.settings, trip.turn.beforeSweep) && AllMeddle(w.sent, w.device, w.settings, trip.turn.beforeReread)
    ensures Leads(w, events, 0, w')
    ensures
      var f := FetchUnder(w.tables, w.device, w.settings, trip);
      StoreMoved(w, w', f.0, FetchedProcess(w.process.addresses, w.process.refresh, f.1))
    ensures trip.turn.beforeSweep == trip.turn.beforeReread == [] ==> Alone(events)
  {
    hide Fetched, StatusReply, Record, Leads, AllMeddle, Run, Expire;
    var look := Look(trip.now, true);
    var w1 := Next(w, look);
    One(w, look);
    var before, w2 := MeddlingPath(w1, trip.turn.beforeSweep);
    Then(w, [look], 0, w1, before, 0, w2);
    events := [look] + before;
    if !trip.turn.sweepOk {
      var last := if trip.answered then SweepForStatus(false) else LoseReply;
      w' := Extend(w, events, 0, w2, last);
      return events + [last], w';
    }
    var w3 := Extend(w, events, 0, w2, SweepForStatus(true));
    events := events + [SweepForStatus(true)];
    var again, w4 := MeddlingPath(w3, trip.turn.beforeReread);
    Then(w, events, 0, w3, again, 0, w4);
    events := events + again;
    var last := if trip.answered then LookAgain(trip.turn.rereadOk) else LoseReply;
    w' := Extend(w, events, 0, w4, last);
    events := events + [last];
  }

  // --------------------------------------------------- loading the submission

  ghost function LoadedProcess(addresses: seq<Addr>, refresh: bool, pending: Result<Pending, AgentError>): Process {
    match pending
    case Err(e) => Failed(e)
    case Ok(p) => Ready(addresses, refresh, p)
  }

  /** Others at work while the submission is loaded. */
  ghost predicate MeddlesLoading(sent: set<Message>, device: Device, s: Settings, weather: Weather) {
    && AllMeddle(sent, device, s, weather.beforeStatus)
    && AllMeddle(sent, device, s, weather.status.turn.beforeSweep) && AllMeddle(sent, device, s, weather.status.turn.beforeReread)
  }

  lemma LoadPath(w: Site, key: string, weather: Weather) returns (events: seq<Event>, w': Site)
    requires w.process.Starting? && w.process.addresses != [] && FreshKey(w, key)
    requires MeddlesLoading(w.sent, w.device, w.settings, weather)
    ensures Leads(w, events, 0, w')
    ensures
      var p := w.process;
      var loaded := LoadOrCreate(w.tables, w.file, Hash(p.addresses), w.device, w.settings, key, weather);
      && StoreMoved(w.(file := loaded.file), w', loaded.tables, LoadedProcess(p.addresses, p.refresh, loaded.pending))
    ensures Uninterrupted(weather) ==> Alone(events)
  {
    hide Leads, FetchUnder, Hash, Record, AllMeddle, Run;
    var p := w.process;
    var w1 := Next(w, Load(weather.readable));
    One(w, Load(weather.readable));
    events := [Load(weather.readable)];
    if !weather.readable || Usable(w.file, Hash(p.addresses)) {
      return events, w1;
    }
    var before, w2 := MeddlingPath(w1, weather.beforeStatus);
    Then(w, events, 0, w1, before, 0, w2);
    events := events + before;
    var status, w3 := StatusPath(w2, weather.status);
    Then(w, events, 0, w2, status, 0, w3);
    events := events + status;
    var fetched := FetchUnder(w2.tables, w.device, w.settings, weather.status);
    if fetched.1.Err? {
      return events, w3;
    }
    w' := Extend(w, events, 0, w3, Save(key, weather.written));
    events := events + [Save(key, weather.written)];
  }

  // -------------------------------------------------------------- one attempt

  /** What delivering and settling one submission comes to, ... */
  ghost predicate SettledAs(w: Site, weather: Weather, w': Site)
    requires w.process.Waiting?
  {
    var p := w.process;
    var put := PutUnder(w.tables, w.device, p.pending.HeadersFor(), Document(ToWire(Canonical(p.addresses))), w.settings, weather.put.now, weather.put.fault);
    var v := Judge(put.response, weather.clock, p.refresh);
    && w'.device == w.device && w'.settings == w.settings && w'.sent == w.sent
    && w'.tables == Run(put.tables, weather.beforeReply)
    && if !weather.put.answered then w'.file == w.file && w'.process == Failed(NoReply)
       else
         && w'.file == FileAfter(w.file, v, weather.cleared)
         && w'.process == AfterClear(Settling(p.addresses, p.refresh, p.pending, v), weather.cleared, p.addresses)
  }

  lemma SettlePath(w: Site, weather: Weather) returns (events: seq<Event>, w': Site)
    requires w.process.Waiting? && Message(w.process.pending, w.process.addresses) in w.sent
    requires AllMeddle(w.sent, w.device, w.settings, weather.beforeReply)
    ensures Leads(w, events, 0, w') && SettledAs(w, weather, w')
    ensures weather.beforeReply == [] ==> Alone(events)
  {
    hide Leads, PutUnder, Judge, ToWire, Canonical, Record, AllMeddle, Run;
    var p := w.process;
    var m := Message(p.pending, p.addresses);
    var deliver := Deliver(m, weather.put.now, weather.put.fault);
    var w2 := Next(w, deliver);
    One(w, deliver);
    var reply := PutOf(w, m, weather.put.now, weather.put.fault).response;
    var meanwhile, w3 := MeddlingPath(w2, weather.beforeReply);
    Then(w, [deliver], 0, w2, meanwhile, 0, w3);
    events := [deliver] + meanwhile;
    if !weather.put.answered {
      w' := Extend(w, events, 0, w3, LoseReply);
      return events + [LoseReply], w';
    }
    var w4 := Extend(w, events, 0, w3, Receive(reply, weather.clock));
    events := events + [Receive(reply, weather.clock)];
    w' := Extend(w, events, 0, w4, Clear(weather.cleared, p.addresses));
    events := events + [Clear(weather.cleared, p.addresses)];
  }

  /** ... and the same after sending it. */
  ghost predicate SentAs(w: Site, weather: Weather, w': Site)
    requires w.process.Ready?
  {
    var p := w.process;
    var sent := w.(tables := Run(w.tables, weather.beforePut), sent := w.sent + {Message(p.pending, p.addresses)},
                   process := Waiting(p.addresses, p.refresh, p.pending));
    if weather.put.sent then SettledAs(sent, weather, w') else w' == sent.(hist := w'.hist, replies := w'.replies, process := Failed(NoReply))
  }

  lemma SendPath(w: Site, weather: Weather) returns (events: seq<Event>, w': Site)
    requires w.process.Ready?
    requires AllMeddle(w.sent, w.device, w.settings, weather.beforePut)
    requires AllMeddle(w.sent + {Message(w.process.pending, w.process.addresses)}, w.device, w.settings, weather.beforeReply)
    ensures Leads(w, events, 1, w') && SentAs(w, weather, w')
    ensures Uninterrupted(weather) ==> Alone(events)
  {
    hide Leads, PutUnder, Judge, ToWire, Canonical, Record, AllMeddle, Run;
    var before, w0 := MeddlingPath(w, weather.beforePut);
    var w1 := Extend(w, before, 0, w0, Submit);
    events := before + [Submit];
    if !weather.put.sent {
      w' := Extend(w, events, 1, w1, LoseReply);
      return events + [LoseReply], w';
    }
    var rest;
    rest, w' := SettlePath(w1, weather);
    Then(w, events, 1, w1, rest, 0, w');
    events := events + rest;
  }

  // ------------------------------------------------------------- the theorem

  /** Keys neither sent before nor on file. */
  ghost predicate NewKeys(w: Site, keys: (string, string)) {
    FreshKey(w, keys.0) && FreshKey(w, keys.1) && (w.file.Saved? ==> w.file.pending.key != keys.1)
  }

  ghost predicate EndsAs(w: Site, addresses: seq<Addr>, run: UpdateRun) {
    && w.tables == run.tables && w.file == run.file
    && match run.result
       case Ok(state) => w.process.Acknowledged? && w.process.addresses == addresses && w.process.state == state
       case Err(e) => w.process == Failed(e)
  }

  /** Between the steps of the update others do only what they may. */
  ghost predicate Meddling(sent: set<Message>, t: Tables, f: File, addresses: seq<Addr>, device: Device, s: Settings,
                           keys: (string, string), weather: (Weather, Weather), refresh: bool)
    decreases refresh
  {
    var w := weather.0;
    var loaded := LoadOrCreate(t, f, Hash(addresses), device, s, keys.0, w);
    && MeddlesLoading(sent, device, s, w)
    && (loaded.pending.Ok? ==>
          var sent' := sent + {Message(loaded.pending.value, addresses)};
          var put := PutUnder(Run(loaded.tables, w.beforePut), device, loaded.pending.value.HeadersFor(), Document(ToWire(Canonical(addresses))), s, w.put.now, w.put.fault);
          && AllMeddle(sent, device, s, w.beforePut) && AllMeddle(sent', device, s, w.beforeReply)
          && (refresh ==> Meddling(sent', Run(put.tables, w.beforeReply), Absent, addresses, device, s, (keys.1, keys.1), (weather.1, weather.1), false)))
  }

  lemma AttemptIsAPath(w: Site, addresses: seq<Addr>, keys: (string, string), weather: (Weather, Weather), refresh: bool)
    returns (events: seq<Event>, w': Site)
    requires w.process == Starting(addresses, refresh) && NewKeys(w, keys) && (refresh ==> keys.0 != keys.1)
    requires Meddling(w.sent, w.tables, w.file, addresses, w.device, w.settings, keys, weather, refresh)
    ensures
      var run := UpdateUnder(w.tables, w.file, addresses, w.device, w.settings, keys, weather, refresh);
      Leads(w, events, run.puts, w') && EndsAs(w', addresses, run)
    ensures Uninterrupted(weather.0) && Uninterrupted(weather.1) ==> Alone(events)
    decreases refresh
  {
    hide Leads, LoadOrCreate, PutUnder, Hash, Canonical, ToWire, Judge, SafeKey, Record, AllMeddle, MeddlesLoading, Run;
    if addresses == [] {
      One(w, Load(true));
      return [Load(true)], Next(w, Load(true));
    }
    var loading, w1 := LoadPath(w, keys.0, weather.0);
    var loaded := LoadOrCreate(w.tables, w.file, Hash(addresses), w.device, w.settings, keys.0, weather.0);
    if loaded.pending.Err? {
      return loading, w1;
    }
    var sending, w2 := SendPath(w1, weather.0);
    Then(w, loading, 0, w1, sending, 1, w2);
    events, w' := loading + sending, w2;
    if w2.process.Starting? {
      LoadedKey(w, keys.0, weather.0);
      NeverAgain(weather.0.clock);
      var again, w3 := AttemptIsAPath(w2, addresses, (keys.1, keys.1), (weather.1, weather.1), false);
      var second := UpdateUnder(w2.tables, w2.file, addresses, w.device, w.settings, (keys.1, keys.1), (weather.1, weather.1), false);
      Then(w, events, 1, w2, again, second.puts, w3);
      events, w' := events + again, w3;
    }
  }

  lemma LoadedKey(w: Site, key: string, weather: Weather)
    requires w.process.Starting?
    ensures
      var p := w.process;
      var loaded := LoadOrCreate(w.tables, w.file, Hash(p.addresses), w.device, w.settings, key, weather);
      loaded.pending.Ok? ==> loaded.pending.value.key == key || w.file == Saved(loaded.pending.value)
  {
    hide FetchUnder, Hash;
  }

  predicate Resting(p: Process) {
    p.Down? || p.Acknowledged? || p.Failed?
  }

  /** The agent's `updateOnce`, whatever the weather and whatever others do between its
      steps, is a run of the machine: the same tables, file, outcome and number of PUTs,
      through allowed events only. */
  lemma UpdateIsARun(w: Site, addresses: seq<Addr>, keys: (string, string), weather: (Weather, Weather))
    returns (events: seq<Event>)
    requires Resting(w.process) && NewKeys(w, keys) && keys.0 != keys.1
    requires Meddling(w.sent, w.tables, w.file, addresses, w.device, w.settings, keys, weather, true)
    ensures
      var run := UpdateUnder(w.tables, w.file, addresses, w.device, w.settings, keys, weather, true);
      Leads(w, events, run.puts, Play(w, events)) && EndsAs(Play(w, events), addresses, run)
    ensures Uninterrupted(weather.0) && Uninterrupted(weather.1) ==> Alone(events)
  {
    hide Leads, UpdateUnder, EndsAs, Meddling;
    var w1 := Next(w, Start(addresses));
    One(w, Start(addresses));
    var rest, w2 := AttemptIsAPath(w1, addresses, keys, weather, true);
    var run := UpdateUnder(w.tables, w.file, addresses, w.device, w.settings, keys, weather, true);
    Then(w, [Start(addresses)], 0, w1, rest, run.puts, w2);
    events := [Start(addresses)] + rest;
    LeadsIsPlay(w, events, run.puts, w2);
  }

  /** So the code's own update, in any weather and after any run, reports only what
      is stored: in the run it belongs to, its answer is the response kept under some key
      for exactly the agent's addresses, whose generation names exactly them, and it is
      never a conflict. */
  lemma UpdateReportsTheStore(w: Site, before: seq<Event>, addresses: seq<Addr>, keys: (string, string), weather: (Weather, Weather))
    returns (events: seq<Event>)
    requires Initial(w)
    requires
      var site := Play(w, before);
      && Resting(site.process) && NewKeys(site, keys) && keys.0 != keys.1
      && Meddling(site.sent, site.tables, site.file, addresses, site.device, site.settings, keys, weather, true)
    ensures
      var site := Play(w, before);
      var end := Play(site, events);
      var run := UpdateUnder(site.tables, site.file, addresses, site.device, site.settings, keys, weather, true);
      && EndsAs(end, addresses, run)
      && run.result != Err(AgentError.Refused(409))
      && (run.result.Ok? ==> exists key :: Acked(end, key, addresses, run.result.value))
  {
    hide Initial, Inv, Acked, UpdateUnder, NewKeys, Leads, Meddling;
    InitialInv(w);
    PlayKeeps(w, before);
    var site := Play(w, before);
    events := UpdateIsARun(site, addresses, keys, weather);
    PlayKeeps(site, events);
    ProcessOfInv(Play(site, events));
    hide Play;
  }
}
