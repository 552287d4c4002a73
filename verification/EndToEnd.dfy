/** From an update of the agent to its addresses at the origin. */
module EndToEnd {
  import opened Order
  import opened Addresses
  import opened Wire
  import opened DesiredState
  import opened StoreRuns
  import opened History
  import opened Controller
  import opened Agent
  import opened SelfStabilising
  import opened StaleReplays
  import opened WholeSystem
  import Steps = AgentSteps
  import Convergence
  import Publisher
  import Passes = PublisherRuns

  // ------------------------------------------------------ the agent by itself

  ghost function Agents(events: seq<Runs.Event>): seq<Event> {
    seq(|events|, i requires 0 <= i < |events| => Agent(events[i]))
  }

  lemma AgentAlone(s: System, a: Runs.Event)
    requires !a.Elsewhere?
    ensures Next(s, Agent(a)).site == Runs.Next(s.site, a)
  {
    hide Runs.Next, Dns.Next, AgentOp;
    hide Runs.Allowed;
    if !Runs.Allowed(s.site, a) {
      NotAllowed(s.site, a);
    }
  }

  lemma NotAllowed(w: Runs.Site, a: Runs.Event)
    requires !Runs.Allowed(w, a)
    ensures Runs.Next(w, a) == w
  {
    hide Runs.Allowed, Runs.Effect;
  }

  /** With nobody else acting, the site of the system is the site of `AgentRuns`. */
  lemma {:induction false} AgentsPlay(s: System, events: seq<Runs.Event>)
    requires Steps.Alone(events)
    ensures Play(s, Agents(events)).site == Runs.Play(s.site, events)
    decreases events
  {
    hide Next, Runs.Next;
    if events == [] {
    } else {
      var n := |events| - 1;
      assert Agents(events)[..n] == Agents(events[..n]);
      AgentsPlay(s, events[..n]);
      AgentAlone(Play(s, Agents(events[..n])), events[n]);
    }
  }

  // --------------------------------------------------------------- the update

  /** New keys are unknown to the store as well. */
  lemma NewKeysAreUnused(w: Runs.Site, addresses: seq<Addr>, keys: (string, string))
    requires Runs.Inv(w) && ReadyToUpdate(w, addresses, keys)
    ensures UnusedKeys(w.tables, w.file, w.device, keys)
  {
    hide Placed, Submittable, SafeKey;
    if (w.device.id, keys.0) in w.tables.idempotency { StoredWasSent(w, keys.0); }
    if (w.device.id, keys.1) in w.tables.idempotency { StoredWasSent(w, keys.1); }
  }

  lemma StoredWasSent(w: Runs.Site, key: string)
    requires Runs.Inv(w) && (w.device.id, key) in w.tables.idempotency
    ensures exists m :: m in w.sent && m.pending.key == key
  {
    assert Runs.KeyOk(w, key);
  }

  lemma CalmIsUndisturbed(w: Runs.Site, addresses: seq<Addr>, keys: (string, string), now: int, clock: int, refresh: bool)
    ensures Steps.Meddling(w.sent, w.tables, w.file, addresses, w.device, w.settings, keys, (Calm(now, clock), Calm(now, clock)), refresh)
    ensures Steps.Uninterrupted(Calm(now, clock))
    decreases refresh
  {
    hide LoadOrCreate, PutUnder, Hash, Steps.Meddles;
    if refresh {
      var loaded := LoadOrCreate(w.tables, w.file, Hash(addresses), w.device, w.settings, keys.0, Calm(now, clock));
      if loaded.pending.Ok? {
        var put := PutUnder(loaded.tables, w.device, loaded.pending.value.HeadersFor(), Document(ToWire(Canonical(addresses))), w.settings, now, NoFault);
        var again := w.(sent := w.sent + {Runs.Message(loaded.pending.value, addresses)}, tables := put.tables, file := Absent);
        CalmIsUndisturbed(again, addresses, (keys.1, keys.1), now, clock, false);
      }
    }
  }

  lemma {:induction false} DeviceStays(w: Runs.Site, events: seq<Runs.Event>)
    ensures Runs.Play(w, events).device == w.device
    decreases events
  {
    if events != [] {
      DeviceStays(w, events[..|events| - 1]);
      OneDeviceStays(Runs.Play(w, events[..|events| - 1]), events[|events| - 1]);
      hide Runs.Next;
    }
  }

  lemma OneDeviceStays(w: Runs.Site, e: Runs.Event)
    ensures Runs.Next(w, e).device == w.device
  {
    hide Step, Expire, Runs.PutOf, Record, Judge, Usable;
  }

  /** A calm update in time, from any site of a run. */
  lemma UpdateHolds(w: Runs.Site, addresses: seq<Addr>, now: int, clock: int, keys: (string, string)) returns (events: seq<Runs.Event>)
    requires Runs.Inv(w) && ReadyToUpdate(w, addresses, keys) && InTime(w.tables, w.file, addresses, w.device, w.settings, now, clock)
    ensures Steps.Alone(events)
    ensures
      var end := Runs.Play(w, events);
      && end.device == w.device && end.file.Absent? && end.process.Acknowledged? && end.process.addresses == addresses
      && if Replays(w.tables, w.file, addresses, w.device, clock) then end.tables == w.tables
         else Holds(end.tables, w.device, addresses, end.process.state.generation)
  {
    hide Runs.Inv, Placed, Submittable, UpdateUnder, UnusedKeys, Poisoned, Steps.NewKeys, Steps.Leads, Steps.Meddling, InTime, Holds, Replays, Steps.Alone;
    Truth.FileIsClean(w, addresses, now);
    NewKeysAreUnused(w, addresses, keys);
    UpdateSucceedsUnlessPoisoned(w.tables, w.file, addresses, w.device, w.settings, now, clock, keys);
    UpdateWrites(w.tables, w.file, addresses, w.device, w.settings, now, clock, keys);
    CalmIsUndisturbed(w, addresses, keys, now, clock, true);
    events := Steps.UpdateIsARun(w, addresses, keys, (Calm(now, clock), Calm(now, clock)));
    DeviceStays(w, events);
  }

  // ------------------------------------------------------------- and the origin

  /** Restarted over `w`, the service makes undisturbed runs whose batches cover the origin
      backlog and what lapses on the way, and every write of them works. */
  ghost predicate WorkingRuns(service: Publisher.Service, w: Dns.World, traces: seq<seq<Dns.Event>>, nows: seq<int>, envs: seq<Publisher.Surroundings>) {
    && service.start == w && traces != [] && traces[0] == [Dns.Crash]
    && Passes.Runs(service, traces, nows, envs) && (forall env :: env in envs ==> Passes.AllWork(service, env))
    && Convergence.Covered(|Convergence.PendingSet(w, OriginBacklog)|, Passes.JoiningIn(service, traces, nows, envs), service.batchSize)
  }

  ghost predicate Shows(zone: DnsUpdate.Zone, device: Device, addresses: seq<Addr>) {
    DnsUpdate.AddressesAt(zone, device.hostname) == Unmapped(addresses)
  }

  /** After working runs the origin shows what the row held, or nothing if its lease was
      over at one of their sweeps. */
  lemma RunsShowTheRow(s: System, service: Publisher.Service, traces: seq<seq<Dns.Event>>, nows: seq<int>, envs: seq<Publisher.Surroundings>)
    requires Inv(s) && WorkingRuns(service, s.world, traces, nows, envs)
    requires s.site.device.id in s.site.tables.intents && |traces| == |envs| + 1 == |nows| + 1
    ensures
      var row := s.site.tables.intents[s.site.device.id];
      DnsUpdate.AddressesAt(Dns.Play(s.world, traces[|envs|]).zone, s.site.device.hostname)
      == if Passes.Expires(row, nows, envs) then {} else Elements(row.addresses)
  {
    hide Runs.Inv, Dns.Inv, Dns.Play, DnsUpdate.AddressesAt, Elements, Convergence.PendingSet, Convergence.Covered, Passes.JoiningIn, Passes.AllWork, Passes.RunStep, Passes.Expires;
    Restarted(s.world);
    Passes.ExpiredIsWithdrawn(service, traces, nows, envs, s.site.device.id);
  }

  lemma Restarted(w: Dns.World)
    ensures
      var up := Dns.Play(w, [Dns.Crash]);
      up.tables == w.tables && Convergence.PendingSet(up, OriginBacklog) == Convergence.PendingSet(w, OriginBacklog)
  {
    assert [Dns.Crash][..0] == [];
    assert Dns.Play(w, []) == w;
  }

  /** The device's lease lasts through all sweeps of these runs. */
  ghost predicate Lasts(w: Runs.Site, nows: seq<int>, envs: seq<Publisher.Surroundings>)
    requires |nows| == |envs|
  {
    w.device.id in w.tables.intents &&
      forall k :: 0 <= k < |envs| && envs[k].sweepOk ==> nows[k] < w.tables.intents[w.device.id].leaseExpiresAt
  }

  /** End to end: from every reachable system, whatever the publisher is doing, one calm
      update of the agent and then working runs that cover the backlog leave the origin
      showing exactly the agent's addresses at its hostname, if the lease lasts through them
      and the update was not answered by a stale replay, and only then. Either way the file is
      gone, so the update after it is no replay. */
  lemma UpdateIsServed(s: System, before: seq<Event>, addresses: seq<Addr>, now: int, clock: int, keys: (string, string))
    returns (events: seq<Event>)
    requires Initial(s) && ReadyToUpdate(Play(s, before).site, addresses, keys)
    requires
      var site := Play(s, before).site;
      InTime(site.tables, site.file, addresses, site.device, site.settings, now, clock)
    ensures
      var first, end := Play(s, before), Play(Play(s, before), events);
      && end.site.process.Acknowledged? && end.site.process.addresses == addresses && end.site.file.Absent?
      && forall service, traces, nows, envs :: |traces| == |envs| + 1 == |nows| + 1 && WorkingRuns(service, end.world, traces, nows, envs) ==>
           (Shows(Dns.Play(end.world, traces[|envs|]).zone, first.site.device, addresses)
            <==> Lasts(end.site, nows, envs) && !StaleReplay(first.site, addresses, clock))
  {
    hide Initial, Inv, Play, ReadyToUpdate, InTime, WorkingRuns, Shows, Runs.Play, Steps.Alone, StaleReplay, Dns.Play, Lasts, Passes.Expires;
    InitialInv(s);
    PlayKeeps(s, before);
    var first := Play(s, before);
    PartsOf(first);
    var steps := UpdateHolds(first.site, addresses, now, clock, keys);
    events := Agents(steps);
    AgentsPlay(first, steps);
    PlayKeeps(first, events);
    var end := Play(first, events);
    ReadyHasAddresses(first.site, addresses, keys);
    forall service, traces, nows, envs | |traces| == |envs| + 1 == |nows| + 1 && WorkingRuns(service, end.world, traces, nows, envs)
      ensures Shows(Dns.Play(end.world, traces[|envs|]).zone, first.site.device, addresses)
         <==> Lasts(end.site, nows, envs) && !StaleReplay(first.site, addresses, clock)
    {
      UpdatedRow(first, end, addresses, clock);
      RunsShowTheRow(end, service, traces, nows, envs);
      ShowsExactly(end, Dns.Play(end.world, traces[|envs|]).zone, addresses, nows, envs);
    }
  }

  lemma ReadyHasAddresses(w: Runs.Site, addresses: seq<Addr>, keys: (string, string))
    requires ReadyToUpdate(w, addresses, keys)
    ensures addresses != []
  {
    SubmittableIsNonEmpty(addresses, w.settings);
    hide Placed, Submittable;
  }

  lemma PartsOf(s: System)
    requires Inv(s)
    ensures Runs.Inv(s.site)
  {
  }

  /** After the update the row differs from the addresses exactly in a stale replay. */
  lemma UpdatedRow(first: System, end: System, addresses: seq<Addr>, clock: int)
    requires Inv(first) && Inv(end) && end.site.device == first.site.device
    requires
      if Replays(first.site.tables, first.site.file, addresses, first.site.device, clock) then end.site.tables == first.site.tables
      else end.site.process.Acknowledged? && Holds(end.site.tables, first.site.device, addresses, end.site.process.state.generation)
    ensures end.site.device.id in end.site.tables.intents
    ensures end.site.tables.intents[end.site.device.id].addresses == Canonical(addresses) <==> !StaleReplay(first.site, addresses, clock)
  {
    if Replays(first.site.tables, first.site.file, addresses, first.site.device, clock) {
      StoredHasRow(first.site, first.site.file.pending.key);
    }
    hide Inv, Canonical, Hash;
  }

  lemma StoredHasRow(w: Runs.Site, key: string)
    requires Runs.Inv(w) && (w.device.id, key) in w.tables.idempotency
    ensures w.device.id in w.tables.intents
  {
    assert ResponseOk(w.tables, (w.device.id, key));
  }

  lemma ShowsExactly(s: System, zone: DnsUpdate.Zone, addresses: seq<Addr>, nows: seq<int>, envs: seq<Publisher.Surroundings>)
    requires Inv(s) && s.site.device.id in s.site.tables.intents && |nows| == |envs| && addresses != []
    requires
      var row := s.site.tables.intents[s.site.device.id];
      DnsUpdate.AddressesAt(zone, s.site.device.hostname) == if Passes.Expires(row, nows, envs) then {} else Elements(row.addresses)
    ensures Shows(zone, s.site.device, addresses)
       <==> Lasts(s.site, nows, envs) && s.site.tables.intents[s.site.device.id].addresses == Canonical(addresses)
  {
    hide Inv, DnsUpdate.AddressesAt, Elements, Unmapped, Canonical;
    var row := s.site.tables.intents[s.site.device.id];
    TablesFacts(s);
    assert RowOk(s.site.device.id, row);
    CanonicalDecidesSetEquality(row.addresses, addresses);
    CanonicalForm(row.addresses);
    CanonicalEmpty(addresses);
    SomethingUnmapped(addresses);
  }

  lemma SomethingUnmapped(addresses: seq<Addr>)
    requires addresses != []
    ensures Unmapped(addresses) != {}
  {
    assert Unmap(addresses[0]) in Unmapped(addresses);
  }

  /** And a system with a stale replay can be reached by any device. */
  lemma StaleReplayIsReachable(s: System, x: seq<Addr>, y: seq<Addr>, now: int, keys: seq<string>) returns (events: seq<Event>)
    requires Initial(s) && s.site.settings.leaseDuration > 0 && ThreeKeys(keys)
    requires Submittable(x, s.site.settings) && Submittable(y, s.site.settings) && Canonical(x) != Canonical(y)
    ensures
      var end := Play(s, events).site;
      StaleReplay(end, x, now) && Steps.Resting(end.process) && Placed(end.tables, end.device, 6)
  {
    hide Play, Submittable, Canonical, ThreeKeys, StaleReplay, Placed, Runs.Play, Runs.TablesOk, Steps.Alone;
    var steps := StaleReplayHappens(s.site, x, y, now, keys);
    AgentsPlay(s, steps);
    events := Agents(steps);
  }
}
