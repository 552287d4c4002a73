/** The device agent (`internal/agent`) talking to a controller it can reach. */
module Agent {
  import opened Results
  import opened Addresses
  import opened ETag
  import opened Wire
  import opened DesiredState
  import opened StoreRuns
  import opened Controller

  /** One submission, as kept on disk until it is settled. */
  datatype Pending = Pending(payloadHash: Digest, key: string, ifMatch: string, ifNoneMatch: bool) {
    predicate ValidPrecondition() {
      if ifNoneMatch then ifMatch == ""
      else ifMatch != "" && ParseGenerationETag(ifMatch).Ok?
    }

    function HeadersFor(): Headers {
      if ifNoneMatch then Headers(key, [], ["*"]) else Headers(key, [ifMatch], [])
    }
  }

  datatype File = Absent | Corrupt | Saved(pending: Pending)

  /** Whether the file is reused for this payload. */
  predicate Usable(f: File, hash: Digest) {
    f.Saved? && f.pending.payloadHash == hash && f.pending.key != "" && f.pending.ValidPrecondition()
  }

  datatype AgentError =
    | NoAddressesFound
    | FileUnreadable
    | FileUnwritable
    | FileStuck
    | NoReply
    | StatusFailed(status: int)
    | BadStatusETag
    | Refused(status: int)
    | BadETag
    | LeaseOver

  /** One exchange with the controller: whether the request gets there, the
      controller's clock, how it fares, and whether the reply gets back. */
  datatype StatusTrip = StatusTrip(sent: bool, now: int, turn: StatusTurn, answered: bool)

  datatype PutTrip = PutTrip(sent: bool, now: int, fault: Fault, answered: bool)

  /** Everything around one submission: what can go wrong on disk and on the wire,
      what others have the store do between its steps, and the agent's own clock when
      it looks at the lease. */
  datatype Weather = Weather(
    readable: bool,
    beforeStatus: seq<Op>,
    status: StatusTrip,
    written: bool,
    beforePut: seq<Op>,
    put: PutTrip,
    beforeReply: seq<Op>,
    cleared: bool,
    clock: int)

  /** Nothing goes wrong and nobody else acts; the controller's clock stands at `now`,
      the agent's at `clock`. */
  function Calm(now: int, clock: int): Weather {
    Weather(true, [], StatusTrip(true, now, QUIET_TURN, true), true, [], PutTrip(true, now, NoFault, true), [], true, clock)
  }

  /** What `fetchPrecondition` makes of a status reply. */
  function Fetched(r: Response): Result<(string, bool), AgentError> {
    if r.Failure? && r.status == 404 then Ok(("", true))
    else if r.status != 200 || r.Failure? then Err(StatusFailed(r.status))
    else
      var generation := ParseGenerationETag(r.etag);
      if generation.Err? || r.state.generation != generation.value then Err(BadStatusETag) else Ok((r.etag, false))
  }

  datatype UpdateRun = UpdateRun(tables: Tables, file: File, result: Result<State, AgentError>, puts: nat)

  // ---------------------------------------------------------- one submission

  datatype Loaded = Loaded(tables: Tables, file: File, pending: Result<Pending, AgentError>)

  ghost function FetchUnder(t: Tables, device: Device, s: Settings, trip: StatusTrip): (Tables, Result<(string, bool), AgentError>) {
    if !trip.sent then (t, Err(NoReply))
    else
      var status := GetUnder(t, device, s, trip.now, trip.turn);
      (status.tables, if trip.answered then Fetched(status.response) else Err(NoReply))
  }

  ghost function LoadOrCreate(t: Tables, f: File, hash: Digest, device: Device, s: Settings, key: string, w: Weather): Loaded {
    if !w.readable then Loaded(t, f, Err(FileUnreadable))
    else if Usable(f, hash) then Loaded(t, f, Ok(f.pending))
    else
      var fetched := FetchUnder(Run(t, w.beforeStatus), device, s, w.status);
      match fetched.1
      case Err(e) => Loaded(fetched.0, f, Err(e))
      case Ok(p) =>
        if !w.written then Loaded(fetched.0, f, Err(FileUnwritable))
        else
          var pending := Pending(hash, key, p.0, p.1);
          Loaded(fetched.0, Saved(pending), Ok(pending))
  }

  /** What the agent does with a reply. */
  datatype Verdict = Done(state: State) | Again | Stop(error: AgentError, clears: bool)

  predicate Sound(r: Response) {
    r.Success? && r.status == 202 && ParseGenerationETag(r.etag) == Ok(r.state.generation)
  }

  function Judge(r: Response, now: int, refresh: bool): Verdict {
    if r.status != 202 || r.Failure? then
      if r.status == 412 && refresh then Again
      else Stop(AgentError.Refused(r.status), r.status == 409 || r.status == 412)
    else if !Sound(r) then Stop(BadETag, false)
    else if r.state.leaseExpiresAt <= now then (if refresh then Again else Stop(LeaseOver, true))
    else Done(r.state)
  }

  predicate Clears(v: Verdict) {
    !v.Stop? || v.clears
  }

  /** Where a verdict ends when the file may refuse to go; only a 409 ignores that. */
  function Ended(v: Verdict, cleared: bool): Result<State, AgentError>
    requires !(v.Again? && cleared)
  {
    match v
    case Done(state) => if cleared then Ok(state) else Err(FileStuck)
    case Again => Err(FileStuck)
    case Stop(e, clears) => if cleared || !clears || e == AgentError.Refused(409) then Err(e) else Err(FileStuck)
  }

  function FileAfter(f: File, v: Verdict, cleared: bool): File {
    if cleared && Clears(v) then Absent else f
  }

  /** `updateOnce` in any weather, with `keys` the supply of new idempotency keys.
      The second of each pair is for the refresh. */
  ghost function UpdateUnder(t: Tables, f: File, addresses: seq<Addr>, device: Device, s: Settings,
                             keys: (string, string), weather: (Weather, Weather), refresh: bool): UpdateRun
    decreases refresh
  {
    if addresses == [] then UpdateRun(t, f, Err(NoAddressesFound), 0)
    else
      var w := weather.0;
      var loaded := LoadOrCreate(t, f, Hash(addresses), device, s, keys.0, w);
      if loaded.pending.Err? then UpdateRun(loaded.tables, loaded.file, Err(loaded.pending.error), 0)
      else
        var t1 := Run(loaded.tables, w.beforePut);
        if !w.put.sent then UpdateRun(t1, loaded.file, Err(NoReply), 1)
        else
          var put := PutUnder(t1, device, loaded.pending.value.HeadersFor(), Document(ToWire(Canonical(addresses))), s, w.put.now, w.put.fault);
          var t2 := Run(put.tables, w.beforeReply);
          if !w.put.answered then UpdateRun(t2, loaded.file, Err(NoReply), 1)
          else
            var v := Judge(put.response, w.clock, refresh);
            if v.Again? && w.cleared then
              var second := UpdateUnder(t2, Absent, addresses, device, s, (keys.1, keys.1), (weather.1, weather.1), false);
              second.(puts := second.puts + 1)
            else UpdateRun(t2, FileAfter(loaded.file, v, w.cleared), Ended(v, w.cleared), 1)
  }

  /** ... and in calm weather, the controller's clock at `now` and the agent's at `clock`. */
  ghost function Update(t: Tables, f: File, addresses: seq<Addr>, device: Device, s: Settings, now: int, clock: int,
                        keys: (string, string), refresh: bool): UpdateRun
  {
    UpdateUnder(t, f, addresses, device, s, keys, (Calm(now, clock), Calm(now, clock)), refresh)
  }

  class DeviceAgent {
    const handler: Handler
    const device: Device
    var file: File

    constructor (handler: Handler, device: Device, file: File)
      ensures this.handler == handler && this.device == device && this.file == file
    {
      this.handler, this.device, this.file := handler, device, file;
    }

    method FetchPrecondition(trip: StatusTrip) returns (precondition: Result<(string, bool), AgentError>)
      modifies handler.store
      ensures (handler.store.Contents(), precondition) == FetchUnder(old(handler.store.Contents()), device, handler.settings, trip)
    {
      if !trip.sent {
        return Err(NoReply);
      }
      var response := handler.GetStatus(device, trip.now, trip.turn);
      if !trip.answered {
        return Err(NoReply);
      }
      if response.Failure? && response.status == 404 {
        return Ok(("", true));
      }
      if response.Failure? || response.status != 200 {
        return Err(StatusFailed(response.status));
      }
      var generation := ParseGenerationETag(response.etag);
      if generation.Err? {
        return Err(BadStatusETag);
      }
      if response.state.generation != generation.value {
        return Err(BadStatusETag);
      }
      return Ok((response.etag, false));
    }

    method LoadOrCreatePending(hash: Digest, key: string, weather: Weather) returns (pending: Result<Pending, AgentError>)
      modifies this`file, handler.store
      ensures Loaded(handler.store.Contents(), file, pending)
           == LoadOrCreate(old(handler.store.Contents()), old(file), hash, device, handler.settings, key, weather)
    {
      hide Run;
      if !weather.readable {
        return Err(FileUnreadable);
      }
      if Usable(file, hash) {
        return Ok(file.pending);
      }
      handler.store.Perform(weather.beforeStatus);
      var precondition := FetchPrecondition(weather.status);
      if precondition.Err? {
        return Err(precondition.error);
      }
      var state := Pending(hash, key, precondition.value.0, precondition.value.1);
      if !weather.written {
        return Err(FileUnwritable);
      }
      file := Saved(state);
      return Ok(state);
    }

    method ClearPending(cleared: bool) returns (ok: bool)
      modifies this`file
      ensures ok == cleared && file == if cleared then Absent else old(file)
    {
      if cleared {
        file := Absent;
      }
      return cleared;
    }

    method UpdateOnce(addresses: seq<Addr>, keys: (string, string), weather: (Weather, Weather), refresh: bool)
      returns (result: Result<State, AgentError>, puts: nat)
      modifies this`file, handler.store
      ensures UpdateRun(handler.store.Contents(), file, result, puts)
           == UpdateUnder(old(handler.store.Contents()), old(file), addresses, device, handler.settings, keys, weather, refresh)
      decreases refresh
    {
      hide PutUnder, LoadOrCreate, Run;
      if |addresses| == 0 {
        return Err(NoAddressesFound), 0;
      }
      var payload := AddressesFromNetIP(addresses);
      var hash := AddressesHash(addresses);
      var pending := LoadOrCreatePending(hash, keys.0, weather.0);
      if pending.Err? {
        return Err(pending.error), 0;
      }
      handler.store.Perform(weather.0.beforePut);
      if !weather.0.put.sent {
        return Err(NoReply), 1;
      }
      var response := handler.PutEndpoints(device, pending.value.HeadersFor(), Document(payload), weather.0.put.now, weather.0.put.fault);
      handler.store.Perform(weather.0.beforeReply);
      if !weather.0.put.answered {
        return Err(NoReply), 1;
      }
      if response.Failure? || response.status != 202 {
        if response.status == 409 {
          var _ := ClearPending(weather.0.cleared);
        }
        if response.status == 412 {
          var cleared := ClearPending(weather.0.cleared);
          if !cleared {
            return Err(FileStuck), 1;
          }
          if refresh {
            result, puts := UpdateOnce(addresses, (keys.1, keys.1), (weather.1, weather.1), false);
            return result, puts + 1;
          }
        }
        return Err(AgentError.Refused(response.status)), 1;
      }
      var generation := ParseGenerationETag(response.etag);
      if generation.Err? || generation.value != response.state.generation {
        return Err(BadETag), 1;
      }
      var cleared := ClearPending(weather.0.cleared);
      if !cleared {
        return Err(FileStuck), 1;
      }
      if !(response.state.leaseExpiresAt > weather.0.clock) {
        if refresh {
          result, puts := UpdateOnce(addresses, (keys.1, keys.1), (weather.1, weather.1), false);
          return result, puts + 1;
        }
        return Err(LeaseOver), 1;
      }
      return Ok(response.state), 1;
    }
  }
}
