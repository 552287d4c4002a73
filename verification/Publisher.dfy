/** One publisher pass as the code runs it (`internal/publisher`), tied to the
    machine of `Publication`: every pass is a run of that machine, with whatever
    controller operations happen to fall between its steps. */
module Publisher {
  import opened Results
  import opened Order
  import opened Addresses
  import opened Names
  import opened DesiredState
  import opened StoreRuns
  import opened History
  import opened SQLiteStore
  import opened DnsUpdate
  import opened Observer
  import opened Publication

  datatype Failure =
    | ExpireFailed
    | ListOriginFailed
    | PublishFailed(device: string, generation: int)
    | MarkAppliedFailed(device: string, generation: int)
    | ListObservationFailed
    | ObserveFailed(device: string, generation: int)
    | MarkObservedFailed(device: string, generation: int)

  /** What the surroundings do during one pass: which store calls work, how each
      exchange ends, what the public servers answer, and which controller
      operations run before each step. */
  datatype Surroundings = Surroundings(
    sweepOk: bool,
    listOriginOk: bool,
    listObservationOk: bool,
    exchange: nat -> Exchange,
    message: nat -> string,
    markOk: nat -> bool,
    replies: nat -> seq<ServerReplies>,
    confirmOk: nat -> bool,
    beforeListing: seq<Op>,
    whileWriting: nat -> seq<Op>,
    beforeObserving: seq<Op>,
    whileObserving: nat -> seq<Op>,
    betweenServers: nat -> (nat -> seq<Op>))

  /** The failure one event adds to the joined error of its pass. */
  ghost function FailureOf(w: World, e: Event, observing: bool): seq<Failure> {
    if !Allowed(w, e) then []
    else match e
      case SkipOrigin => [ListOriginFailed]
      case Send(x, _, _) => if x.Acknowledged? then [] else [PublishFailed(w.phase.queue[0].deviceID, w.phase.queue[0].generation)]
      case Mark(stored) => if stored then [] else [MarkAppliedFailed(w.phase.queue[0].deviceID, w.phase.queue[0].generation)]
      case Ask(r) =>
        if w.servers > 0 && Usable(r.a) && Usable(r.aaaa) then []
        else [ObserveFailed(w.phase.queue[0].deviceID, w.phase.queue[0].generation)]
      case Confirm(stored) => if stored then [] else [MarkObservedFailed(w.phase.queue[0].deviceID, w.phase.queue[0].generation)]
      case EndPass => if w.phase.Writing? && observing then [ListObservationFailed] else []
      case _ => []
  }

  ghost function Report(w: World, events: seq<Event>, observing: bool): seq<Failure>
    decreases events
  {
    if events == [] then []
    else
      var front := events[..|events| - 1];
      Report(w, front, observing) + FailureOf(Play(w, front), events[|events| - 1], observing)
  }

  /** Every event was one the machine allows, and the publisher never crashed. */
  ghost predicate Faithful(w: World, events: seq<Event>)
    decreases events
  {
    events != [] ==>
      var front := events[..|events| - 1];
      Faithful(w, front) && Allowed(Play(w, front), events[|events| - 1]) && !events[|events| - 1].Crash?
  }

  class Service {
    const store: SQLite
    const dns: Primary
    const servers: nat
    const ttl: int
    const batchSize: int
    const observing: bool
    const text: Addr -> string
    ghost const start: World
    ghost var trace: seq<Event>

    ghost function Now(): World
      reads this
    {
      Play(start, trace)
    }

    ghost function Reported(): seq<Failure>
      reads this
    {
      Report(start, trace, observing)
    }

    ghost predicate Valid()
      reads this, store, dns
    {
      && Now().tables == store.Contents() && Now().zone == dns.zone
      && Now().servers == servers && Now().names == start.names
      && Injective(text) && Faithful(start, trace)
    }

    // ------------------------------------------------- the events of a pass

    ghost function Reaching(name: Name, x: Exchange): Exchange {
      if IsSubDomain(dns.origin, name) && name != dns.origin && dns.credentials then x else Refused
    }

    ghost function WriteEvents(intent: Intent, env: Surroundings, i: nat): seq<Event> {
      var x := Reaching(intent.hostname, env.exchange(i));
      Controls(env.whileWriting(2 * i)) + [Send(x, ttl, env.message(i))] + Controls(env.whileWriting(2 * i + 1))
      + [if x.Acknowledged? then Mark(env.markOk(i)) else NoteFailure(env.markOk(i))]
    }

    ghost function PublishEvents(pending: seq<Intent>, env: Surroundings, n: nat): seq<Event>
      requires n <= |pending|
    {
      if n == 0 then [] else PublishEvents(pending, env, n - 1) + WriteEvents(pending[n - 1], env, n - 1)
    }

    ghost function ObserveRowEvents(intent: Intent, env: Surroundings, i: nat): seq<Event> {
      Controls(env.whileObserving(2 * i)) + AskEvents(intent, env.replies(i), env.betweenServers(i))
      + if AllAgree(intent, env.replies(i)) then Controls(env.whileObserving(2 * i + 1)) + [Confirm(env.confirmOk(i))] else []
    }

    ghost function ObserveEvents(pending: seq<Intent>, env: Surroundings, n: nat): seq<Event>
      requires n <= |pending|
    {
      if n == 0 then [] else ObserveEvents(pending, env, n - 1) + ObserveRowEvents(pending[n - 1], env, n - 1)
    }

    ghost function Listed(before: seq<Event>, which: Backlog): seq<Intent> {
      Listing(Play(start, before).tables, which, batchSize)
    }

    ghost function PublishTrace(before: seq<Event>, env: Surroundings): seq<Event> {
      if !env.listOriginOk then before + [SkipOrigin]
      else
        var pending := Listed(before, OriginBacklog);
        before + [ListOrigin(batchSize)] + PublishEvents(pending, env, |pending|)
    }

    ghost function ObserveTrace(before: seq<Event>, env: Surroundings): seq<Event> {
      if !observing || !env.listObservationOk then before + [EndPass]
      else
        var pending := Listed(before, ObservationBacklog);
        before + [ListObservation(batchSize)] + ObserveEvents(pending, env, |pending|) + [EndPass]
    }

    /** Everything one pass does: sweep, list, write and mark every listed row in
        order, list again, ask about and mark every listed row in order. */
    ghost function PassTrace(before: seq<Event>, now: int, env: Surroundings): seq<Event> {
      var swept := if env.sweepOk then before + [Control(Sweep(now))] else before;
      ObserveTrace(PublishTrace(swept + Controls(env.beforeListing), env) + Controls(env.beforeObserving), env)
    }

    constructor (store: SQLite, dns: Primary, servers: nat, ttl: int, batchSize: int, observing: bool, text: Addr -> string, ghost start: World)
      requires start.tables == store.Contents() && start.zone == dns.zone && start.servers == servers && Injective(text)
      ensures Valid() && trace == [] && this.start == start && this.store == store && this.dns == dns
    {
      this.store, this.dns, this.servers := store, dns, servers;
      this.ttl, this.batchSize, this.observing, this.text := ttl, batchSize, observing, text;
      this.start := start;
      this.trace := [];
    }

    ghost method Happens(e: Event)
      requires Faithful(start, trace) && Allowed(Now(), e) && !e.Crash?
      modifies this`trace
      ensures Faithful(start, trace)
      ensures trace == old(trace) + [e]
      ensures Now() == Next(old(Now()), e)
      ensures Reported() == old(Reported()) + FailureOf(old(Now()), e, observing)
    {
      trace := trace + [e];
      assert trace[..|trace| - 1] == old(trace);
    }

    /** The controller's operations that fall here. */
    method Interfere(ops: seq<Op>)
      requires Valid()
      requires forall op :: op in ops ==> Allowed(Now(), Control(op))
      modifies store, this`trace
      ensures Valid() && Now().phase == old(Now().phase) && trace == old(trace) + Controls(ops)
      ensures Reported() == old(Reported())
    {
      hide Play, Report, Faithful, Injective, Upsert, Expire;
      for i := 0 to |ops|
        invariant Valid() && Now().phase == old(Now().phase) && trace == old(trace) + Controls(ops[..i])
        invariant Now().names == old(Now().names)
        invariant Reported() == old(Reported())
      {
        var op := ops[i];
        assert Allowed(Now(), Control(op));
        Happens(Control(op));
        match op {
          case Write(request) =>
            var _ := store.UpsertIntent(request, NoFault);
          case Sweep(now) =>
            var _ := store.ExpireLeases(now, true);
          case _ =>
        }
        assert Controls(ops[..i + 1]) == Controls(ops[..i]) + [Control(op)];
      }
      assert ops[..|ops|] == ops;
    }

    ghost predicate Permitted(ops: seq<Op>) {
      forall op :: op in ops ==> IsControl(op) && (op.Write? ==> op.request.hostname in start.names)
    }

    ghost predicate Civil(env: Surroundings)
      reads this
    {
      && Permitted(env.beforeListing) && Permitted(env.beforeObserving)
      && (forall k :: Permitted(env.whileWriting(k)) && Permitted(env.whileObserving(k)))
      && (forall i, k :: Permitted(env.betweenServers(i)(k)))
      && (forall i :: |env.replies(i)| == servers)
    }

    /** Sends the update for the head of the queue. */
    method Write(intent: Intent, exchange: Exchange, message: string) returns (result: Result<(), WriteError>)
      requires Valid()
      requires Now().phase.Writing? && Now().phase.queue != [] && Now().phase.queue[0] == intent
      modifies dns, this`trace
      ensures Valid() && trace == old(trace) + [Send(Reaching(intent.hostname, exchange), ttl, message)]
      ensures result.Ok? <==> Reaching(intent.hostname, exchange).Acknowledged?
      ensures Now().phase == if result.Ok? then Marking(old(Now().phase.queue)) else Failing(old(Now().phase.queue), message)
      ensures Reported() == old(Reported()) + if result.Ok? then [] else [PublishFailed(intent.deviceID, intent.generation)]
    {
      hide Play, Report, Faithful, Injective, Replacement, ApplyAll;
      result := dns.ReplaceAddressRRsets(intent.hostname, intent.addresses, ttl, exchange);
      Happens(Send(Reaching(intent.hostname, exchange), ttl, message));
    }

    method RecordApplied(intent: Intent, stored: bool) returns (failures: seq<Failure>)
      requires Valid()
      requires Now().phase.Marking? && Now().phase.queue != [] && Now().phase.queue[0] == intent
      modifies store, this`trace
      ensures Valid() && trace == old(trace) + [Mark(stored)]
      ensures Now().phase == Writing(old(Now().phase.queue)[1..])
      ensures Reported() == old(Reported()) + failures
    {
      hide Play, Report, Faithful, Injective;
      failures := [];
      if stored {
        store.MarkOriginApplied(intent.deviceID, intent.generation);
      } else {
        failures := failures + [MarkAppliedFailed(intent.deviceID, intent.generation)];
      }
      Happens(Mark(stored));
    }

    /** The outcome of recording a failure is itself ignored. */
    method RecordError(intent: Intent, message: string, stored: bool)
      requires Valid()
      requires Now().phase.Failing? && Now().phase.queue != [] && Now().phase.queue[0] == intent && Now().phase.message == message
      modifies store, this`trace
      ensures Valid() && trace == old(trace) + [NoteFailure(stored)]
      ensures Now().phase == Writing(old(Now().phase.queue)[1..])
      ensures Reported() == old(Reported())
    {
      hide Play, Report, Faithful, Injective;
      if stored {
        store.MarkPublicationError(intent.deviceID, intent.generation, message);
      }
      Happens(NoteFailure(stored));
    }

    /** One listed row: write it, then mark it. */
    method PublishRow(intent: Intent, env: Surroundings, i: nat) returns (failures: seq<Failure>)
      requires Valid() && Civil(env)
      requires Now().phase.Writing? && Now().phase.queue != [] && Now().phase.queue[0] == intent
      modifies store, dns, this`trace
      ensures Valid() && trace == old(trace) + WriteEvents(intent, env, i)
      ensures Now().phase == Writing(old(Now().phase.queue)[1..])
      ensures Reported() == old(Reported()) + failures
    {
      hide Play, Report, Faithful, Injective, Next, FailureOf, Controls, Reaching;
      failures := [];
      Interfere(env.whileWriting(2 * i));
      var result := Write(intent, env.exchange(i), env.message(i));
      Interfere(env.whileWriting(2 * i + 1));
      if result.Err? {
        failures := failures + [PublishFailed(intent.deviceID, intent.generation)];
        RecordError(intent, env.message(i), env.markOk(i));
      } else {
        var more := RecordApplied(intent, env.markOk(i));
        failures := failures + more;
      }
    }

    /** One server's answer about the head of the queue. */
    ghost method Answered(intent: Intent, r: ServerReplies)
      requires Valid() && Now().phase.Observing? && (Now().phase.asked < servers || servers == 0)
      requires Now().phase.queue != [] && Now().phase.queue[0] == intent
      modifies this`trace
      ensures Valid() && trace == old(trace) + [Event.Ask(r)]
      ensures
        var q := old(Now().phase.queue);
        Now().phase == if servers > 0 && Agrees(r, intent.hostname, intent.addresses) then Observing(q, old(Now().phase.asked) + 1) else Observing(q[1..], 0)
      ensures Reported() == old(Reported()) + if servers > 0 && Usable(r.a) && Usable(r.aaaa) then [] else [ObserveFailed(intent.deviceID, intent.generation)]
    {
      hide Play, Report, Faithful, Injective, Agrees, Usable;
      Happens(Event.Ask(r));
    }

    /** One server is asked, after whatever the controller does first. */
    method AskNext(intent: Intent, reply: ServerReplies, ops: seq<Op>, expectedValues: seq<string>) returns (result: Result<bool, ObserveError>)
      requires Valid() && Permitted(ops) && expectedValues == SortBy(Texts(UnmapAll(intent.addresses), text), StringLeq)
      requires Now().phase.Observing? && Now().phase.asked < servers && Now().phase.queue != [] && Now().phase.queue[0] == intent
      modifies store, this`trace
      ensures Valid() && trace == old(trace) + (Controls(ops) + [Event.Ask(reply)])
      ensures result == Ok(true) <==> Agrees(reply, intent.hostname, intent.addresses)
      ensures
        var q := old(Now().phase.queue);
        Now().phase == if result == Ok(true) then Observing(q, old(Now().phase.asked) + 1) else Observing(q[1..], 0)
      ensures Reported() == old(Reported()) + if result.Err? then [ObserveFailed(intent.deviceID, intent.generation)] else []
    {
      hide Play, Report, Faithful, Injective, Agrees, Usable, Next, FailureOf, Controls;
      Interfere(ops);
      result := AskServer(reply, intent.hostname, intent.addresses, expectedValues, text);
      Answered(intent, reply);
    }

    /** `ObserveAddressRRsets` for the head of the queue: asks every public server in
        turn, whatever the controller does between two of them. */
    method Ask(intent: Intent, env: Surroundings, i: nat) returns (result: Result<bool, ObserveError>)
      requires Valid() && Civil(env)
      requires Now().phase.Observing? && Now().phase.asked == 0 && Now().phase.queue != [] && Now().phase.queue[0] == intent
      modifies store, this`trace
      ensures Valid() && trace == old(trace) + AskEvents(intent, env.replies(i), env.betweenServers(i))
      ensures result == Ok(true) <==> AllAgree(intent, env.replies(i))
      ensures result == Ok(true) ==> servers > 0
      ensures Now().phase == if result == Ok(true) then Observing(old(Now().phase.queue), servers) else Observing(old(Now().phase.queue)[1..], 0)
      ensures Reported() == old(Reported()) + if result.Err? then [ObserveFailed(intent.deviceID, intent.generation)] else []
    {
      hide Now, Reported, Valid, Permitted, Agrees, Usable, Next, FailureOf, Controls, AsksFrom;
      var replies := env.replies(i);
      if |replies| == 0 {
        Answered(intent, ServerReplies(NoReply, NoReply));
        return Err(NoServers);
      }
      var expectedValues := AddressStrings(intent.addresses, text);
      ghost var between := env.betweenServers(i);
      for k := 0 to |replies|
        invariant forall j :: 0 <= j < k ==> Agrees(replies[j], intent.hostname, intent.addresses)
        invariant Valid() && trace + AsksFrom(intent, replies, between, k) == old(trace) + AsksFrom(intent, replies, between, 0)
        invariant Now().phase == Observing(old(Now().phase.queue), k)
        invariant Reported() == old(Reported())
      {
        ghost var before := trace;
        result := AskNext(intent, replies[k], env.betweenServers(i)(k), expectedValues);
        AsksUnfold(intent, replies, between, k);
        if result != Ok(true) {
          return;
        }
        assert trace + AsksFrom(intent, replies, between, k + 1) == before + AsksFrom(intent, replies, between, k);
      }
      AsksEnd(intent, replies, between);
      return Ok(true);
    }

    method RecordObserved(intent: Intent, stored: bool) returns (failures: seq<Failure>)
      requires Valid() && servers > 0
      requires Now().phase.Observing? && Now().phase.asked == servers && Now().phase.queue != [] && Now().phase.queue[0] == intent
      modifies store, this`trace
      ensures Valid() && trace == old(trace) + [Confirm(stored)]
      ensures Now().phase == Observing(old(Now().phase.queue)[1..], 0)
      ensures Reported() == old(Reported()) + failures
    {
      hide Play, Report, Faithful, Injective;
      failures := [];
      if stored {
        store.MarkPubliclyObserved(intent.deviceID, intent.generation);
      } else {
        failures := failures + [MarkObservedFailed(intent.deviceID, intent.generation)];
      }
      Happens(Confirm(stored));
    }

    /** One listed row: ask the public servers, then mark it. */
    method ObserveRow(intent: Intent, env: Surroundings, i: nat) returns (failures: seq<Failure>)
      requires Valid() && Civil(env)
      requires Now().phase.Observing? && Now().phase.asked == 0 && Now().phase.queue != [] && Now().phase.queue[0] == intent
      modifies store, this`trace
      ensures Valid() && trace == old(trace) + ObserveRowEvents(intent, env, i)
      ensures Now().phase == Observing(old(Now().phase.queue)[1..], 0)
      ensures Reported() == old(Reported()) + failures
    {
      hide Play, Report, Faithful, Injective, Agrees, Next, FailureOf, AskEvents, AllAgree, Controls, AsksFrom;
      failures := [];
      Interfere(env.whileObserving(2 * i));
      var observed := Ask(intent, env, i);
      if observed.Err? {
        return failures + [ObserveFailed(intent.deviceID, intent.generation)];
      }
      if observed.value {
        Interfere(env.whileObserving(2 * i + 1));
        failures := RecordObserved(intent, env.confirmOk(i));
      }
    }

    /** One pass. It is exactly the run `PassTrace` of the machine, from idle to idle
        through allowed events only, and reports exactly the failures of those events. */
    method RunOnce(now: int, env: Surroundings) returns (failures: seq<Failure>)
      requires Valid() && Civil(env) && Now().phase.Idle?
      modifies store, dns, this`trace
      ensures Valid() && Now().phase.Idle? && trace == PassTrace(old(trace), now, env)
      ensures
        var own := if env.sweepOk then 0 else 1;
        |failures| >= own && failures[..own] == (if env.sweepOk then [] else [ExpireFailed])
        && Reported() == old(Reported()) + failures[own..]
    {
      hide Play, Report, Faithful, Injective, Agrees;
      failures := [];
      var swept := store.ExpireLeases(now, env.sweepOk);
      if swept.Err? {
        failures := failures + [ExpireFailed];
      } else {
        Happens(Control(Sweep(now)));
      }
      ghost var own := |failures|;
      Interfere(env.beforeListing);
      var published := PublishPending(env);
      Interfere(env.beforeObserving);
      var observed := ObservePending(env);
      assert (failures + published + observed)[own..] == published + observed;
      failures := failures + published + observed;
    }

    method ListForOrigin() returns (pending: seq<Intent>)
      requires Valid() && Now().phase.Idle?
      modifies this`trace
      ensures Valid() && Now().phase == Writing(pending) && trace == old(trace) + [ListOrigin(batchSize)] && Reported() == old(Reported())
      ensures pending == Listing(old(Now().tables), OriginBacklog, batchSize)
    {
      hide Play, Report, Faithful, Injective, Listing;
      Happens(ListOrigin(batchSize));
      pending := store.ListOriginPending(batchSize);
    }

    method ListForObservation() returns (pending: seq<Intent>)
      requires Valid() && Now().phase == Writing([])
      modifies this`trace
      ensures Valid() && Now().phase == Observing(pending, 0) && trace == old(trace) + [ListObservation(batchSize)] && Reported() == old(Reported())
      ensures pending == Listing(old(Now().tables), ObservationBacklog, batchSize)
    {
      hide Play, Report, Faithful, Injective, Listing;
      Happens(ListObservation(batchSize));
      pending := store.ListObservationPending(batchSize);
    }

    method PublishListed(pending: seq<Intent>, env: Surroundings) returns (failures: seq<Failure>)
      requires Valid() && Civil(env) && Now().phase == Writing(pending)
      modifies store, dns, this`trace
      ensures Valid() && Now().phase == Writing([]) && trace == old(trace) + PublishEvents(pending, env, |pending|)
      ensures Reported() == old(Reported()) + failures
    {
      hide Play, Report, Faithful, Injective, WriteEvents;
      failures := [];
      for i := 0 to |pending|
        invariant Valid() && trace == old(trace) + PublishEvents(pending, env, i) && Now().phase == Writing(pending[i..])
        invariant Reported() == old(Reported()) + failures
      {
        assert pending[i..][1..] == pending[i + 1..];
        var more := PublishRow(pending[i], env, i);
        failures := failures + more;
      }
    }

    method PublishPending(env: Surroundings) returns (failures: seq<Failure>)
      requires Valid() && Civil(env) && Now().phase.Idle?
      modifies store, dns, this`trace
      ensures Valid() && Now().phase == Writing([]) && trace == PublishTrace(old(trace), env)
      ensures Reported() == old(Reported()) + failures
    {
      hide Play, Report, Faithful, Injective, Listing, PublishEvents;
      failures := [];
      if !env.listOriginOk {
        failures := failures + [ListOriginFailed];
        Happens(SkipOrigin);
      } else {
        var pending := ListForOrigin();
        failures := PublishListed(pending, env);
      }
    }

    method ObserveListed(pending: seq<Intent>, env: Surroundings) returns (failures: seq<Failure>)
      requires Valid() && Civil(env) && Now().phase == Observing(pending, 0)
      modifies store, this`trace
      ensures Valid() && Now().phase == Observing([], 0) && trace == old(trace) + ObserveEvents(pending, env, |pending|)
      ensures Reported() == old(Reported()) + failures
    {
      hide Play, Report, Faithful, Injective, ObserveRowEvents;
      failures := [];
      for i := 0 to |pending|
        invariant Valid() && trace == old(trace) + ObserveEvents(pending, env, i) && Now().phase == Observing(pending[i..], 0)
        invariant Reported() == old(Reported()) + failures
      {
        assert pending[i..][1..] == pending[i + 1..];
        var more := ObserveRow(pending[i], env, i);
        failures := failures + more;
      }
    }

    method ObservePending(env: Surroundings) returns (failures: seq<Failure>)
      requires Valid() && Civil(env) && Now().phase == Writing([])
      modifies store, this`trace
      ensures Valid() && Now().phase.Idle? && trace == ObserveTrace(old(trace), env)
      ensures Reported() == old(Reported()) + failures
    {
      hide Play, Report, Faithful, Injective, Listing, ObserveEvents;
      failures := [];
      if observing {
        if !env.listObservationOk {
          failures := failures + [ListObservationFailed];
        } else {
          var pending := ListForObservation();
          failures := ObserveListed(pending, env);
        }
      }
      Happens(EndPass);
    }
  }

  lemma AsksUnfold(item: Intent, replies: seq<ServerReplies>, between: nat -> seq<Op>, k: nat)
    requires k < |replies|
    ensures AsksFrom(item, replies, between, k)
         == Controls(between(k)) + [Event.Ask(replies[k])]
            + if Agrees(replies[k], item.hostname, item.addresses) then AsksFrom(item, replies, between, k + 1) else []
  {
    hide Agrees, Controls;
  }

  lemma AsksEnd(item: Intent, replies: seq<ServerReplies>, between: nat -> seq<Op>)
    ensures AsksFrom(item, replies, between, |replies|) == []
  {
  }
}
