/** `RunOnce` with nothing else running: its passes drain both backlogs as
    `Convergence` says. */
module PublisherRuns {
  import Addresses
  import opened Order
  import opened Names
  import opened DesiredState
  import opened StoreRuns
  import opened StoreLaws
  import opened History
  import opened DnsUpdate
  import opened Observer
  import opened Publication
  import opened OriginTruth
  import opened Convergence
  import opened Publisher

  /** No controller operation falls into the pass, and each public server answers or fails
      to. */
  ghost predicate Undisturbed(s: Service, env: Surroundings) {
    && env.beforeListing == [] && env.beforeObserving == []
    && (forall k :: env.whileWriting(k) == [] && env.whileObserving(k) == [])
    && (forall i, k :: env.betweenServers(i)(k) == [])
    && (forall i :: |env.replies(i)| == s.servers)
  }

  ghost function AttemptAt(s: Service, intent: Intent, env: Surroundings, i: nat): Attempt {
    Attempt(s.Reaching(intent.hostname, env.exchange(i)), env.message(i), env.markOk(i))
  }

  ghost function Attempts(s: Service, pending: seq<Intent>, env: Surroundings): seq<Attempt> {
    seq(|pending|, i requires 0 <= i < |pending| => AttemptAt(s, pending[i], env, i))
  }

  ghost function Looks(n: nat, env: Surroundings): seq<Look> {
    seq(n, i requires 0 <= i < n => Look(env.replies(i), env.confirmOk(i)))
  }

  lemma WriteEventsAlone(s: Service, intent: Intent, env: Surroundings, i: nat)
    requires Undisturbed(s, env)
    ensures s.WriteEvents(intent, env, i) == RowEvents(AttemptAt(s, intent, env, i), s.ttl)
  {
    assert Controls([]) == [];
  }

  lemma {:induction false} PublishEventsAlone(s: Service, pending: seq<Intent>, env: Surroundings, n: nat)
    requires Undisturbed(s, env) && n <= |pending|
    ensures s.PublishEvents(pending, env, n) == WorkEvents(Attempts(s, pending, env)[..n], s.ttl)
  {
    hide Undisturbed, RowEvents, Service.WriteEvents, AttemptAt;
    if n == 0 {
    } else {
      PublishEventsAlone(s, pending, env, n - 1);
      WriteEventsAlone(s, pending[n - 1], env, n - 1);
      assert Attempts(s, pending, env)[..n][..n - 1] == Attempts(s, pending, env)[..n - 1];
    }
  }

  lemma {:induction false} AsksAlone(item: Intent, replies: seq<ServerReplies>, between: nat -> seq<Op>, k: nat)
    requires forall j :: between(j) == []
    ensures AsksFrom(item, replies, between, k) == AsksFrom(item, replies, j => [], k)
    decreases |replies| - k
  {
    hide Agrees;
    if k >= |replies| {
    } else {
      AsksAlone(item, replies, between, k + 1);
    }
  }

  lemma ObserveRowAlone(s: Service, item: Intent, env: Surroundings, i: nat)
    requires Undisturbed(s, env)
    ensures s.ObserveRowEvents(item, env, i) == LookEvents(item, Look(env.replies(i), env.confirmOk(i)))
  {
    hide AllAgree, AsksFrom;
    AsksAlone(item, env.replies(i), env.betweenServers(i), 0);
    assert Controls([]) == [];
  }

  lemma {:induction false} ObserveEventsAlone(s: Service, pending: seq<Intent>, env: Surroundings, n: nat)
    requires Undisturbed(s, env) && n <= |pending|
    ensures s.ObserveEvents(pending, env, n) == LooksEvents(pending, Looks(n, env))
  {
    hide Undisturbed, LookEvents, Service.ObserveRowEvents;
    if n == 0 {
    } else {
      ObserveEventsAlone(s, pending, env, n - 1);
      ObserveRowAlone(s, pending[n - 1], env, n - 1);
      assert Looks(n, env)[..n - 1] == Looks(n - 1, env);
    }
  }

  // -------------------------------------------------------------- one pass

  /** The run up to the sweep of the next pass, that included if it works. */
  ghost function SweptTo(before: seq<Event>, now: int, env: Surroundings): seq<Event> {
    if env.sweepOk then before + [Control(Sweep(now))] else before
  }

  /** The devices that sweep empties. */
  ghost function LapsedBy(s: Service, before: seq<Event>, now: int, env: Surroundings): set<string> {
    if env.sweepOk then LapsedSet(Play(s.start, before), now) else {}
  }

  lemma SweepPlayed(s: Service, before: seq<Event>, now: int, env: Surroundings)
    ensures
      var w := Play(s.start, before);
      Play(s.start, SweptTo(before, now, env)) == if env.sweepOk then Next(w, Control(Sweep(now))) else w
  {
    hide Next;
    assert (before + [Control(Sweep(now))])[..|before|] == before;
  }

  /** What a pass lists for the origin once it has swept, if that works. */
  ghost function PendingRows(s: Service, swept: seq<Event>, env: Surroundings): seq<Intent> {
    if env.listOriginOk then s.Listed(swept, OriginBacklog) else []
  }

  /** The devices it then writes. */
  ghost function WrittenBy(s: Service, swept: seq<Event>, env: Surroundings): set<string> {
    if env.listOriginOk then
      Recorded(Batch(Play(s.start, swept), OriginBacklog, s.batchSize), Attempts(s, s.Listed(swept, OriginBacklog), env))
    else {}
  }

  /** The world between the two halves of a pass. */
  ghost function Halfway(s: Service, swept: seq<Event>, env: Surroundings): World {
    var w := Play(s.start, swept);
    if env.listOriginOk then OriginHalf(w, s.batchSize, Attempts(s, s.Listed(swept, OriginBacklog), env), s.ttl) else Next(w, SkipOrigin)
  }

  ghost function ListedHalfway(s: Service, before: seq<Event>, env: Surroundings): seq<Intent> {
    Listing(Halfway(s, before, env).tables, ObservationBacklog, s.batchSize)
  }

  /** The devices it then sees agreed on. */
  ghost function SeenBy(s: Service, before: seq<Event>, env: Surroundings): set<string> {
    if !s.observing || !env.listObservationOk then {}
    else
      var q := ListedHalfway(s, before, env);
      Seen(q, Looks(|q|, env))
  }

  lemma PublishTraceIsAHalf(s: Service, before: seq<Event>, env: Surroundings)
    requires Undisturbed(s, env)
    ensures Play(s.start, s.PublishTrace(before, env)) == Halfway(s, before, env)
  {
    hide Next, Listing, WorkEvents, Service.PublishEvents, Attempts;
    if !env.listOriginOk {
      assert (before + [SkipOrigin])[..|before|] == before;
      return;
    }
    var pending := s.Listed(before, OriginBacklog);
    PublishEventsAlone(s, pending, env, |pending|);
    AttemptsLength(s, pending, env);
    var listing := before + [ListOrigin(s.batchSize)];
    assert listing[..|listing| - 1] == before;
    PlayAppend(s.start, listing, s.PublishEvents(pending, env, |pending|));
  }

  lemma AttemptsLength(s: Service, pending: seq<Intent>, env: Surroundings)
    ensures |Attempts(s, pending, env)| == |pending| && Attempts(s, pending, env)[..|pending|] == Attempts(s, pending, env)
  {
  }

  /** After the first half: nothing but the end, or a second half and the end. */
  lemma ObserveTraceIsAHalf(s: Service, half: seq<Event>, env: Surroundings)
    requires Undisturbed(s, env)
    ensures
      var w := Play(s.start, half);
      var end := Play(s.start, s.ObserveTrace(half, env));
      if !s.observing || !env.listObservationOk then end == Next(w, EndPass)
      else
        var q := Listing(w.tables, ObservationBacklog, s.batchSize);
        end == Next(ObservationHalf(w, s.batchSize, Looks(|q|, env)), EndPass)
  {
    hide Next, Listing, LooksEvents, Service.ObserveEvents;
    var trace := s.ObserveTrace(half, env);
    if !s.observing || !env.listObservationOk {
      assert trace[..|trace| - 1] == half;
    } else {
      var pending := s.Listed(half, ObservationBacklog);
      ObserveEventsAlone(s, pending, env, |pending|);
      var listing := half + [ListObservation(s.batchSize)];
      assert listing[..|listing| - 1] == half;
      PlayAppend(s.start, listing, s.ObserveEvents(pending, env, |pending|));
      assert trace[..|trace| - 1] == listing + s.ObserveEvents(pending, env, |pending|);
    }
  }

  lemma PublishHalves(s: Service, swept: seq<Event>, env: Surroundings)
    requires Undisturbed(s, env) && Inv(Play(s.start, swept)) && Play(s.start, swept).phase.Idle?
    ensures Halved(Play(s.start, swept), Halfway(s, swept, env), s.batchSize, WrittenBy(s, swept, env))
  {
    hide Inv, Next, OriginHalf, Batch, PendingSet, Attempts, Listing, Recorded, Play;
    var w := Play(s.start, swept);
    if env.listOriginOk {
      BatchLength(s, swept, env);
      OriginHalfDrains(w, s.batchSize, Attempts(s, s.Listed(swept, OriginBacklog), env), s.ttl);
    } else {
      SkipHalves(w, s.batchSize);
    }
  }

  /** What follows the sweep. */
  lemma RestDrains(s: Service, swept: seq<Event>, env: Surroundings)
    requires Undisturbed(s, env) && Inv(Play(s.start, swept)) && Play(s.start, swept).phase.Idle? && Play(s.start, swept).servers == s.servers
    ensures Drains(Play(s.start, swept), Play(s.start, s.ObserveTrace(s.PublishTrace(swept, env), env)), s.batchSize, {}, WrittenBy(s, swept, env), SeenBy(s, swept, env))
  {
    hide Inv, Next, Halfway, WrittenBy, ObservationHalf, Halved, Looks, Listing, Seen, Play, Drains, Service.ObserveTrace, Service.PublishTrace;
    var w := Play(s.start, swept);
    PublishTraceIsAHalf(s, swept, env);
    ObserveTraceIsAHalf(s, s.PublishTrace(swept, env), env);
    PublishHalves(s, swept, env);
    var half := Halfway(s, swept, env);
    if !s.observing || !env.listObservationOk {
      WritingPassDrains(w, half, s.batchSize, WrittenBy(s, swept, env));
    } else {
      var q := ListedHalfway(s, swept, env);
      LooksLength(s, |q|, env);
      PassDrains(w, half, s.batchSize, WrittenBy(s, swept, env), Looks(|q|, env));
    }
  }

  lemma LooksLength(s: Service, n: nat, env: Surroundings)
    requires Undisturbed(s, env)
    ensures |Looks(n, env)| == n && forall i :: 0 <= i < n ==> |Looks(n, env)[i].replies| == s.servers
  {
  }

  lemma PassSplits(s: Service, before: seq<Event>, now: int, env: Surroundings)
    requires Undisturbed(s, env)
    ensures s.PassTrace(before, now, env) == s.ObserveTrace(s.PublishTrace(SweptTo(before, now, env), env), env)
  {
    hide Next, Service.ObserveTrace, Service.PublishTrace, Listing;
    var swept := SweptTo(before, now, env);
    assert Controls([]) == [];
    assert swept + [] == swept && s.PublishTrace(swept, env) + [] == s.PublishTrace(swept, env);
  }

  /** One undisturbed `RunOnce` puts the lapsed rows into the origin backlog, then takes
      exactly the rows whose write is acknowledged and recorded off it, and exactly those on
      which every public server then agrees off the observation backlog; and it ends idle. */
  lemma RunDrains(s: Service, before: seq<Event>, now: int, env: Surroundings)
    requires Undisturbed(s, env) && Inv(Play(s.start, before)) && Play(s.start, before).phase.Idle? && Play(s.start, before).servers == s.servers
    ensures
      var swept := SweptTo(before, now, env);
      Drains(Play(s.start, before), Play(s.start, s.PassTrace(before, now, env)), s.batchSize, LapsedBy(s, before, now, env), WrittenBy(s, swept, env), SeenBy(s, swept, env))
  {
    hide Inv, Next, PendingSet, Play, FirstOf, Drains, LapsedSet, WrittenBy, SeenBy, Undisturbed, Moves, Service.ObserveTrace, Service.PublishTrace, Service.PassTrace;
    var w, swept := Play(s.start, before), SweptTo(before, now, env);
    SweepPlayed(s, before, now, env);
    SweptServers(w, now);
    PassSplits(s, before, now, env);
    RestDrains(s, swept, env);
    if env.sweepOk {
      SweptPassDrains(w, now, Play(s.start, s.PassTrace(before, now, env)), s.batchSize, WrittenBy(s, swept, env), SeenBy(s, swept, env));
    }
  }

  lemma SweptServers(w: World, now: int)
    requires Inv(w) && w.phase.Idle?
    ensures
      var w' := Next(w, Control(Sweep(now)));
      Inv(w') && w'.phase.Idle? && w'.servers == w.servers
  {
    hide Inv, Next, PendingSet, LapsedSet;
    SweptWorld(w, now);
    SweepRequeues(w, now);
  }

  lemma BatchLength(s: Service, before: seq<Event>, env: Surroundings)
    ensures
      var pending := s.Listed(before, OriginBacklog);
      |Attempts(s, pending, env)| == |pending| == |Batch(Play(s.start, before), OriginBacklog, s.batchSize)|
  {
  }

  // ------------------------------------------------------------ many passes

  ghost predicate RunStep(s: Service, before: seq<Event>, now: int, env: Surroundings, after: seq<Event>) {
    Undisturbed(s, env) && after == s.PassTrace(before, now, env)
  }

  /** Undisturbed runs of `RunOnce`, one after the other. */
  ghost predicate Runs(s: Service, traces: seq<seq<Event>>, nows: seq<int>, envs: seq<Surroundings>) {
    && |traces| == |envs| + 1 && |nows| == |envs|
    && Inv(s.start) && s.start.servers == s.servers && Play(s.start, traces[0]).phase.Idle?
    && forall k :: 0 <= k < |envs| ==> RunStep(s, traces[k], nows[k], envs[k], traces[k + 1])
  }

  ghost function Worlds(s: Service, traces: seq<seq<Event>>): seq<World> {
    seq(|traces|, k requires 0 <= k < |traces| => Play(s.start, traces[k]))
  }

  ghost function LapsedIn(s: Service, traces: seq<seq<Event>>, nows: seq<int>, envs: seq<Surroundings>): seq<set<string>>
    requires |traces| == |envs| + 1 == |nows| + 1
  {
    seq(|envs|, k requires 0 <= k < |envs| => LapsedBy(s, traces[k], nows[k], envs[k]))
  }

  ghost function WrittenIn(s: Service, traces: seq<seq<Event>>, nows: seq<int>, envs: seq<Surroundings>): seq<set<string>>
    requires |traces| == |envs| + 1 == |nows| + 1
  {
    seq(|envs|, k requires 0 <= k < |envs| => WrittenBy(s, SweptTo(traces[k], nows[k], envs[k]), envs[k]))
  }

  ghost function SeenIn(s: Service, traces: seq<seq<Event>>, nows: seq<int>, envs: seq<Surroundings>): seq<set<string>>
    requires |traces| == |envs| + 1 == |nows| + 1
  {
    seq(|envs|, k requires 0 <= k < |envs| => SeenBy(s, SweptTo(traces[k], nows[k], envs[k]), envs[k]))
  }

  lemma {:induction false} RunsFormAChain(s: Service, traces: seq<seq<Event>>, nows: seq<int>, envs: seq<Surroundings>)
    requires Runs(s, traces, nows, envs)
    ensures Chain(Worlds(s, traces), s.batchSize, LapsedIn(s, traces, nows, envs), WrittenIn(s, traces, nows, envs), SeenIn(s, traces, nows, envs))
    ensures Play(s.start, traces[|envs|]).phase.Idle?
    decreases envs
  {
    hide Inv, Play, Drains, LapsedBy, WrittenBy, SeenBy, SweptTo, RunStep;
    if envs == [] {
    } else {
      var n := |envs| - 1;
      forall k | 0 <= k < n ensures RunStep(s, traces[..n + 1][k], nows[..n][k], envs[..n][k], traces[..n + 1][k + 1]) {
        assert RunStep(s, traces[k], nows[k], envs[k], traces[k + 1]);
      }
      RunsFormAChain(s, traces[..n + 1], nows[..n], envs[..n]);
      StepDrains(s, traces[n], nows[n], envs[n], traces[n + 1]);
      ChainGrows(s, traces, nows, envs);
    }
  }

  lemma StepDrains(s: Service, before: seq<Event>, now: int, env: Surroundings, after: seq<Event>)
    requires RunStep(s, before, now, env, after) && Inv(s.start) && s.start.servers == s.servers && Play(s.start, before).phase.Idle?
    ensures
      var swept := SweptTo(before, now, env);
      Drains(Play(s.start, before), Play(s.start, after), s.batchSize, LapsedBy(s, before, now, env), WrittenBy(s, swept, env), SeenBy(s, swept, env))
    ensures Play(s.start, after).phase.Idle?
  {
    hide Inv, Play, LapsedBy, WrittenBy, SeenBy, SweptTo, Undisturbed, Service.PassTrace, PendingSet, Batch, FirstOf;
    PlayKeeps(s.start, before);
    RunDrains(s, before, now, env);
  }

  lemma ChainGrows(s: Service, traces: seq<seq<Event>>, nows: seq<int>, envs: seq<Surroundings>)
    requires envs != [] && |traces| == |envs| + 1 == |nows| + 1
    requires
      var n := |envs| - 1;
      && Chain(Worlds(s, traces[..n + 1]), s.batchSize, LapsedIn(s, traces[..n + 1], nows[..n], envs[..n]),
               WrittenIn(s, traces[..n + 1], nows[..n], envs[..n]), SeenIn(s, traces[..n + 1], nows[..n], envs[..n]))
      && Drains(Play(s.start, traces[n]), Play(s.start, traces[n + 1]), s.batchSize, LapsedBy(s, traces[n], nows[n], envs[n]),
                WrittenBy(s, SweptTo(traces[n], nows[n], envs[n]), envs[n]), SeenBy(s, SweptTo(traces[n], nows[n], envs[n]), envs[n]))
    ensures Chain(Worlds(s, traces), s.batchSize, LapsedIn(s, traces, nows, envs), WrittenIn(s, traces, nows, envs), SeenIn(s, traces, nows, envs))
  {
    hide Drains, LapsedBy, WrittenBy, SeenBy, SweptTo, Play;
    var n := |envs| - 1;
    var ws, lapsed, written, seen := Worlds(s, traces), LapsedIn(s, traces, nows, envs), WrittenIn(s, traces, nows, envs), SeenIn(s, traces, nows, envs);
    forall k | 0 <= k < |written| ensures Drains(ws[k], ws[k + 1], s.batchSize, lapsed[k], written[k], seen[k]) {
      if k < n {
        assert Drains(Worlds(s, traces[..n + 1])[k], Worlds(s, traces[..n + 1])[k + 1], s.batchSize, LapsedIn(s, traces[..n + 1], nows[..n], envs[..n])[k],
                      WrittenIn(s, traces[..n + 1], nows[..n], envs[..n])[k], SeenIn(s, traces[..n + 1], nows[..n], envs[..n])[k]);
      }
    }
  }

  lemma LengthsIn(s: Service, traces: seq<seq<Event>>, nows: seq<int>, envs: seq<Surroundings>)
    requires |traces| == |envs| + 1 == |nows| + 1
    ensures |WrittenIn(s, traces, nows, envs)| == |SeenIn(s, traces, nows, envs)| == |LapsedIn(s, traces, nows, envs)| == |envs|
    ensures |Worlds(s, traces)| == |envs| + 1
  {
  }

  /** How many rows join the origin backlog, or stop being observed, in each run. */
  ghost function JoiningIn(s: Service, traces: seq<seq<Event>>, nows: seq<int>, envs: seq<Surroundings>): seq<nat>
    requires |traces| == |envs| + 1 == |nows| + 1
  {
    LengthsIn(s, traces, nows, envs);
    Joining(Worlds(s, traces), LapsedIn(s, traces, nows, envs))
  }

  ghost function ReturningIn(s: Service, traces: seq<seq<Event>>, nows: seq<int>, envs: seq<Surroundings>): seq<nat>
    requires |traces| == |envs| + 1 == |nows| + 1
  {
    LengthsIn(s, traces, nows, envs);
    Returning(Worlds(s, traces), LapsedIn(s, traces, nows, envs))
  }

  /** Convergence of `RunOnce` itself: after undisturbed runs with any outcomes, what
      waits for the origin is what there was and what lapsed on the way, less the writes that
      succeeded; it is nothing exactly when those number as many as the rows there were and
      joined, which no fewer runs can do than batches hold them; and then the origin shows
      every row. */
  lemma RunOnceConverges(s: Service, traces: seq<seq<Event>>, nows: seq<int>, envs: seq<Surroundings>)
    requires Runs(s, traces, nows, envs)
    ensures
      var first, end := Play(s.start, traces[0]), Play(s.start, traces[|envs|]);
      var n, total := |PendingSet(first, OriginBacklog)| + Sum(JoiningIn(s, traces, nows, envs)), Total(WrittenIn(s, traces, nows, envs));
      && |PendingSet(end, OriginBacklog)| + total == n
      && (PendingSet(end, OriginBacklog) == {} <==> total == n)
      && (PendingSet(end, OriginBacklog) == {} ==> Capacity(s.batchSize, |envs|) >= n)
      && (PendingSet(end, OriginBacklog) == {} ==> forall d :: d in end.tables.intents ==>
            AddressesAt(end.zone, end.tables.intents[d].hostname) == Elements(end.tables.intents[d].addresses))
  {
    hide Inv, Play, Chain, RunStep, LapsedIn, WrittenIn, SeenIn, Joining, PendingSet, AddressesAt, Elements;
    RunsFormAChain(s, traces, nows, envs);
    LengthsIn(s, traces, nows, envs);
    PlayKeeps(s.start, traces[0]);
    var ws, lapsed, written, seen := Worlds(s, traces), LapsedIn(s, traces, nows, envs), WrittenIn(s, traces, nows, envs), SeenIn(s, traces, nows, envs);
    assert ws[0] == Play(s.start, traces[0]) && ws[|envs|] == Play(s.start, traces[|envs|]);
    BacklogAfter(ws, s.batchSize, lapsed, written, seen);
    OriginBacklogEmpties(ws, s.batchSize, lapsed, written, seen);
  }

  /** ... and every row is publicly observed exactly when what was seen agreed on numbers
      as many as the rows of both backlogs and those that lapsed out of neither. */
  lemma RunOnceObserves(s: Service, traces: seq<seq<Event>>, nows: seq<int>, envs: seq<Surroundings>)
    requires Runs(s, traces, nows, envs)
    ensures
      var first, end := Play(s.start, traces[0]), Play(s.start, traces[|envs|]);
      var n := |PendingSet(first, OriginBacklog)| + |PendingSet(first, ObservationBacklog)| + Sum(ReturningIn(s, traces, nows, envs));
      var total := Total(SeenIn(s, traces, nows, envs));
      && ((forall d :: d in end.tables.intents ==> StatusOf(end.tables.intents[d]) == PubliclyObserved) <==> total == n)
      && (total == n ==> Capacity(s.batchSize, |envs|) >= n)
  {
    hide Inv, Play, Chain, RunStep, LapsedIn, WrittenIn, SeenIn, Returning, PendingSet, StatusOf;
    RunsFormAChain(s, traces, nows, envs);
    LengthsIn(s, traces, nows, envs);
    PlayKeeps(s.start, traces[0]);
    var ws := Worlds(s, traces);
    assert ws[0] == Play(s.start, traces[0]) && ws[|envs|] == Play(s.start, traces[|envs|]);
    AllObserved(ws, s.batchSize, LapsedIn(s, traces, nows, envs), WrittenIn(s, traces, nows, envs), SeenIn(s, traces, nows, envs));
  }

  // --------------------------------------------------------- rows keep what they hold

  /** Every row holds what it held, at the same generation and under the same lease. */
  ghost predicate KeepsContents(w: World, w': World) {
    forall d :: d in w.tables.intents ==>
      && d in w'.tables.intents
      && w'.tables.intents[d].generation == w.tables.intents[d].generation
      && w'.tables.intents[d].addresses == w.tables.intents[d].addresses
      && w'.tables.intents[d].hostname == w.tables.intents[d].hostname
      && w'.tables.intents[d].leaseExpiresAt == w.tables.intents[d].leaseExpiresAt
      && w'.tables.intents[d].updatedAt == w.tables.intents[d].updatedAt
  }

  lemma StepKeepsContents(w: World, e: Event)
    requires !e.Control?
    ensures KeepsContents(w, Next(w, e))
  {
    hide Listing, ApplyAll, Replacement, Agrees;
  }

  ghost predicate NoControl(events: seq<Event>) {
    forall e :: e in events ==> !e.Control?
  }

  lemma {:induction false} PlayKeepsContents(w: World, events: seq<Event>)
    requires NoControl(events)
    ensures KeepsContents(w, Play(w, events))
    decreases events
  {
    hide Next;
    if events == [] {
    } else {
      PlayKeepsContents(w, events[..|events| - 1]);
      StepKeepsContents(Play(w, events[..|events| - 1]), events[|events| - 1]);
    }
  }

  lemma {:induction false} WorkIsNoControl(attempts: seq<Attempt>, ttl: int)
    ensures NoControl(WorkEvents(attempts, ttl))
    decreases attempts
  {
    if attempts == [] {
    } else {
      WorkIsNoControl(attempts[..|attempts| - 1], ttl);
    }
  }

  lemma {:induction false} AsksAreNoControl(item: Intent, replies: seq<ServerReplies>, k: nat)
    ensures NoControl(AsksFrom(item, replies, j => [], k))
    decreases |replies| - k
  {
    hide Agrees;
    assert Controls([]) == [];
    if k < |replies| {
      AsksAreNoControl(item, replies, k + 1);
    }
  }

  lemma {:induction false} LooksAreNoControl(q: seq<Intent>, looks: seq<Look>)
    requires |looks| <= |q|
    ensures NoControl(LooksEvents(q, looks))
    decreases looks
  {
    hide AllAgree, Agrees;
    if looks == [] {
    } else {
      LooksAreNoControl(q, looks[..|looks| - 1]);
      AsksAreNoControl(q[|looks| - 1], looks[|looks| - 1].replies, 0);
    }
  }

  lemma HalvesKeepContents(w: World, limit: int, attempts: seq<Attempt>, ttl: int, looks: seq<Look>)
    requires |looks| <= |Listing(w.tables, ObservationBacklog, limit)|
    ensures KeepsContents(w, OriginHalf(w, limit, attempts, ttl)) && KeepsContents(w, ObservationHalf(w, limit, looks))
  {
    hide Play, WorkEvents, LooksEvents, Listing, Next, NoControl;
    WorkIsNoControl(attempts, ttl);
    LooksAreNoControl(Listing(w.tables, ObservationBacklog, limit), looks);
    StepKeepsContents(w, ListOrigin(limit));
    StepKeepsContents(w, ListObservation(limit));
    PlayKeepsContents(Next(w, ListOrigin(limit)), WorkEvents(attempts, ttl));
    PlayKeepsContents(Next(w, ListObservation(limit)), LooksEvents(Listing(w.tables, ObservationBacklog, limit), looks));
  }

  /** After its sweep a run keeps every row's contents. */
  lemma RestKeepsContents(s: Service, swept: seq<Event>, env: Surroundings)
    requires Undisturbed(s, env)
    ensures KeepsContents(Play(s.start, swept), Play(s.start, s.ObserveTrace(s.PublishTrace(swept, env), env)))
  {
    hide Next, OriginHalf, ObservationHalf, Attempts, Looks, Listing, Play, Service.ObserveTrace, Service.PublishTrace;
    var w, half := Play(s.start, swept), Halfway(s, swept, env);
    StepKeepsContents(w, SkipOrigin);
    PublishTraceIsAHalf(s, swept, env);
    ObserveTraceIsAHalf(s, s.PublishTrace(swept, env), env);
    HalvesKeepContents(w, s.batchSize, Attempts(s, s.Listed(swept, OriginBacklog), env), s.ttl, []);
    StepKeepsContents(half, EndPass);
    var q := ListedHalfway(s, swept, env);
    LooksLength(s, |q|, env);
    HalvesKeepContents(half, s.batchSize, [], s.ttl, Looks(|q|, env));
    StepKeepsContents(ObservationHalf(half, s.batchSize, Looks(|q|, env)), EndPass);
  }

  /** What a sweep makes of the row, if one comes when its lease is over. */
  ghost predicate Aged(row: Intent, expired: bool, next: Intent) {
    && next.hostname == row.hostname && next.leaseExpiresAt == row.leaseExpiresAt
    && next.addresses == (if expired then [] else row.addresses)
    && next.generation == row.generation + (if expired then 1 else 0)
  }

  /** An undisturbed `RunOnce` whose sweep works leaves no row with addresses whose lease
      was over: it empties exactly those rows, each one generation on. */
  lemma RunSweeps(s: Service, before: seq<Event>, now: int, env: Surroundings, after: seq<Event>)
    requires RunStep(s, before, now, env, after)
    ensures
      var was, rows := Play(s.start, before).tables.intents, Play(s.start, after).tables.intents;
      && (forall d :: d in was ==> d in rows && Aged(was[d], env.sweepOk && Over(was[d], now), rows[d]))
      && (env.sweepOk ==> forall d :: d in was ==> !Over(rows[d], now))
  {
    hide Next, Play, Undisturbed, Service.ObserveTrace, Service.PublishTrace, Service.PassTrace;
    var swept := SweptTo(before, now, env);
    PassSplits(s, before, now, env);
    RestKeepsContents(s, swept, env);
    SweepPlayed(s, before, now, env);
    SweptWorld(Play(s.start, before), now);
  }

  /** A sweep of one of these runs comes when the row's lease is over. */
  ghost predicate Expires(row: Intent, nows: seq<int>, envs: seq<Surroundings>)
    requires |nows| == |envs|
  {
    exists k :: 0 <= k < |envs| && envs[k].sweepOk && Over(row, nows[k])
  }

  /** Undisturbed runs leave what a row holds alone, unless its lease is over at one of
      their sweeps: then it ends empty, one generation on. */
  lemma {:induction false} RunsAge(s: Service, traces: seq<seq<Event>>, nows: seq<int>, envs: seq<Surroundings>, d: string)
    requires Runs(s, traces, nows, envs) && d in Play(s.start, traces[0]).tables.intents
    ensures d in Play(s.start, traces[|envs|]).tables.intents
    ensures
      var row := Play(s.start, traces[0]).tables.intents[d];
      Aged(row, Expires(row, nows, envs), Play(s.start, traces[|envs|]).tables.intents[d])
    decreases envs
  {
    hide Inv, Play, RunStep;
    var row := Play(s.start, traces[0]).tables.intents[d];
    if envs == [] {
      assert !Expires(row, nows, envs);
    } else {
      var n := |envs| - 1;
      forall k | 0 <= k < n ensures RunStep(s, traces[..n + 1][k], nows[..n][k], envs[..n][k], traces[..n + 1][k + 1]) {
        assert RunStep(s, traces[k], nows[k], envs[k], traces[k + 1]);
      }
      RunsAge(s, traces[..n + 1], nows[..n], envs[..n], d);
      RunSweeps(s, traces[n], nows[n], envs[n], traces[n + 1]);
      ExpiresOnce(row, nows, envs);
    }
  }

  lemma ExpiresOnce(row: Intent, nows: seq<int>, envs: seq<Surroundings>)
    requires envs != [] && |nows| == |envs|
    ensures
      var n := |envs| - 1;
      Expires(row, nows, envs) <==> Expires(row, nows[..n], envs[..n]) || (envs[n].sweepOk && Over(row, nows[n]))
  {
    var n := |envs| - 1;
    hide Over;
    if k :| 0 <= k < n && envs[k].sweepOk && Over(row, nows[k]) {
      assert envs[..n][k].sweepOk && Over(row, nows[..n][k]);
    }
    if k :| 0 <= k < n && envs[..n][k].sweepOk && Over(row, nows[..n][k]) {
      assert envs[k].sweepOk && Over(row, nows[k]);
    }
  }

  // ------------------------------------------------------- what a pass records

  /** The update for the row reaches the origin and is acknowledged. */
  ghost predicate IsAcknowledged(s: Service, row: Intent, env: Surroundings, i: nat) {
    && (exists labels: Name :: row.hostname == labels + s.dns.origin && labels != [])
    && s.dns.credentials && env.exchange(i).Acknowledged?
  }

  lemma AcknowledgedExactly(s: Service, row: Intent, env: Surroundings, i: nat)
    ensures AttemptAt(s, row, env, i).exchange.Acknowledged? <==> IsAcknowledged(s, row, env, i)
  {
    SubDomainsPrepend(s.dns.origin, row.hostname);
    if labels: Name :| row.hostname == labels + s.dns.origin {
      assert |labels| + |s.dns.origin| == |row.hostname|;
    }
  }

  /** What the i-th write of a pass leaves in the row: applied and without error, or with
      the error of this exchange; or as it was, if that is not recorded. */
  ghost predicate Marked(s: Service, row: Intent, env: Surroundings, i: nat, next: Intent) {
    && next.originApplied == (if env.markOk(i) && IsAcknowledged(s, row, env, i) then row.generation else row.originApplied)
    && next.lastError == if !env.markOk(i) then row.lastError else if IsAcknowledged(s, row, env, i) then "" else env.message(i)
  }

  lemma HalfMarks(s: Service, swept: seq<Event>, env: Surroundings, d: string)
    requires Undisturbed(s, env) && Inv(Play(s.start, swept)) && Play(s.start, swept).phase.Idle?
    requires d in Play(s.start, swept).tables.intents
    ensures Inv(Halfway(s, swept, env)) && Halfway(s, swept, env).phase == Writing([]) && Halfway(s, swept, env).servers == Play(s.start, swept).servers
    ensures d in Halfway(s, swept, env).tables.intents
    ensures
      var row, mid := Play(s.start, swept).tables.intents[d], Halfway(s, swept, env).tables.intents[d];
      var pending := PendingRows(s, swept, env);
      && mid.publicObserved == row.publicObserved && mid.generation == row.generation
      && (forall i :: 0 <= i < |pending| && pending[i].deviceID == d ==> Marked(s, row, env, i, mid))
      && ((forall i :: 0 <= i < |pending| ==> pending[i].deviceID != d) ==> mid == row)
  {
    hide Inv, OriginHalf, Play, Undisturbed, Listing, Worked, RowAfter, IsAcknowledged, Marked, Batch, PendingSet;
    var w := Play(s.start, swept);
    PublishHalves(s, swept, env);
    if env.listOriginOk {
      var pending := s.Listed(swept, OriginBacklog);
      var attempts := Attempts(s, pending, env);
      BatchLength(s, swept, env);
      OriginHalfRows(w, s.batchSize, attempts, s.ttl);
      ListedNow(w, OriginBacklog, s.batchSize, w.phase);
      WorkedKeys(w, pending, RowsAfter(pending, attempts), Halfway(s, swept, env));
      var i := WorkedRow(w, pending, Batch(w, OriginBacklog, s.batchSize), RowsAfter(pending, attempts), Halfway(s, swept, env), d);
      if i >= 0 {
        AttemptMarks(s, pending[i], env, i);
        forall j | 0 <= j < |pending| && pending[j].deviceID == d ensures j == i {
        }
      }
    }
  }

  lemma AttemptMarks(s: Service, row: Intent, env: Surroundings, i: nat)
    ensures Marked(s, row, env, i, RowAfter(row, AttemptAt(s, row, env, i)))
    ensures RowAfter(row, AttemptAt(s, row, env, i)).publicObserved == row.publicObserved
    ensures RowAfter(row, AttemptAt(s, row, env, i)).generation == row.generation
  {
    AcknowledgedExactly(s, row, env, i);
    hide IsAcknowledged, Service.Reaching;
  }

  lemma HalfSees(w: World, limit: int, looks: seq<Look>, d: string)
    requires Inv(w) && w.phase == Writing([]) && |looks| == |Listing(w.tables, ObservationBacklog, limit)|
    requires (forall i :: 0 <= i < |looks| ==> |looks[i].replies| == w.servers) && d in w.tables.intents
    ensures
      var row, after := w.tables.intents[d], ObservationHalf(w, limit, looks).tables.intents;
      d in after && after[d] == if d in Seen(Listing(w.tables, ObservationBacklog, limit), looks) then row.(publicObserved := row.generation) else row
  {
    hide Inv, ObservationHalf, Listing, Worked, AllAgree, Batch;
    var q, ids := Listing(w.tables, ObservationBacklog, limit), Batch(w, ObservationBacklog, limit);
    ObservationHalfRows(w, limit, looks);
    ListedNow(w, ObservationBacklog, limit, w.phase);
    WorkedKeys(w, q, RowsSeen(q, looks), ObservationHalf(w, limit, looks));
    var i := WorkedRow(w, q, ids, RowsSeen(q, looks), ObservationHalf(w, limit, looks), d);
    SeenAt(q, looks, ids, d, i);
  }

  lemma EndKeepsTables(w: World)
    ensures Next(w, EndPass).tables == w.tables
  {
  }

  lemma MarkedSame(s: Service, row: Intent, env: Surroundings, i: nat, mid: Intent, next: Intent)
    requires next.originApplied == mid.originApplied && next.lastError == mid.lastError
    ensures Marked(s, row, env, i, next) <==> Marked(s, row, env, i, mid)
  {
    hide IsAcknowledged;
  }

  /** What an undisturbed `RunOnce` records: each listed row is marked by its own exchange,
      a row is observed when it is listed after the writes, every server agrees and that is
      recorded, and no other row's columns change. */
  lemma RunMarks(s: Service, before: seq<Event>, now: int, env: Surroundings, after: seq<Event>, d: string)
    requires RunStep(s, before, now, env, after) && Inv(Play(s.start, before)) && Play(s.start, before).phase.Idle? && Play(s.start, before).servers == s.servers
    requires d in Play(s.start, SweptTo(before, now, env)).tables.intents
    ensures d in Play(s.start, after).tables.intents
    ensures
      var swept := SweptTo(before, now, env);
      var row, next := Play(s.start, swept).tables.intents[d], Play(s.start, after).tables.intents[d];
      var pending := PendingRows(s, swept, env);
      && (forall i :: 0 <= i < |pending| && pending[i].deviceID == d ==> Marked(s, row, env, i, next))
      && ((forall i :: 0 <= i < |pending| ==> pending[i].deviceID != d) ==> next.originApplied == row.originApplied && next.lastError == row.lastError)
      && next.publicObserved == if d in SeenBy(s, swept, env) then row.generation else row.publicObserved
  {
    hide Inv, Next, OriginHalf, ObservationHalf, PendingSet, Play, Undisturbed, Attempts, Looks, Listing, Marked, Seen, Service.ObserveTrace, Service.PublishTrace, Service.PassTrace;
    var swept := SweptTo(before, now, env);
    SweptSets(s, before, now, env);
    SweepPlayed(s, before, now, env);
    if env.sweepOk { SweptWorld(Play(s.start, before), now); }
    PassSplits(s, before, now, env);
    PublishTraceIsAHalf(s, swept, env);
    ObserveTraceIsAHalf(s, s.PublishTrace(swept, env), env);
    HalfMarks(s, swept, env, d);
    var half := Halfway(s, swept, env);
    EndKeepsTables(half);
    if s.observing && env.listObservationOk {
      var q := ListedHalfway(s, swept, env);
      LooksLength(s, |q|, env);
      HalfSees(half, s.batchSize, Looks(|q|, env), d);
      EndKeepsTables(ObservationHalf(half, s.batchSize, Looks(|q|, env)));
      forall i: nat { MarkedSame(s, Play(s.start, swept).tables.intents[d], env, i, half.tables.intents[d], Play(s.start, after).tables.intents[d]); }
    }
  }

  // ------------------------------------------------------- what a pass reports

  /** The step is the one this failure names. */
  ghost predicate Fails(w: World, e: Event, observing: bool, f: Failure) {
    Allowed(w, e) &&
      match f
      case ExpireFailed => false
      case ListOriginFailed => e == SkipOrigin
      case PublishFailed(d, g) => e.Send? && e.exchange != Acknowledged && (w.phase.queue[0].deviceID, w.phase.queue[0].generation) == (d, g)
      case MarkAppliedFailed(d, g) => e == Mark(false) && (w.phase.queue[0].deviceID, w.phase.queue[0].generation) == (d, g)
      case ListObservationFailed => e == EndPass && w.phase == Writing([]) && observing
      case ObserveFailed(d, g) =>
        && e.Ask? && (w.phase.queue[0].deviceID, w.phase.queue[0].generation) == (d, g)
        && !(w.servers > 0 && Conclusive(e.replies.a) && Conclusive(e.replies.aaaa))
      case MarkObservedFailed(d, g) => e == Confirm(false) && (w.phase.queue[0].deviceID, w.phase.queue[0].generation) == (d, g)
  }

  ghost predicate FailsAt(w: World, events: seq<Event>, n: nat, observing: bool, f: Failure) {
    n < |events| && Fails(Play(w, events[..n]), events[n], observing, f)
  }

  /** A failure is reported exactly if one of the steps was the one it names; that an
      error could not be recorded is not among them. */
  lemma {:induction false} ReportsExactly(w: World, events: seq<Event>, observing: bool, f: Failure)
    ensures f in Report(w, events, observing) <==> exists n: nat :: FailsAt(w, events, n, observing, f)
    decreases events
  {
    hide Allowed, Play, Fails;
    if events != [] {
      var k := |events| - 1;
      var front := events[..k];
      ReportsExactly(w, front, observing, f);
      FailureFails(Play(w, front), events[k], observing, f);
      assert forall n: nat | n < k :: front[..n] == events[..n];
      if n: nat :| FailsAt(w, front, n, observing, f) {
        assert FailsAt(w, events, n, observing, f);
      }
      if n: nat :| FailsAt(w, events, n, observing, f) && n < k {
        assert FailsAt(w, front, n, observing, f);
      }
      if Fails(Play(w, front), events[k], observing, f) {
        assert FailsAt(w, events, k, observing, f);
      }
    }
  }

  lemma FailureFails(w: World, e: Event, observing: bool, f: Failure)
    ensures f in FailureOf(w, e, observing) <==> Fails(w, e, observing, f)
  {
  }

  // --------------------------------------------------- when everything works

  /** Every write is acknowledged and recorded. */
  ghost predicate AllWork(s: Service, env: Surroundings) {
    && env.listOriginOk && s.dns.credentials && (forall i :: env.exchange(i).Acknowledged? && env.markOk(i))
    && forall name :: name in s.start.names ==> IsSubDomain(s.dns.origin, name) && name != s.dns.origin
  }

  /** Every public server agrees about every row listed after the writes, and that is
      recorded. */
  ghost predicate AllSeen(s: Service, swept: seq<Event>, env: Surroundings) {
    && s.observing && env.listObservationOk
    && var q := ListedHalfway(s, swept, env);
    && forall i :: 0 <= i < |q| ==> AllAgree(q[i], env.replies(i)) && env.confirmOk(i)
  }

  /** Working runs serve the origin backlog in full batches. */
  lemma WorkingRunsWriteFully(s: Service, traces: seq<seq<Event>>, nows: seq<int>, envs: seq<Surroundings>, k: nat)
    requires Runs(s, traces, nows, envs) && (forall env :: env in envs ==> AllWork(s, env)) && k < |envs|
    ensures WritesFully(Worlds(s, traces)[k], s.batchSize, LapsedIn(s, traces, nows, envs)[k], WrittenIn(s, traces, nows, envs)[k])
  {
    hide Inv, Play, Chain, WrittenBy, SeenBy, LapsedBy, SweptTo, PendingSet, AllWork, RunStep, WritesFully, Drains;
    RunsFormAChain(s, traces, nows, envs);
    ChainStep(s, traces, nows, envs, k);
    assert envs[k] in envs;
    WorkingRunWritesAll(s, traces[k], nows[k], envs[k]);
  }

  /** When every write works, exactly as many runs are enough as there are batches from
      every run on for what still has to be written then; and then nothing is shown at the
      origin but what the rows hold. */
  lemma WorkingRunsConverge(s: Service, traces: seq<seq<Event>>, nows: seq<int>, envs: seq<Surroundings>)
    requires Runs(s, traces, nows, envs) && forall env :: env in envs ==> AllWork(s, env)
    ensures PendingSet(Play(s.start, traces[|envs|]), OriginBacklog) == {}
       <==> Covered(|PendingSet(Play(s.start, traces[0]), OriginBacklog)|, JoiningIn(s, traces, nows, envs), s.batchSize)
  {
    hide Inv, Play, Chain, LapsedIn, WrittenIn, SeenIn, Joining, PendingSet, AllWork, RunStep, WritesFully, Covered;
    RunsFormAChain(s, traces, nows, envs);
    LengthsIn(s, traces, nows, envs);
    var ws, lapsed, written := Worlds(s, traces), LapsedIn(s, traces, nows, envs), WrittenIn(s, traces, nows, envs);
    assert ws[0] == Play(s.start, traces[0]) && ws[|envs|] == Play(s.start, traces[|envs|]);
    forall k | 0 <= k < |written| ensures WritesFully(ws[k], s.batchSize, lapsed[k], written[k]) {
      WorkingRunsWriteFully(s, traces, nows, envs, k);
    }
    BacklogIsCovered(ws, s.batchSize, lapsed, written, SeenIn(s, traces, nows, envs));
  }

  /** When moreover every server agrees, every row is publicly observed exactly when the
      runs cover both backlogs and what lapses on the way. */
  lemma AgreeingRunsObserveAll(s: Service, traces: seq<seq<Event>>, nows: seq<int>, envs: seq<Surroundings>)
    requires Runs(s, traces, nows, envs) && forall env :: env in envs ==> AllWork(s, env)
    requires forall k :: 0 <= k < |envs| ==> AllSeen(s, SweptTo(traces[k], nows[k], envs[k]), envs[k])
    ensures
      var first, end := Play(s.start, traces[0]), Play(s.start, traces[|envs|]);
      (forall d :: d in end.tables.intents ==> StatusOf(end.tables.intents[d]) == PubliclyObserved)
      <==> Covered(|PendingSet(first, OriginBacklog)| + |PendingSet(first, ObservationBacklog)|, ReturningIn(s, traces, nows, envs), s.batchSize)
  {
    hide Inv, Play, Chain, LapsedBy, WrittenBy, SeenBy, SweptTo, Returning, PendingSet, AllWork, AllSeen, RunStep, WorksFully, StatusOf, LeavesAtMost, Left, Drains;
    RunsFormAChain(s, traces, nows, envs);
    LengthsIn(s, traces, nows, envs);
    var ws, lapsed, written, seen := Worlds(s, traces), LapsedIn(s, traces, nows, envs), WrittenIn(s, traces, nows, envs), SeenIn(s, traces, nows, envs);
    var first, end := Play(s.start, traces[0]), Play(s.start, traces[|envs|]);
    assert ws[0] == first && ws[|envs|] == end;
    forall k | 0 <= k < |written| ensures WorksFully(ws[k], s.batchSize, lapsed[k], written[k], seen[k]) {
      assert envs[k] in envs;
      ChainStep(s, traces, nows, envs, k);
      assert RunStep(s, traces[k], nows[k], envs[k], traces[k + 1]);
      WorkingRunWorksFully(s, traces[k], nows[k], envs[k], traces[k + 1]);
    }
    QuietObservation(ws, s.batchSize, lapsed, written, seen);
    LeftExactly(|PendingSet(first, OriginBacklog)| + |PendingSet(first, ObservationBacklog)|, ReturningIn(s, traces, nows, envs), s.batchSize, 0);
    PlayKeeps(s.start, traces[|envs|]);
    ObservedIsNotPending(end);
  }

  lemma ChainStep(s: Service, traces: seq<seq<Event>>, nows: seq<int>, envs: seq<Surroundings>, k: nat)
    requires Runs(s, traces, nows, envs) && k < |envs|
    ensures Inv(Play(s.start, traces[k])) && Play(s.start, traces[k]).phase.Idle? && Play(s.start, traces[k]).servers == s.servers
    ensures Play(s.start, traces[k]).names == s.start.names
  {
    hide Inv, Play, LapsedBy, WrittenBy, SeenBy, SweptTo, RunStep, PendingSet, FirstOf;
    RunsFormAChain(s, traces, nows, envs);
    assert Drains(Worlds(s, traces)[k], Worlds(s, traces)[k + 1], s.batchSize, LapsedIn(s, traces, nows, envs)[k],
                  WrittenIn(s, traces, nows, envs)[k], SeenIn(s, traces, nows, envs)[k]);
    PlayKeeps(s.start, traces[k]);
  }

  /** What has lapsed when the sweep is over is already in the origin backlog. */
  lemma SweptSets(s: Service, before: seq<Event>, now: int, env: Surroundings)
    requires Inv(Play(s.start, before)) && Play(s.start, before).phase.Idle?
    ensures
      var w, swept := Play(s.start, before), Play(s.start, SweptTo(before, now, env));
      && Inv(swept) && swept.phase.Idle?
      && PendingSet(swept, OriginBacklog) == PendingSet(w, OriginBacklog) + LapsedBy(s, before, now, env)
      && PendingSet(swept, ObservationBacklog) == PendingSet(w, ObservationBacklog) - LapsedBy(s, before, now, env)
  {
    hide Inv, Next, PendingSet, LapsedSet, SweptTo, Play;
    var w := Play(s.start, before);
    SweepPlayed(s, before, now, env);
    NoneLapsed(PendingSet(w, OriginBacklog), PendingSet(w, ObservationBacklog));
    if env.sweepOk {
      SweepRequeues(w, now);
    }
  }

  lemma WorkingRunWritesAll(s: Service, before: seq<Event>, now: int, env: Surroundings)
    requires AllWork(s, env) && Inv(s.start) && Play(s.start, before).phase.Idle?
    ensures WritesFully(Play(s.start, before), s.batchSize, LapsedBy(s, before, now, env), WrittenBy(s, SweptTo(before, now, env), env))
  {
    hide Inv, Play, PendingSet, AllWork, LapsedBy, WrittenBy, FirstOf, Moves, SweptTo, Batch;
    PlayKeeps(s.start, before);
    var swept := SweptTo(before, now, env);
    SweptSets(s, before, now, env);
    WorkingWritesAll(s, swept, env);
    BatchIsFirst(Play(s.start, swept), OriginBacklog, s.batchSize);
  }

  lemma WorkingRunWorksFully(s: Service, before: seq<Event>, now: int, env: Surroundings, after: seq<Event>)
    requires AllWork(s, env) && AllSeen(s, SweptTo(before, now, env), env) && RunStep(s, before, now, env, after)
    requires Inv(s.start) && s.start.servers == s.servers && Play(s.start, before).phase.Idle?
    ensures WorksFully(Play(s.start, before), s.batchSize, LapsedBy(s, before, now, env),
                       WrittenBy(s, SweptTo(before, now, env), env), SeenBy(s, SweptTo(before, now, env), env))
  {
    hide Inv, Play, PendingSet, Batch, FirstOf, AllWork, Undisturbed, OriginHalf, Listing, AllAgree, Attempts, Moves, Recorded, Looks, Seen, SweptTo, LapsedBy;
    WorkingRunWritesAll(s, before, now, env);
    PlayKeeps(s.start, before);
    SweptSets(s, before, now, env);
    var swept := SweptTo(before, now, env);
    var w, half := Play(s.start, swept), Halfway(s, swept, env);
    BatchIsFirst(w, OriginBacklog, s.batchSize);
    BatchLength(s, swept, env);
    PublishHalves(s, swept, env);
    BatchIsFirst(half, ObservationBacklog, s.batchSize);
    var q := ListedHalfway(s, swept, env);
    ListedNow(half, ObservationBacklog, s.batchSize, half.phase);
    SeenAll(q, Batch(half, ObservationBacklog, s.batchSize), env);
  }

  /** After working runs that cover the backlog the origin shows what every row holds; in
      particular nothing at the hostname of a device whose lease was over at a sweep. */
  lemma ExpiredIsWithdrawn(s: Service, traces: seq<seq<Event>>, nows: seq<int>, envs: seq<Surroundings>, d: string)
    requires Runs(s, traces, nows, envs) && (forall env :: env in envs ==> AllWork(s, env)) && d in Play(s.start, traces[0]).tables.intents
    requires Covered(|PendingSet(Play(s.start, traces[0]), OriginBacklog)|, JoiningIn(s, traces, nows, envs), s.batchSize)
    ensures
      var row, end := Play(s.start, traces[0]).tables.intents[d], Play(s.start, traces[|envs|]);
      AddressesAt(end.zone, row.hostname) == if Expires(row, nows, envs) then {} else Elements(row.addresses)
  {
    hide Inv, Play, PendingSet, AllWork, RunStep, AddressesAt, Elements, Covered, JoiningIn, Expires;
    WorkingRunsConverge(s, traces, nows, envs);
    RunsAge(s, traces, nows, envs, d);
    PlayKeeps(s.start, traces[|envs|]);
    AllShown(Play(s.start, traces[|envs|]));
    NoElements();
  }

  lemma NoElements()
    ensures Elements<Addresses.Addr>([]) == {}
  {
  }

  lemma SeenAll(q: seq<Intent>, ids: seq<string>, env: Surroundings)
    requires |q| == |ids| && forall i :: 0 <= i < |q| ==> q[i].deviceID == ids[i]
    requires forall i :: 0 <= i < |q| ==> AllAgree(q[i], env.replies(i)) && env.confirmOk(i)
    ensures Seen(q, Looks(|q|, env)) == Elements(ids)
  {
    hide AllAgree;
    var looks := Looks(|q|, env);
    forall d ensures d in Seen(q, looks) <==> d in Elements(ids) {
      if d in Elements(ids) {
        var i :| 0 <= i < |ids| && ids[i] == d;
        assert looks[i].Succeeds(q[i]);
      }
    }
  }

  lemma WorkingWritesAll(s: Service, before: seq<Event>, env: Surroundings)
    requires AllWork(s, env) && Inv(s.start)
    ensures WrittenBy(s, before, env) == Elements(Batch(Play(s.start, before), OriginBacklog, s.batchSize))
  {
    hide Inv, Play, Listing;
    PlayKeeps(s.start, before);
    var w := Play(s.start, before);
    var pending := s.Listed(before, OriginBacklog);
    BatchLength(s, before, env);
    forall i | 0 <= i < |pending| ensures Attempts(s, pending, env)[i].Succeeds() {
      ListedIsKnown(w, OriginBacklog, s.batchSize, i);
      KnownName(w, pending[i]);
    }
    var ids, attempts := Batch(w, OriginBacklog, s.batchSize), Attempts(s, pending, env);
    hide Batch, Attempts;
    forall d ensures d in Recorded(ids, attempts) <==> d in Elements(ids) {
      if d in Elements(ids) {
        var i :| 0 <= i < |ids| && ids[i] == d;
        assert attempts[i].Succeeds();
      }
    }
  }

  lemma KnownName(w: World, item: Intent)
    requires Inv(w) && Known(w, item)
    ensures item.hostname in w.names
  {
    DeviceOfInv(w, item.deviceID);
  }
}
