/** What a `publicly-observed` mark proves about the window it closes. */
module ObservedTruth {
  import opened Order
  import opened Addresses
  import opened DesiredState
  import opened StoreRuns
  import opened History
  import opened DnsUpdate
  import opened Observer
  import opened Publication
  import opened OriginTruth

  /** The world before event `m`. */
  ghost function At(w: World, events: seq<Event>, m: nat): World
    requires m <= |events|
  {
    Play(w, events[..m])
  }

  lemma AtStart(w: World, events: seq<Event>)
    ensures At(w, events, 0) == w
  {
  }

  lemma AtNext(w: World, events: seq<Event>, m: nat)
    requires m < |events|
    ensures At(w, events, m + 1) == Next(At(w, events, m), events[m])
  {
    assert events[..m + 1][..m] == events[..m];
  }

  // ------------------------------------------------------------ the window

  ghost predicate Lists(w: World, e: Event, item: Intent) {
    e.ListObservation? && Allowed(w, e) && item in Listing(w.tables, ObservationBacklog, e.limit)
  }

  ghost predicate Queued(w: World, item: Intent) {
    w.phase.Observing? && item in w.phase.queue
  }

  lemma QueueStep(w: World, e: Event, item: Intent)
    requires Queued(Next(w, e), item)
    ensures Queued(w, item) || (Lists(w, e, item) && !w.phase.Observing?)
  {
  }

  /** A row queued for observation was listed at one point and has been queued
      ever since. */
  lemma {:induction false} WindowOpens(w: World, events: seq<Event>, n: nat, item: Intent) returns (i: nat)
    requires n <= |events| && w.phase.Idle? && Queued(At(w, events, n), item)
    ensures i < n && Lists(At(w, events, i), events[i], item) && !At(w, events, i).phase.Observing?
    ensures forall m :: i < m <= n ==> Queued(At(w, events, m), item)
    decreases n
  {
    hide At, Next, Lists;
    AtStart(w, events);
    AtNext(w, events, n - 1);
    QueueStep(At(w, events, n - 1), events[n - 1], item);
    if Queued(At(w, events, n - 1), item) {
      i := WindowOpens(w, events, n - 1, item);
    } else {
      i := n - 1;
    }
  }

  /** The event is server `s` giving the row's addresses, authoritatively. */
  ghost predicate AnswersAs(w: World, e: Event, item: Intent, s: nat) {
    e.Ask? && Allowed(w, e) && w.phase.asked == s && w.phase.queue[0] == item && Agrees(e.replies, item.hostname, item.addresses)
  }

  ghost predicate Counted(w: World, item: Intent, s: nat) {
    w.phase.Observing? && w.phase.queue != [] && w.phase.queue[0] == item && s < w.phase.asked
  }

  lemma CountStep(w: World, e: Event, item: Intent, s: nat)
    requires Counted(Next(w, e), item, s)
    ensures Counted(w, item, s) || (w.phase.Observing? && AnswersAs(w, e, item, s))
  {
  }

  /** Each counted server gave one agreeing answer inside the window. */
  lemma {:induction false} ServerAnswered(w: World, events: seq<Event>, n: nat, item: Intent, s: nat) returns (m: nat)
    requires n <= |events| && w.phase.Idle? && Counted(At(w, events, n), item, s)
    ensures m < n && AnswersAs(At(w, events, m), events[m], item, s)
    ensures forall x :: m <= x <= n ==> At(w, events, x).phase.Observing?
    decreases n
  {
    hide At, Next, AnswersAs;
    AtStart(w, events);
    AtNext(w, events, n - 1);
    CountStep(At(w, events, n - 1), events[n - 1], item, s);
    if Counted(At(w, events, n - 1), item, s) {
      m := ServerAnswered(w, events, n - 1, item, s);
    } else {
      m := n - 1;
    }
  }

  // ----------------------------------------------------- inside the window

  /** The row still holds the item's generation and addresses, and the origin shows them. */
  ghost predicate Held(w: World, item: Intent) {
    && item.deviceID in w.tables.intents
    && w.tables.intents[item.deviceID].generation == item.generation
    && w.tables.intents[item.deviceID].hostname == item.hostname
    && w.tables.intents[item.deviceID].addresses == item.addresses
    && AddressesAt(w.zone, item.hostname) == Elements(item.addresses)
  }

  lemma ServedIsHeld(w: World, item: Intent)
    requires Known(w, item) && DeviceOk(w, item.deviceID) && w.served[item.deviceID] >= item.generation
    ensures w.tables.intents[item.deviceID].generation == item.generation ==> Held(w, item)
  {
    hide IsCanonical, AddressesAt, Elements;
  }

  lemma QueuedIsHeld(w: World, item: Intent)
    requires Inv(w) && Queued(w, item)
    ensures Known(w, item)
    ensures w.tables.intents[item.deviceID].generation == item.generation ==> Held(w, item)
  {
    hide HistoryOk, AddressesAt, Elements, NamesOk, Held;
    assert ToObserve(w, item);
    ServedIsHeld(w, item);
  }

  lemma ListedIsHeld(w: World, e: Event, item: Intent)
    requires Inv(w) && Lists(w, e, item)
    ensures Held(w, item)
  {
    hide HistoryOk, AddressesAt, Elements, NamesOk, Held, PhaseOk;
    var q := Listing(w.tables, ObservationBacklog, e.limit);
    var i :| 0 <= i < |q| && q[i] == item;
    ListedIsKnown(w, ObservationBacklog, e.limit, i);
    hide Listing;
    assert DeviceOk(w, item.deviceID);
    ServedIsHeld(w, item);
  }

  /** The event makes the item's generation publicly observed. */
  ghost predicate Observes(w: World, e: Event, item: Intent) {
    && e == Confirm(true) && Allowed(w, e) && item == w.phase.queue[0]
    && item.deviceID in w.tables.intents
    && w.tables.intents[item.deviceID].generation == item.generation <= w.tables.intents[item.deviceID].originApplied
  }

  lemma HeldInWindow(w: World, events: seq<Event>, m: nat, n: nat, item: Intent)
    requires Inv(w) && m <= n < |events|
    requires Lists(At(w, events, m), events[m], item) || Queued(At(w, events, m), item)
    requires Observes(At(w, events, n), events[n], item)
    ensures Held(At(w, events, m), item)
  {
    BetweenPoints(w, events, m, n);
    var early, late := At(w, events, m), At(w, events, n);
    hide At, Play, Inv, Allowed, Lists, Queued, Held, Known;
    if Queued(early, item) {
      QueuedIsHeld(early, item);
      StillThere(early, late, item);
    } else {
      ListedIsHeld(early, events[m], item);
    }
  }

  lemma StillThere(early: World, late: World, item: Intent)
    requires Known(early, item) && Moves(early, late)
    requires item.deviceID in late.tables.intents && late.tables.intents[item.deviceID].generation == item.generation
    ensures early.tables.intents[item.deviceID].generation == item.generation
  {
  }

  lemma ConfirmHolds(w: World, item: Intent)
    requires Observes(w, Confirm(true), item) && Held(w, item)
    ensures Held(Next(w, Confirm(true)), item)
    ensures
      var marked := Next(w, Confirm(true)).tables.intents;
      item.deviceID in marked && marked[item.deviceID].publicObserved == item.generation
  {
  }

  ghost predicate AnsweredWithin(w: World, events: seq<Event>, i: nat, n: nat, item: Intent, s: nat)
    requires n <= |events|
  {
    exists m :: i < m < n && AnswersAs(At(w, events, m), events[m], item, s)
  }

  /** When a generation is marked publicly observed, the row was listed at some
      earlier point; from that listing through the mark the row stayed at that
      generation and the origin showed exactly its addresses; and every public
      server gave one authoritative answer equal to them inside that window. */
  lemma PublicObservationIsTrue(w: World, events: seq<Event>, n: nat, item: Intent) returns (i: nat)
    requires Initial(w) && n < |events| && Observes(At(w, events, n), events[n], item)
    ensures i < n && Lists(At(w, events, i), events[i], item)
    ensures forall m :: i <= m <= n + 1 ==> Held(At(w, events, m), item)
    ensures forall s: nat :: s < w.servers ==> AnsweredWithin(w, events, i, n, item, s)
    ensures
      var marked := At(w, events, n + 1).tables.intents;
      item.deviceID in marked && marked[item.deviceID].publicObserved == item.generation
  {
    hide Inv, Lists, Held, AnswersAs, Counted, Play, NamesOk, DeviceOk, PhaseOk;
    InitialInv(w);
    assert Queued(At(w, events, n), item);
    hide Queued;
    i := WindowOpens(w, events, n, item);
    AllServersCounted(w, events, n, item);
    forall m | i <= m <= n ensures Held(At(w, events, m), item) {
      HeldInWindow(w, events, m, n, item);
    }
    AtNext(w, events, n);
    ConfirmHolds(At(w, events, n), item);
    hide Observes, At, Next;
    forall s: nat | s < w.servers ensures AnsweredWithin(w, events, i, n, item, s) {
      var m := ServerAnswered(w, events, n, item, s);
      assert i < m;
    }
  }

  lemma AllServersCounted(w: World, events: seq<Event>, n: nat, item: Intent)
    requires Inv(w) && n < |events| && Observes(At(w, events, n), events[n], item)
    ensures forall s: nat :: s < w.servers ==> Counted(At(w, events, n), item, s)
  {
    hide Inv, Play;
    PlayKeeps(w, events[..n]);
  }

  // ------------------------------------------------- every observation is one

  ghost function ObservedOf(w: World, d: string): int {
    if d in w.tables.intents then w.tables.intents[d].publicObserved else 0
  }

  /** No write and no sweep changes what has been observed, ... */
  lemma ControlKeepsObserved(w: World, op: Op, d: string)
    requires WellFormed(w.tables)
    ensures ObservedOf(Next(w, Control(op)), d) == ObservedOf(w, d)
  {
    hide Step, Record, Tracked, RowAdvances;
    if IsControl(op) {
      ControlOpMoves(w.tables, op);
    }
  }

  /** ... and nothing else does but a recorded confirmation. */
  lemma OnlyConfirmsObserve(w: World, e: Event, d: string)
    requires Inv(w) && ObservedOf(Next(w, e), d) != ObservedOf(w, d)
    ensures e == Confirm(true) && Allowed(w, e) && Observes(w, e, w.phase.queue[0])
    ensures w.phase.queue[0].deviceID == d && w.phase.queue[0].generation == ObservedOf(Next(w, e), d)
  {
    hide Step, Listing, Replacement, ApplyAll, Record, Tracked, Agrees, WellFormed, DeviceOk, NamesOk, PhaseOk;
    if e.Control? {
      ControlKeepsObserved(w, e.op, d);
    }
  }

  /** A row is publicly observed at a generation only because that very generation was
      confirmed: its row was listed, kept generation and addresses and stayed at the origin
      until the confirmation, and every public server agreed in between. */
  lemma {:induction false} ObservedWasConfirmed(w: World, events: seq<Event>, k: nat, d: string) returns (n: nat, item: Intent, i: nat)
    requires Initial(w) && k <= |events| && ObservedOf(At(w, events, k), d) != 0
    ensures n < k && Observes(At(w, events, n), events[n], item)
    ensures item.deviceID == d && item.generation == ObservedOf(At(w, events, k), d)
    ensures i < n && Lists(At(w, events, i), events[i], item)
    ensures forall m :: i <= m <= n + 1 ==> Held(At(w, events, m), item)
    ensures forall s: nat :: s < w.servers ==> AnsweredWithin(w, events, i, n, item, s)
    decreases k
  {
    hide Initial, Inv, At, Next, Observes, Lists, Held, AnsweredWithin, ObservedOf;
    NothingObservedAtFirst(w, events, d);
    AtNext(w, events, k - 1);
    var before := At(w, events, k - 1);
    if ObservedOf(Next(before, events[k - 1]), d) == ObservedOf(before, d) {
      n, item, i := ObservedWasConfirmed(w, events, k - 1, d);
    } else {
      ReachedInv(w, events, k - 1);
      OnlyConfirmsObserve(before, events[k - 1], d);
      n, item := k - 1, before.phase.queue[0];
      i := PublicObservationIsTrue(w, events, n, item);
    }
  }

  lemma NothingObservedAtFirst(w: World, events: seq<Event>, d: string)
    requires Initial(w)
    ensures ObservedOf(At(w, events, 0), d) == 0
  {
  }

  lemma ReachedInv(w: World, events: seq<Event>, n: nat)
    requires Initial(w) && n <= |events|
    ensures Inv(At(w, events, n))
  {
    hide Initial, Inv, Play;
    InitialInv(w);
    PlayKeeps(w, events[..n]);
  }

  /** So the reported status is true: what is reported as applied or observed is what the
      origin shows, and a row is reported as observed exactly if its generation was confirmed. */
  lemma ReportedStatusIsTrue(w: World, events: seq<Event>, d: string)
    requires Initial(w) && d in Play(w, events).tables.intents
    ensures
      var now := Play(w, events);
      var row := now.tables.intents[d];
      && (StatusOf(row).Accepted? <==> row.originApplied < row.generation)
      && (!StatusOf(row).Accepted? ==> AddressesAt(now.zone, row.hostname) == Elements(row.addresses))
      && (StatusOf(row).PubliclyObserved? <==> exists n: nat, item :: ConfirmedAt(w, events, n, item) && item.deviceID == d && item.generation == row.generation)
  {
    hide Initial, At, Play, Observes, AddressesAt, Elements, Inv;
    var now := Play(w, events);
    var row := now.tables.intents[d];
    AppliedMeansServed(w, events, d);
    ReachedRow(w, events, d);
    if row.publicObserved == row.generation {
      var n, item, i := ObservedWasConfirmed(w, events, |events|, d);
      assert ConfirmedAt(w, events, n, item);
    }
    if n: nat, item :| ConfirmedAt(w, events, n, item) && item.deviceID == d && item.generation == row.generation {
      ConfirmedStays(w, events, n, item);
    }
  }

  /** The event makes the item's generation publicly observed, in this run. */
  ghost predicate ConfirmedAt(w: World, events: seq<Event>, n: nat, item: Intent) {
    n < |events| && Observes(At(w, events, n), events[n], item)
  }

  lemma ReachedRow(w: World, events: seq<Event>, d: string)
    requires Initial(w) && d in Play(w, events).tables.intents
    ensures At(w, events, |events|) == Play(w, events)
    ensures RowOk(d, Play(w, events).tables.intents[d])
  {
    hide Initial, Play, DeviceOk, NamesOk, PhaseOk, RowOk;
    assert events[..|events|] == events;
    ReachedInv(w, events, |events|);
  }

  lemma ConfirmedStays(w: World, events: seq<Event>, n: nat, item: Intent)
    requires Initial(w) && ConfirmedAt(w, events, n, item)
    ensures
      var now := Play(w, events).tables.intents;
      item.deviceID in now && now[item.deviceID].publicObserved >= item.generation
  {
    hide Initial, Inv, At, Play, Next, Lists, Held, AnsweredWithin, Observes, Rank, StatusOf;
    var _ := PublicObservationIsTrue(w, events, n, item);
    ReachedInv(w, events, n + 1);
    SplitAt(w, events, n + 1);
    PlayKeeps(At(w, events, n + 1), events[n + 1..]);
  }

  lemma SplitAt(w: World, events: seq<Event>, m: nat)
    requires m <= |events|
    ensures Play(w, events) == Play(At(w, events, m), events[m..])
  {
    assert events == events[..m] + events[m..];
    PlayAppend(w, events[..m], events[m..]);
  }
}
