/** Passes of the publisher with nothing else running: how the two backlogs shrink. */
module Convergence {
  import opened Order
  import opened DesiredState
  import opened StoreRuns
  import opened History
  import opened DnsUpdate
  import opened Observer
  import opened Publication
  import opened OriginTruth

  // ----------------------------------------------------------- the backlogs

  /** The devices whose row waits for the origin, or for the public servers. */
  ghost function PendingSet(w: World, which: Backlog): set<string> {
    set d | d in w.tables.intents && Pending(w.tables.intents[d], which)
  }

  function AtMost(n: nat, bound: nat): nat {
    if n <= bound then n else bound
  }

  /** The first `limit` of a set, in device order. */
  ghost function FirstOf(s: set<string>, limit: int): (first: seq<string>)
    ensures Distinct(first) && Elements(first) <= s
    ensures |first| == |Elements(first)| == AtMost(Limit(limit), |s|)
  {
    StringOrder();
    var all := SortedSet(s, StringLeq);
    DistinctCardinality(all);
    var first := all[..AtMost(Limit(limit), |s|)];
    DistinctCardinality(first);
    first
  }

  /** The batch a listing returns. */
  ghost function Batch(w: World, which: Backlog, limit: int): seq<string> {
    FirstPending(w.tables, which, limit)
  }

  lemma BatchIsFirst(w: World, which: Backlog, limit: int)
    ensures Batch(w, which, limit) == FirstOf(PendingSet(w, which), limit)
  {
    StringOrder();
    DistinctCardinality(PendingDevices(w.tables, which));
    assert PendingDevices(w.tables, which) == SortedSet(PendingSet(w, which), StringLeq);
    hide PendingDevices, SortedSet;
  }

  // -------------------------------------------------------- working a queue

  ghost predicate RowIs(w: World, item: Intent) {
    item.deviceID in w.tables.intents && w.tables.intents[item.deviceID] == item
  }

  /** The first rows of the queue have become `after`, the others have stayed. */
  ghost predicate Worked(w: World, q: seq<Intent>, after: seq<Intent>, w': World)
    requires |after| <= |q|
  {
    && w'.tables.intents.Keys == w.tables.intents.Keys && w'.servers == w.servers
    && (forall i :: 0 <= i < |after| ==> RowIs(w, q[i]) && w'.tables.intents[q[i].deviceID] == after[i])
    && (forall d :: d in w.tables.intents && (forall i :: 0 <= i < |after| ==> q[i].deviceID != d) ==> w'.tables.intents[d] == w.tables.intents[d])
  }

  lemma WorkedStep(w: World, q: seq<Intent>, after: seq<Intent>, mid: World, w': World)
    requires OncePerDevice(q) && 0 < |after| <= |q|
    requires forall i :: 0 <= i < |q| ==> RowIs(w, q[i])
    requires
      var n := |after| - 1;
      Worked(w, q, after[..n], mid) && w'.tables.intents == mid.tables.intents[q[n].deviceID := after[n]] && w'.servers == mid.servers
    ensures Worked(w, q, after, w')
  {
    var n := |after| - 1;
    forall i | 0 <= i < |after| ensures w'.tables.intents[q[i].deviceID] == after[i] {
      if i < n { assert after[..n][i] == after[i]; }
    }
  }

  lemma HeadStays(w: World, q: seq<Intent>, after: seq<Intent>, mid: World)
    requires OncePerDevice(q) && |after| < |q| && Worked(w, q, after, mid)
    requires forall i :: 0 <= i < |q| ==> RowIs(w, q[i])
    ensures RowIs(mid, q[|after|])
  {
    assert RowIs(w, q[|after|]);
  }

  /** The devices of a worked queue, one by one. */
  lemma WorkedRow(w: World, q: seq<Intent>, ids: seq<string>, after: seq<Intent>, w': World, d: string) returns (i: int)
    requires |after| == |q| == |ids| && Worked(w, q, after, w') && d in w.tables.intents
    requires Distinct(ids) && forall j :: 0 <= j < |ids| ==> q[j].deviceID == ids[j]
    ensures -1 <= i < |ids|
    ensures i >= 0 ==> ids[i] == d && w.tables.intents[d] == q[i] && w'.tables.intents[d] == after[i]
    ensures i == -1 ==> d !in ids && w'.tables.intents[d] == w.tables.intents[d]
  {
    if j :| 0 <= j < |ids| && ids[j] == d {
      assert RowIs(w, q[j]);
      i := j;
    } else {
      assert forall j :: 0 <= j < |after| ==> q[j].deviceID == ids[j] != d;
      i := -1;
    }
  }

  /** A listing starts a queue of current rows, each device once. */
  lemma ListedNow(w: World, which: Backlog, limit: int, p: Phase)
    requires Inv(w)
    ensures
      var q, ids := Listing(w.tables, which, limit), Batch(w, which, limit);
      && OncePerDevice(q) && |q| == |ids|
      && (forall i :: 0 <= i < |q| ==> RowIs(w.(phase := p), q[i]) && q[i].deviceID == ids[i] && Pending(q[i], which))
  {
    var q := Listing(w.tables, which, limit);
    forall i | 0 <= i < |q|
      ensures RowIs(w.(phase := p), q[i]) && q[i].deviceID == FirstPending(w.tables, which, limit)[i] && Pending(q[i], which)
    {
      ListedIsKnown(w, which, limit, i);
    }
    ListedOnce(w, which, limit);
    hide Inv, FirstPending;
  }

  // ---------------------------------------------------------- origin writes

  /** What becomes of one listed row: the exchange with the origin, the error text,
      and whether the store takes the mark. */
  datatype Attempt = Attempt(exchange: Exchange, message: string, stored: bool) {
    predicate Succeeds() { exchange.Acknowledged? && stored }
  }

  /** The events for one listed row. */
  ghost function RowEvents(a: Attempt, ttl: int): seq<Event> {
    [Send(a.exchange, ttl, a.message), if a.exchange.Acknowledged? then Mark(a.stored) else NoteFailure(a.stored)]
  }

  ghost function WorkEvents(attempts: seq<Attempt>, ttl: int): seq<Event>
    decreases attempts
  {
    if attempts == [] then []
    else WorkEvents(attempts[..|attempts| - 1], ttl) + RowEvents(attempts[|attempts| - 1], ttl)
  }

  /** Listing the origin backlog and working through what was listed. */
  ghost function OriginHalf(w: World, limit: int, attempts: seq<Attempt>, ttl: int): World {
    Play(Next(w, ListOrigin(limit)), WorkEvents(attempts, ttl))
  }

  function RowAfter(row: Intent, a: Attempt): Intent {
    if !a.stored then row
    else if a.exchange.Acknowledged? then row.(originApplied := row.generation, lastError := "")
    else row.(lastError := a.message)
  }

  function RowsAfter(q: seq<Intent>, attempts: seq<Attempt>): seq<Intent>
    requires |attempts| <= |q|
  {
    seq(|attempts|, i requires 0 <= i < |attempts| => RowAfter(q[i], attempts[i]))
  }

  lemma RowWorked(w: World, a: Attempt, ttl: int)
    requires w.phase.Writing? && w.phase.queue != [] && RowIs(w, w.phase.queue[0])
    ensures
      var item := w.phase.queue[0];
      var w' := Play(w, RowEvents(a, ttl));
      && w'.phase == Writing(w.phase.queue[1..]) && w'.servers == w.servers
      && w'.tables.intents == w.tables.intents[item.deviceID := RowAfter(item, a)]
  {
    hide ApplyAll, Replacement, Record, Agrees, Listing, Play;
    var es := RowEvents(a, ttl);
    TwoSteps(w, es[0], es[1]);
    assert es == [es[0], es[1]];
    assert w.tables.intents == w.tables.intents[w.phase.queue[0].deviceID := w.phase.queue[0]];
  }

  lemma TwoSteps(w: World, e: Event, f: Event)
    ensures Play(w, [e, f]) == Next(Next(w, e), f)
  {
    hide Next;
    assert [e, f][..1] == [e] && [e][..0] == [];
    assert Play(w, [e]) == Next(w, e);
  }

  lemma {:induction false} QueueWorked(w: World, q: seq<Intent>, attempts: seq<Attempt>, ttl: int)
    requires w.phase == Writing(q) && OncePerDevice(q) && |attempts| <= |q|
    requires forall i :: 0 <= i < |q| ==> RowIs(w, q[i])
    ensures
      var w' := Play(w, WorkEvents(attempts, ttl));
      Worked(w, q, RowsAfter(q, attempts), w') && w'.phase == Writing(q[|attempts|..])
    decreases attempts
  {
    if attempts == [] {
    } else {
      var n := |attempts| - 1;
      QueueWorked(w, q, attempts[..n], ttl);
      var mid := Play(w, WorkEvents(attempts[..n], ttl));
      PlayAppend(w, WorkEvents(attempts[..n], ttl), RowEvents(attempts[n], ttl));
      hide Play, RowEvents, RowAfter, RowIs, OncePerDevice, Worked;
      assert RowsAfter(q, attempts)[..n] == RowsAfter(q, attempts[..n]);
      HeadStays(w, q, RowsAfter(q, attempts[..n]), mid);
      assert q[n..][0] == q[n] && q[n..][1..] == q[n + 1..];
      RowWorked(mid, attempts[n], ttl);
      WorkedStep(w, q, RowsAfter(q, attempts), mid, Play(mid, RowEvents(attempts[n], ttl)));
    }
  }

  /** The devices of a batch whose write is acknowledged and recorded. */
  ghost function Recorded(ids: seq<string>, attempts: seq<Attempt>): set<string>
    requires |ids| == |attempts|
  {
    set i | 0 <= i < |ids| && attempts[i].Succeeds() :: ids[i]
  }

  lemma WrittenRow(before: Intent, a: Attempt)
    requires 0 <= before.publicObserved <= before.originApplied && Pending(before, OriginBacklog)
    ensures Pending(RowAfter(before, a), OriginBacklog) <==> !a.Succeeds()
    ensures Pending(RowAfter(before, a), ObservationBacklog) <==> a.Succeeds()
  {
  }

  /** Listed rows become what their attempts make of them; every other row stays. */
  lemma OriginHalfRows(w: World, limit: int, attempts: seq<Attempt>, ttl: int)
    requires Inv(w) && w.phase.Idle? && |attempts| == |Batch(w, OriginBacklog, limit)|
    ensures
      var q, w' := Listing(w.tables, OriginBacklog, limit), OriginHalf(w, limit, attempts, ttl);
      && |q| == |attempts| && Worked(w, q, RowsAfter(q, attempts), w')
      && Inv(w') && w'.phase == Writing([])
  {
    hide Inv, Moves, Play, Listing, RowIs, OncePerDevice, RowAfter, Batch;
    var q := Listing(w.tables, OriginBacklog, limit);
    ListedNow(w, OriginBacklog, limit, Writing(q));
    ListedNow(w, OriginBacklog, limit, w.phase);
    NextKeeps(w, ListOrigin(limit));
    var listed := w.(phase := Writing(q));
    assert Next(w, ListOrigin(limit)) == listed;
    hide Next;
    PlayKeeps(listed, WorkEvents(attempts, ttl));
    QueueWorked(listed, q, attempts, ttl);
    assert q[|attempts|..] == [];
    assert w.(phase := w.phase) == w;
  }

  /** The listed rows whose write is acknowledged and recorded move from the one
      backlog to the other; every other row stays where it was. */
  lemma OriginHalfDrains(w: World, limit: int, attempts: seq<Attempt>, ttl: int)
    requires Inv(w) && w.phase.Idle? && |attempts| == |Batch(w, OriginBacklog, limit)|
    ensures
      var w' := OriginHalf(w, limit, attempts, ttl);
      var written := Recorded(Batch(w, OriginBacklog, limit), attempts);
      && Inv(w') && w'.phase == Writing([]) && w'.servers == w.servers
      && written <= Elements(Batch(w, OriginBacklog, limit))
      && PendingSet(w', OriginBacklog) == PendingSet(w, OriginBacklog) - written
      && PendingSet(w', ObservationBacklog) == PendingSet(w, ObservationBacklog) + written
  {
    hide Inv, OriginHalf, Listing, RowIs, Worked, OncePerDevice, RowAfter;
    var ids := Batch(w, OriginBacklog, limit);
    var q := Listing(w.tables, OriginBacklog, limit);
    ListedNow(w, OriginBacklog, limit, w.phase);
    OriginHalfRows(w, limit, attempts, ttl);
    var w' := OriginHalf(w, limit, attempts, ttl);
    WorkedKeys(w, q, RowsAfter(q, attempts), w');
    forall d | d in w.tables.intents
      ensures d in w'.tables.intents
      ensures Pending(w'.tables.intents[d], OriginBacklog) <==> Pending(w.tables.intents[d], OriginBacklog) && d !in Recorded(ids, attempts)
      ensures Pending(w'.tables.intents[d], ObservationBacklog) <==> Pending(w.tables.intents[d], ObservationBacklog) || d in Recorded(ids, attempts)
    {
      var i := WorkedRow(w, q, ids, RowsAfter(q, attempts), w', d);
      WrittenAt(ids, attempts, d, i);
      if i >= 0 {
        CountersOf(w, d);
        WrittenRow(q[i], attempts[i]);
      }
    }
    hide Pending, Batch;
    assert Recorded(ids, attempts) <= Elements(ids);
    WrittenKnown(w, limit, attempts);
  }

  lemma WorkedKeys(w: World, q: seq<Intent>, after: seq<Intent>, w': World)
    requires |after| <= |q| && Worked(w, q, after, w')
    ensures w'.tables.intents.Keys == w.tables.intents.Keys && w'.servers == w.servers
  {
  }

  lemma WrittenAt(ids: seq<string>, attempts: seq<Attempt>, d: string, i: int)
    requires |ids| == |attempts| && Distinct(ids) && -1 <= i < |ids|
    requires if i >= 0 then ids[i] == d else d !in ids
    ensures d in Recorded(ids, attempts) <==> i >= 0 && attempts[i].Succeeds()
  {
    if d in Recorded(ids, attempts) {
      var j :| 0 <= j < |ids| && attempts[j].Succeeds() && ids[j] == d;
    }
  }

  lemma WrittenKnown(w: World, limit: int, attempts: seq<Attempt>)
    requires |attempts| == |Batch(w, OriginBacklog, limit)|
    ensures forall d :: d in Recorded(Batch(w, OriginBacklog, limit), attempts) ==> d in w.tables.intents
  {
  }

  lemma CountersOf(w: World, d: string)
    requires Inv(w) && d in w.tables.intents
    ensures 0 <= w.tables.intents[d].publicObserved <= w.tables.intents[d].originApplied <= w.tables.intents[d].generation
  {
    assert RowOk(d, w.tables.intents[d]);
  }

  // ------------------------------------------------------ public observation

  /** What the public servers answer about one listed row, and whether the store takes
      the mark. */
  datatype Look = Look(replies: seq<ServerReplies>, stored: bool) {
    ghost predicate Succeeds(item: Intent) { AllAgree(item, replies) && stored }
  }

  /** The events for one listed row. */
  ghost function LookEvents(item: Intent, look: Look): seq<Event> {
    AskEvents(item, look.replies, k => []) + if AllAgree(item, look.replies) then [Confirm(look.stored)] else []
  }

  ghost function LooksEvents(q: seq<Intent>, looks: seq<Look>): seq<Event>
    requires |looks| <= |q|
    decreases looks
  {
    if looks == [] then []
    else LooksEvents(q, looks[..|looks| - 1]) + LookEvents(q[|looks| - 1], looks[|looks| - 1])
  }

  /** Listing the observation backlog and asking about what was listed. */
  ghost function ObservationHalf(w: World, limit: int, looks: seq<Look>): World
    requires |looks| <= |Listing(w.tables, ObservationBacklog, limit)|
  {
    Play(Next(w, ListObservation(limit)), LooksEvents(Listing(w.tables, ObservationBacklog, limit), looks))
  }

  ghost function RowSeen(row: Intent, look: Look): Intent {
    if look.Succeeds(row) then row.(publicObserved := row.generation) else row
  }

  ghost function RowsSeen(q: seq<Intent>, looks: seq<Look>): seq<Intent>
    requires |looks| <= |q|
  {
    seq(|looks|, i requires 0 <= i < |looks| => RowSeen(q[i], looks[i]))
  }

  ghost function AgreesFrom(item: Intent, replies: seq<ServerReplies>, k: nat): bool {
    forall j :: k <= j < |replies| ==> Agrees(replies[j], item.hostname, item.addresses)
  }

  lemma {:induction false} AsksPlayed(w: World, item: Intent, replies: seq<ServerReplies>, k: nat)
    requires w.phase.Observing? && w.phase.queue != [] && w.phase.queue[0] == item && w.phase.asked == k
    requires |replies| == w.servers && k <= w.servers
    ensures Play(w, AsksFrom(item, replies, j => [], k))
         == if AgreesFrom(item, replies, k) then w.(phase := Observing(w.phase.queue, w.servers)) else w.(phase := Observing(w.phase.queue[1..], 0))
    decreases |replies| - k
  {
    hide Agrees;
    if k == |replies| {
    } else {
      var e := Event.Ask(replies[k]);
      var w1 := Next(w, e);
      OneStep(w, e);
      assert Controls([]) == [];
      if Agrees(replies[k], item.hostname, item.addresses) {
        AsksPlayed(w1, item, replies, k + 1);
        PlayAppend(w, [e], AsksFrom(item, replies, j => [], k + 1));
        assert AsksFrom(item, replies, j => [], k) == [e] + AsksFrom(item, replies, j => [], k + 1);
      } else {
        assert AsksFrom(item, replies, j => [], k) == [e];
      }
    }
  }

  lemma OneStep(w: World, e: Event)
    ensures Play(w, [e]) == Next(w, e)
  {
    hide Next;
    assert [e][..0] == [];
  }

  lemma RowAsked(w: World, replies: seq<ServerReplies>)
    requires w.phase.Observing? && w.phase.asked == 0 && w.phase.queue != [] && |replies| == w.servers
    ensures
      var q := w.phase.queue;
      Play(w, AskEvents(q[0], replies, k => []))
      == w.(phase := if AllAgree(q[0], replies) then Observing(q, w.servers) else Observing(q[1..], 0))
  {
    hide Agrees, Play;
    if replies == [] {
      OneStep(w, Event.Ask(ServerReplies(NoReply, NoReply)));
    } else {
      AsksPlayed(w, w.phase.queue[0], replies, 0);
    }
  }

  lemma RowLooked(w: World, look: Look)
    requires w.phase.Observing? && w.phase.asked == 0 && w.phase.queue != [] && RowIs(w, w.phase.queue[0])
    requires |look.replies| == w.servers && Pending(w.phase.queue[0], ObservationBacklog)
    ensures
      var item := w.phase.queue[0];
      var w' := Play(w, LookEvents(item, look));
      && w'.phase == Observing(w.phase.queue[1..], 0) && w'.servers == w.servers
      && w'.tables.intents == w.tables.intents[item.deviceID := RowSeen(item, look)]
  {
    hide Play, AskEvents, Agrees;
    var item := w.phase.queue[0];
    var asks := AskEvents(item, look.replies, k => []);
    assert w.tables.intents == w.tables.intents[item.deviceID := item];
    RowAsked(w, look.replies);
    if AllAgree(item, look.replies) {
      var mid := w.(phase := Observing(w.phase.queue, w.servers));
      assert w.servers > 0;
      OneStep(mid, Confirm(look.stored));
      PlayAppend(w, asks, [Confirm(look.stored)]);
    } else {
      assert asks + [] == asks;
    }
  }

  lemma {:induction false} QueueLooked(w: World, q: seq<Intent>, looks: seq<Look>)
    requires w.phase == Observing(q, 0) && OncePerDevice(q) && |looks| <= |q|
    requires forall i :: 0 <= i < |q| ==> RowIs(w, q[i]) && Pending(q[i], ObservationBacklog)
    requires forall i :: 0 <= i < |looks| ==> |looks[i].replies| == w.servers
    ensures
      var w' := Play(w, LooksEvents(q, looks));
      Worked(w, q, RowsSeen(q, looks), w') && w'.phase == Observing(q[|looks|..], 0)
    decreases looks
  {
    if looks == [] {
    } else {
      var n := |looks| - 1;
      QueueLooked(w, q, looks[..n]);
      var mid := Play(w, LooksEvents(q, looks[..n]));
      PlayAppend(w, LooksEvents(q, looks[..n]), LookEvents(q[n], looks[n]));
      WorkedKeys(w, q, RowsSeen(q, looks[..n]), mid);
      hide Play, LookEvents, RowSeen, RowIs, OncePerDevice, Worked, Pending;
      assert RowsSeen(q, looks)[..n] == RowsSeen(q, looks[..n]);
      HeadStays(w, q, RowsSeen(q, looks[..n]), mid);
      assert q[n..][0] == q[n] && q[n..][1..] == q[n + 1..];
      RowLooked(mid, looks[n]);
      WorkedStep(w, q, RowsSeen(q, looks), mid, Play(mid, LookEvents(q[n], looks[n])));
    }
  }

  /** The devices of a listing whose servers all agree and whose mark is recorded. */
  ghost function Seen(q: seq<Intent>, looks: seq<Look>): set<string>
    requires |q| == |looks|
  {
    set i | 0 <= i < |q| && looks[i].Succeeds(q[i]) :: q[i].deviceID
  }

  lemma SeenAt(q: seq<Intent>, looks: seq<Look>, ids: seq<string>, d: string, i: int)
    requires |q| == |looks| == |ids| && Distinct(ids) && -1 <= i < |ids|
    requires forall j :: 0 <= j < |ids| ==> q[j].deviceID == ids[j]
    requires if i >= 0 then ids[i] == d else d !in ids
    ensures d in Seen(q, looks) <==> i >= 0 && looks[i].Succeeds(q[i])
  {
    hide AllAgree;
    if d in Seen(q, looks) {
      var j :| 0 <= j < |q| && looks[j].Succeeds(q[j]) && q[j].deviceID == d;
      assert ids[j] == d;
    }
  }

  /** Listed rows become what was seen of them; every other row stays. */
  lemma ObservationHalfRows(w: World, limit: int, looks: seq<Look>)
    requires Inv(w) && w.phase == Writing([]) && |looks| == |Listing(w.tables, ObservationBacklog, limit)|
    requires forall i :: 0 <= i < |looks| ==> |looks[i].replies| == w.servers
    ensures
      var q, w' := Listing(w.tables, ObservationBacklog, limit), ObservationHalf(w, limit, looks);
      && Worked(w, q, RowsSeen(q, looks), w')
      && Inv(w') && w'.phase == Observing([], 0)
  {
    hide Inv, Moves, Play, Listing, RowIs, OncePerDevice, RowSeen, AllAgree, Batch;
    var q := Listing(w.tables, ObservationBacklog, limit);
    ListedNow(w, ObservationBacklog, limit, Observing(q, 0));
    ListedNow(w, ObservationBacklog, limit, w.phase);
    NextKeeps(w, ListObservation(limit));
    var listed := w.(phase := Observing(q, 0));
    assert Next(w, ListObservation(limit)) == listed;
    hide Next;
    PlayKeeps(listed, LooksEvents(q, looks));
    QueueLooked(listed, q, looks);
    assert q[|looks|..] == [];
    assert w.(phase := w.phase) == w;
  }

  /** A row leaves the observation backlog exactly when it was listed, every public
      server agreed and the mark was recorded; the origin backlog does not move. */
  lemma ObservationHalfDrains(w: World, limit: int, looks: seq<Look>)
    requires Inv(w) && w.phase == Writing([]) && |looks| == |Listing(w.tables, ObservationBacklog, limit)|
    requires forall i :: 0 <= i < |looks| ==> |looks[i].replies| == w.servers
    ensures
      var w' := ObservationHalf(w, limit, looks);
      var seen := Seen(Listing(w.tables, ObservationBacklog, limit), looks);
      && Inv(w') && w'.phase == Observing([], 0)
      && seen <= Elements(Batch(w, ObservationBacklog, limit))
      && PendingSet(w', OriginBacklog) == PendingSet(w, OriginBacklog)
      && PendingSet(w', ObservationBacklog) == PendingSet(w, ObservationBacklog) - seen
  {
    hide Inv, ObservationHalf, Listing, RowIs, Worked, OncePerDevice, RowSeen, AllAgree;
    var ids := Batch(w, ObservationBacklog, limit);
    var q := Listing(w.tables, ObservationBacklog, limit);
    ListedNow(w, ObservationBacklog, limit, w.phase);
    ObservationHalfRows(w, limit, looks);
    var w' := ObservationHalf(w, limit, looks);
    WorkedKeys(w, q, RowsSeen(q, looks), w');
    forall d | d in w.tables.intents
      ensures d in w'.tables.intents
      ensures Pending(w'.tables.intents[d], OriginBacklog) <==> Pending(w.tables.intents[d], OriginBacklog)
      ensures Pending(w'.tables.intents[d], ObservationBacklog) <==> Pending(w.tables.intents[d], ObservationBacklog) && d !in Seen(q, looks)
    {
      var i := WorkedRow(w, q, ids, RowsSeen(q, looks), w', d);
      SeenAt(q, looks, ids, d, i);
      if i >= 0 { SeenRow(q[i], looks[i]); }
    }
    hide Pending, Batch;
    forall d | d in Seen(q, looks) ensures d in Elements(ids) {
      var i :| 0 <= i < |q| && looks[i].Succeeds(q[i]) && q[i].deviceID == d;
      assert ids[i] == d;
    }
  }

  lemma SeenRow(before: Intent, look: Look)
    requires Pending(before, ObservationBacklog)
    ensures Pending(RowSeen(before, look), ObservationBacklog) <==> !look.Succeeds(before)
    ensures !Pending(RowSeen(before, look), OriginBacklog)
  {
    hide AllAgree;
  }

  // ------------------------------------------------------------- the sweep

  /** The devices a sweep empties. */
  ghost function LapsedSet(w: World, now: int): set<string> {
    set d | d in w.tables.intents && Lapsed(w.tables.intents[d], now)
  }

  lemma SweptWorld(w: World, now: int)
    ensures
      var w' := Next(w, Control(Sweep(now)));
      && w'.phase == w.phase && w'.servers == w.servers && w'.names == w.names && w'.zone == w.zone
      && w'.tables == Expire(w.tables, now)
  {
    hide Record, Tracked, Expire;
  }

  /** What a sweep empties waits for the origin again. */
  lemma SweepRequeues(w: World, now: int)
    requires Inv(w) && w.phase.Idle?
    ensures
      var w' := Next(w, Control(Sweep(now)));
      && Inv(w') && w'.phase.Idle?
      && PendingSet(w', OriginBacklog) == PendingSet(w, OriginBacklog) + LapsedSet(w, now)
      && PendingSet(w', ObservationBacklog) == PendingSet(w, ObservationBacklog) - LapsedSet(w, now)
  {
    hide Inv, Next, Moves, Lapsed, Pending, Settle;
    NextKeeps(w, Control(Sweep(now)));
    SweptWorld(w, now);
    var u := Expire(w.tables, now);
    assert u.intents.Keys == w.tables.intents.Keys;
    forall d | d in w.tables.intents
      ensures Pending(u.intents[d], OriginBacklog) <==> Pending(w.tables.intents[d], OriginBacklog) || Lapsed(w.tables.intents[d], now)
      ensures Pending(u.intents[d], ObservationBacklog) <==> Pending(w.tables.intents[d], ObservationBacklog) && !Lapsed(w.tables.intents[d], now)
    {
      CountersOf(w, d);
      SettledWaits(w.tables.intents[d], now);
    }
  }

  lemma SettledWaits(row: Intent, now: int)
    requires 0 <= row.publicObserved <= row.originApplied <= row.generation
    ensures Pending(Settle(row, now), OriginBacklog) <==> Pending(row, OriginBacklog) || Lapsed(row, now)
    ensures Pending(Settle(row, now), ObservationBacklog) <==> Pending(row, ObservationBacklog) && !Lapsed(row, now)
  {
  }

  // -------------------------------------------------------------- one pass

  /** One pass first puts the lapsed devices into the origin backlog; then it moves exactly
      the written devices, all of them in the first batch of that, to the observation
      backlog, and takes exactly the seen ones, all of them in the first batch there, off it. */
  ghost predicate Drains(w: World, w': World, limit: int, lapsed: set<string>, written: set<string>, seen: set<string>) {
    && Inv(w) && Inv(w') && w.phase.Idle? && w'.phase.Idle?
    && written <= Elements(FirstOf(PendingSet(w, OriginBacklog) + lapsed, limit))
    && PendingSet(w', OriginBacklog) == PendingSet(w, OriginBacklog) + lapsed - written
    && seen <= Elements(FirstOf(PendingSet(w, ObservationBacklog) - lapsed + written, limit))
    && PendingSet(w', ObservationBacklog) == PendingSet(w, ObservationBacklog) - lapsed + written - seen
  }

  /** Between its two halves the pass has moved exactly the written devices. */
  ghost predicate Halved(w: World, half: World, limit: int, written: set<string>) {
    && Inv(half) && half.phase == Writing([]) && half.servers == w.servers
    && written <= Elements(Batch(w, OriginBacklog, limit))
    && PendingSet(half, OriginBacklog) == PendingSet(w, OriginBacklog) - written
    && PendingSet(half, ObservationBacklog) == PendingSet(w, ObservationBacklog) + written
  }

  /** A listing that fails moves nothing. */
  lemma SkipHalves(w: World, limit: int)
    requires Inv(w) && w.phase.Idle?
    ensures Halved(w, Next(w, SkipOrigin), limit, {})
  {
    hide Inv, Moves, Batch, Next;
    NextKeeps(w, SkipOrigin);
    Skipped(w);
  }

  lemma Skipped(w: World)
    requires w.phase.Idle?
    ensures Next(w, SkipOrigin) == w.(phase := Writing([]))
  {
  }

  /** A pass without observation. */
  lemma WritingPassDrains(w: World, half: World, limit: int, written: set<string>)
    requires Inv(w) && w.phase.Idle? && Halved(w, half, limit, written)
    ensures Drains(w, Next(half, EndPass), limit, {}, written, {})
  {
    hide Inv, Batch, PendingSet, Next, FirstOf;
    EndsIdle(half);
    BatchIsFirst(w, OriginBacklog, limit);
    NoneLapsed(PendingSet(w, OriginBacklog), PendingSet(w, ObservationBacklog));
  }

  lemma NoneLapsed(o: set<string>, v: set<string>)
    ensures o + {} == o && v - {} == v
  {
  }

  /** A whole pass. */
  lemma PassDrains(w: World, half: World, limit: int, written: set<string>, looks: seq<Look>)
    requires Inv(w) && w.phase.Idle? && Halved(w, half, limit, written)
    requires |looks| == |Listing(half.tables, ObservationBacklog, limit)|
    requires forall i :: 0 <= i < |looks| ==> |looks[i].replies| == w.servers
    ensures Drains(w, Next(ObservationHalf(half, limit, looks), EndPass), limit, {}, written, Seen(Listing(half.tables, ObservationBacklog, limit), looks))
  {
    hide Inv, ObservationHalf, Batch, PendingSet, Next, FirstOf, Listing, AllAgree;
    ObservationHalfDrains(half, limit, looks);
    BatchIsFirst(w, OriginBacklog, limit);
    BatchIsFirst(half, ObservationBacklog, limit);
    NoneLapsed(PendingSet(w, OriginBacklog), PendingSet(w, ObservationBacklog));
    EndsIdle(ObservationHalf(half, limit, looks));
  }

  /** A sweep and a pass. */
  lemma SweptPassDrains(w: World, now: int, w': World, limit: int, written: set<string>, seen: set<string>)
    requires Inv(w) && w.phase.Idle? && Drains(Next(w, Control(Sweep(now))), w', limit, {}, written, seen)
    ensures Drains(w, w', limit, LapsedSet(w, now), written, seen)
  {
    hide Inv, Next, PendingSet, FirstOf, LapsedSet;
    SweepRequeues(w, now);
    var swept := Next(w, Control(Sweep(now)));
    NoneLapsed(PendingSet(swept, OriginBacklog), PendingSet(swept, ObservationBacklog));
  }

  lemma EndsIdle(w: World)
    requires Inv(w) && (w.phase == Writing([]) || w.phase == Observing([], 0))
    ensures
      var w' := Next(w, EndPass);
      && Inv(w') && w'.phase.Idle?
      && PendingSet(w', OriginBacklog) == PendingSet(w, OriginBacklog) && PendingSet(w', ObservationBacklog) == PendingSet(w, ObservationBacklog)
  {
    NextKeeps(w, EndPass);
    hide Inv, Moves;
  }

  // ------------------------------------------------------- a queue by itself

  function Sum(counts: seq<nat>): nat {
    if counts == [] then 0 else Sum(counts[..|counts| - 1]) + counts[|counts| - 1]
  }

  /** The rows that k batches hold. */
  function Capacity(limit: int, k: nat): nat {
    k * Limit(limit)
  }

  lemma NextCapacity(limit: int, k: nat)
    ensures Capacity(limit, k + 1) == Capacity(limit, k) + Limit(limit)
  {
  }

  /** What is left of n rows when in each pass some join and then a batch leaves. */
  function Left(n: nat, joined: seq<nat>, limit: int): nat {
    if joined == [] then n
    else
      var all := Left(n, joined[..|joined| - 1], limit) + joined[|joined| - 1];
      all - AtMost(Limit(limit), all)
  }

  /** What has to leave from pass j on. */
  function Load(n: nat, joined: seq<nat>, j: nat): nat
    requires j <= |joined|
  {
    (if j == 0 then n else 0) + Sum(joined[j..])
  }

  /** From no pass on does more have to leave than the batches still to come hold. */
  ghost predicate Covered(n: nat, joined: seq<nat>, limit: int) {
    LeavesAtMost(n, joined, limit, 0)
  }

  ghost predicate LeavesAtMost(n: nat, joined: seq<nat>, limit: int, rest: nat) {
    forall j: nat :: j <= |joined| ==> Load(n, joined, j) <= Capacity(limit, |joined| - j) + rest
  }

  lemma LoadGrows(n: nat, joined: seq<nat>, j: nat)
    requires joined != [] && j < |joined|
    ensures Load(n, joined, j) == Load(n, joined[..|joined| - 1], j) + joined[|joined| - 1]
  {
    var k := |joined| - 1;
    assert joined[j..][..k - j] == joined[..k][j..];
  }

  /** At most so many are left exactly when, from every pass on, the batches to come hold
      what has to leave but for so many. */
  lemma {:induction false} LeftExactly(n: nat, joined: seq<nat>, limit: int, rest: nat)
    ensures Left(n, joined, limit) <= rest <==> LeavesAtMost(n, joined, limit, rest)
    decreases joined
  {
    if joined == [] {
      assert Load(n, joined, 0) == n;
    } else {
      var k := |joined| - 1;
      var front, last := joined[..k], joined[k];
      assert Load(n, joined, |joined|) == 0;
      forall j: nat | j <= k ensures Load(n, joined, j) == Load(n, front, j) + last && Capacity(limit, |joined| - j) == Capacity(limit, k - j) + Limit(limit) {
        LoadGrows(n, joined, j);
        NextCapacity(limit, k - j);
      }
      hide Load, Capacity, Limit;
      if last <= Limit(limit) + rest {
        LeftExactly(n, front, limit, Limit(limit) + rest - last);
      } else {
        assert Load(n, front, k) >= 0;
        EmptyCapacity(limit);
      }
    }
  }

  lemma EmptyCapacity(limit: int)
    ensures Capacity(limit, 0) == 0
  {
  }

  // ------------------------------------------------------------ many passes

  /** Any number of passes, the k-th finding `lapsed[k]` lapsed, writing `written[k]` and
      seeing `seen[k]`. */
  ghost predicate Chain(ws: seq<World>, limit: int, lapsed: seq<set<string>>, written: seq<set<string>>, seen: seq<set<string>>) {
    && |ws| == |written| + 1 == |seen| + 1 == |lapsed| + 1
    && forall k :: 0 <= k < |written| ==> Drains(ws[k], ws[k + 1], limit, lapsed[k], written[k], seen[k])
  }

  function Total(sets: seq<set<string>>): nat {
    if sets == [] then 0 else Total(sets[..|sets| - 1]) + |sets[|sets| - 1]|
  }

  /** How many rows join the origin backlog in each pass. */
  ghost function Joining(ws: seq<World>, lapsed: seq<set<string>>): seq<nat>
    requires |ws| == |lapsed| + 1
  {
    seq(|lapsed|, k requires 0 <= k < |lapsed| => |lapsed[k] - PendingSet(ws[k], OriginBacklog)|)
  }

  /** How many rows stop being publicly observed in each pass. */
  ghost function Returning(ws: seq<World>, lapsed: seq<set<string>>): seq<nat>
    requires |ws| == |lapsed| + 1
  {
    seq(|lapsed|, k requires 0 <= k < |lapsed| => |lapsed[k] - PendingSet(ws[k], OriginBacklog) - PendingSet(ws[k], ObservationBacklog)|)
  }

  lemma ChainFront(ws: seq<World>, limit: int, lapsed: seq<set<string>>, written: seq<set<string>>, seen: seq<set<string>>)
    requires Chain(ws, limit, lapsed, written, seen) && written != []
    ensures
      var n := |written| - 1;
      && Chain(ws[..n + 1], limit, lapsed[..n], written[..n], seen[..n]) && ws[..n + 1][0] == ws[0] && ws[..n + 1][n] == ws[n]
      && DrainsSets(PendingSet(ws[n], OriginBacklog), PendingSet(ws[n], ObservationBacklog),
                    PendingSet(ws[n + 1], OriginBacklog), PendingSet(ws[n + 1], ObservationBacklog), limit, lapsed[n], written[n], seen[n])
      && Inv(ws[n + 1])
  {
    hide Drains, Inv, PendingSet, DrainsSets;
    var n := |written| - 1;
    forall k | 0 <= k < n ensures Drains(ws[..n + 1][k], ws[..n + 1][k + 1], limit, lapsed[..n][k], written[..n][k], seen[..n][k]) {
      assert Drains(ws[k], ws[k + 1], limit, lapsed[k], written[k], seen[k]);
    }
    DrainsFacts(ws[n], ws[n + 1], limit, lapsed[n], written[n], seen[n]);
  }

  lemma CountsFront(ws: seq<World>, lapsed: seq<set<string>>)
    requires lapsed != [] && |ws| == |lapsed| + 1
    ensures
      var n := |lapsed| - 1;
      && |Joining(ws, lapsed)| == n + 1 && Joining(ws, lapsed)[..n] == Joining(ws[..n + 1], lapsed[..n])
      && |Returning(ws, lapsed)| == n + 1 && Returning(ws, lapsed)[..n] == Returning(ws[..n + 1], lapsed[..n])
  {
    hide PendingSet;
  }

  /** The same about the sets alone. */
  ghost predicate DrainsSets(o: set<string>, v: set<string>, o': set<string>, v': set<string>, limit: int,
                             lapsed: set<string>, written: set<string>, seen: set<string>)
  {
    && written <= Elements(FirstOf(o + lapsed, limit)) && o' == o + lapsed - written
    && seen <= Elements(FirstOf(v - lapsed + written, limit)) && v' == v - lapsed + written - seen
    && o !! v
  }

  lemma DrainsFacts(w: World, w': World, limit: int, lapsed: set<string>, written: set<string>, seen: set<string>)
    requires Drains(w, w', limit, lapsed, written, seen)
    ensures DrainsSets(PendingSet(w, OriginBacklog), PendingSet(w, ObservationBacklog),
                       PendingSet(w', OriginBacklog), PendingSet(w', ObservationBacklog), limit, lapsed, written, seen)
    ensures Inv(w')
  {
    hide Inv, FirstOf;
  }

  lemma SubsetCardinality<T>(a: set<T>, b: set<T>)
    requires a <= b
    ensures |a| <= |b| && |b - a| == |b| - |a|
  {
    assert b == a + (b - a);
  }

  /** The arithmetic of one pass. */
  lemma DrainsCount(o: set<string>, v: set<string>, o': set<string>, v': set<string>, limit: int,
                    lapsed: set<string>, written: set<string>, seen: set<string>)
    requires DrainsSets(o, v, o', v', limit, lapsed, written, seen)
    ensures |o + lapsed| == |o| + |lapsed - o| && |o + lapsed| + |v - lapsed| == |o| + |v| + |lapsed - o - v|
    ensures |o'| == |o + lapsed| - |written| && |v'| == |v - lapsed| + |written| - |seen|
    ensures |written| <= AtMost(Limit(limit), |o + lapsed|) && |seen| <= AtMost(Limit(limit), |v - lapsed| + |written|)
    ensures |Elements(FirstOf(o + lapsed, limit))| == AtMost(Limit(limit), |o + lapsed|)
    ensures |Elements(FirstOf(v - lapsed + written, limit))| == AtMost(Limit(limit), |v - lapsed| + |written|)
  {
    hide FirstOf;
    var all, shown := o + lapsed, v - lapsed;
    assert all == o + (lapsed - o);
    LapsedCount(o, v, lapsed);
    SubsetCardinality(written, Elements(FirstOf(all, limit)));
    SubsetCardinality(written, all);
    assert |shown + written| == |shown| + |written| by { assert shown !! written; }
    SubsetCardinality(seen, Elements(FirstOf(shown + written, limit)));
    SubsetCardinality(seen, shown + written);
  }

  lemma LapsedCount(o: set<string>, v: set<string>, lapsed: set<string>)
    requires o !! v
    ensures |o + lapsed| + |v - lapsed| == |o| + |v| + |lapsed - o - v|
  {
    assert (o + lapsed) + (v - lapsed) == (o + v) + (lapsed - o - v);
    assert |(o + lapsed) + (v - lapsed)| == |o + lapsed| + |v - lapsed|;
    assert |o + v| == |o| + |v|;
    assert |(o + v) + (lapsed - o - v)| == |o + v| + |lapsed - o - v|;
  }

  /** The device waits at first, or lapses in the j-th pass, and no pass from there on
      writes it. */
  ghost predicate Unwritten(first: set<string>, lapsed: seq<set<string>>, written: seq<set<string>>, d: string, j: nat)
    requires |lapsed| == |written|
  {
    && j <= |written| && (if j == |written| then j == 0 && d in first else d in lapsed[j] || (j == 0 && d in first))
    && forall k :: j <= k < |written| ==> d !in written[k]
  }

  /** A device waits for the origin after all passes exactly if it waited at first, or
      lapsed in some pass, and no pass from there on wrote it: it was unlisted or its write
      failed. */
  lemma {:induction false} StillWaiting(ws: seq<World>, limit: int, lapsed: seq<set<string>>, written: seq<set<string>>, seen: seq<set<string>>, d: string)
    requires Chain(ws, limit, lapsed, written, seen)
    ensures d in PendingSet(ws[|written|], OriginBacklog) <==> exists j: nat :: Unwritten(PendingSet(ws[0], OriginBacklog), lapsed, written, d, j)
    decreases written
  {
    hide Drains, PendingSet, Inv, FirstOf;
    var first := PendingSet(ws[0], OriginBacklog);
    if written == [] {
      assert Unwritten(first, lapsed, written, d, 0) <==> d in first;
    } else {
      var n := |written| - 1;
      ChainFront(ws, limit, lapsed, written, seen);
      StillWaiting(ws[..n + 1], limit, lapsed[..n], written[..n], seen[..n], d);
      hide Chain;
      if j: nat :| Unwritten(first, lapsed[..n], written[..n], d, j) && d !in written[n] {
        assert Unwritten(first, lapsed, written, d, j);
      }
      if d in lapsed[n] && d !in written[n] {
        assert Unwritten(first, lapsed, written, d, n);
      }
      if j: nat :| Unwritten(first, lapsed, written, d, j) {
        assert d in lapsed[n] || Unwritten(first, lapsed[..n], written[..n], d, j);
      }
    }
  }

  /** What remains is what there was and what joined, less the writes that succeeded; what
      waits for either is what there was and what returned, less what was seen; and no pass
      does more than a batch of each. */
  lemma {:induction false} BacklogAfter(ws: seq<World>, limit: int, lapsed: seq<set<string>>, written: seq<set<string>>, seen: seq<set<string>>)
    requires Chain(ws, limit, lapsed, written, seen)
    ensures
      var first, end := ws[0], ws[|written|];
      && |PendingSet(end, OriginBacklog)| + Total(written) == |PendingSet(first, OriginBacklog)| + Sum(Joining(ws, lapsed))
      && |PendingSet(end, OriginBacklog)| + |PendingSet(end, ObservationBacklog)| + Total(seen)
         == |PendingSet(first, OriginBacklog)| + |PendingSet(first, ObservationBacklog)| + Sum(Returning(ws, lapsed))
      && Total(written) <= Capacity(limit, |written|) && Total(seen) <= Capacity(limit, |written|)
    decreases written
  {
    hide Drains, PendingSet, Inv, FirstOf, DrainsSets;
    if written == [] {
    } else {
      var n := |written| - 1;
      ChainFront(ws, limit, lapsed, written, seen);
      CountsFront(ws, lapsed);
      BacklogAfter(ws[..n + 1], limit, lapsed[..n], written[..n], seen[..n]);
      DrainsCount(PendingSet(ws[n], OriginBacklog), PendingSet(ws[n], ObservationBacklog),
                  PendingSet(ws[n + 1], OriginBacklog), PendingSet(ws[n + 1], ObservationBacklog), limit, lapsed[n], written[n], seen[n]);
      NextCapacity(limit, n);
      hide Chain, Capacity;
    }
  }

  /** The origin backlog is empty after k passes exactly when the writes that succeeded
      number as many as the rows there were and joined, which no fewer passes can do than
      batches hold them. Then the origin shows every row. */
  lemma OriginBacklogEmpties(ws: seq<World>, limit: int, lapsed: seq<set<string>>, written: seq<set<string>>, seen: seq<set<string>>)
    requires Chain(ws, limit, lapsed, written, seen) && Inv(ws[0])
    ensures
      var n, end := |PendingSet(ws[0], OriginBacklog)| + Sum(Joining(ws, lapsed)), ws[|written|];
      && (PendingSet(end, OriginBacklog) == {} <==> Total(written) == n)
      && (PendingSet(end, OriginBacklog) == {} ==> Capacity(limit, |written|) >= n)
      && (PendingSet(end, OriginBacklog) == {} ==> forall d :: d in end.tables.intents ==>
            AddressesAt(end.zone, end.tables.intents[d].hostname) == Elements(end.tables.intents[d].addresses))
  {
    hide PendingSet, Inv, AddressesAt, Elements, Drains;
    BacklogAfter(ws, limit, lapsed, written, seen);
    var end := ws[|written|];
    if written != [] { ChainFront(ws, limit, lapsed, written, seen); }
    if PendingSet(end, OriginBacklog) == {} {
      AllShown(end);
    }
  }

  /** Every row is publicly observed after k passes exactly when what was seen numbers as
      many as the rows of both backlogs and those that returned. */
  lemma AllObserved(ws: seq<World>, limit: int, lapsed: seq<set<string>>, written: seq<set<string>>, seen: seq<set<string>>)
    requires Chain(ws, limit, lapsed, written, seen) && Inv(ws[0])
    ensures
      var n := |PendingSet(ws[0], OriginBacklog)| + |PendingSet(ws[0], ObservationBacklog)| + Sum(Returning(ws, lapsed));
      var end := ws[|written|];
      && ((forall d :: d in end.tables.intents ==> StatusOf(end.tables.intents[d]) == PubliclyObserved) <==> Total(seen) == n)
      && (Total(seen) == n ==> Capacity(limit, |written|) >= n)
  {
    hide PendingSet, Inv, Drains, StatusOf;
    BacklogAfter(ws, limit, lapsed, written, seen);
    if written != [] { ChainFront(ws, limit, lapsed, written, seen); }
    ObservedIsNotPending(ws[|written|]);
  }

  lemma ObservedIsNotPending(w: World)
    requires Inv(w)
    ensures (forall d :: d in w.tables.intents ==> StatusOf(w.tables.intents[d]) == PubliclyObserved)
       <==> PendingSet(w, OriginBacklog) == {} && PendingSet(w, ObservationBacklog) == {}
    ensures |PendingSet(w, OriginBacklog)| + |PendingSet(w, ObservationBacklog)| == 0
       <==> PendingSet(w, OriginBacklog) == {} && PendingSet(w, ObservationBacklog) == {}
  {
    hide Inv;
    if PendingSet(w, OriginBacklog) == {} && PendingSet(w, ObservationBacklog) == {} {
      forall d | d in w.tables.intents ensures StatusOf(w.tables.intents[d]) == PubliclyObserved {
        assert d !in PendingSet(w, OriginBacklog) && d !in PendingSet(w, ObservationBacklog);
      }
    } else {
      var which := if PendingSet(w, OriginBacklog) != {} then OriginBacklog else ObservationBacklog;
      var d :| d in PendingSet(w, which);
      PendingIsNotObserved(w, which, d);
    }
  }

  lemma PendingIsNotObserved(w: World, which: Backlog, d: string)
    requires Inv(w) && d in PendingSet(w, which)
    ensures d in w.tables.intents && StatusOf(w.tables.intents[d]) != PubliclyObserved
  {
    CountersOf(w, d);
    hide Inv;
  }

  /** Every listed row is written. */
  ghost predicate WritesFully(w: World, limit: int, lapsed: set<string>, written: set<string>) {
    written == Elements(FirstOf(PendingSet(w, OriginBacklog) + lapsed, limit))
  }

  /** Every listed row is written, and every listed row is seen. */
  ghost predicate WorksFully(w: World, limit: int, lapsed: set<string>, written: set<string>, seen: set<string>) {
    && WritesFully(w, limit, lapsed, written)
    && seen == Elements(FirstOf(PendingSet(w, ObservationBacklog) - lapsed + written, limit))
  }

  /** If every listed write succeeds, the origin backlog is a queue served in full
      batches. */
  lemma {:induction false} QuietConvergence(ws: seq<World>, limit: int, lapsed: seq<set<string>>, written: seq<set<string>>, seen: seq<set<string>>)
    requires Chain(ws, limit, lapsed, written, seen)
    requires forall k :: 0 <= k < |written| ==> WritesFully(ws[k], limit, lapsed[k], written[k])
    ensures |PendingSet(ws[|written|], OriginBacklog)| == Left(|PendingSet(ws[0], OriginBacklog)|, Joining(ws, lapsed), limit)
    decreases written
  {
    hide Drains, PendingSet, Inv, FirstOf, DrainsSets, WritesFully;
    if written == [] {
    } else {
      var n := |written| - 1;
      ChainFront(ws, limit, lapsed, written, seen);
      CountsFront(ws, lapsed);
      forall k | 0 <= k < n ensures WritesFully(ws[..n + 1][k], limit, lapsed[..n][k], written[..n][k]) {
        assert WritesFully(ws[k], limit, lapsed[k], written[k]);
      }
      QuietConvergence(ws[..n + 1], limit, lapsed[..n], written[..n], seen[..n]);
      DrainsCount(PendingSet(ws[n], OriginBacklog), PendingSet(ws[n], ObservationBacklog),
                  PendingSet(ws[n + 1], OriginBacklog), PendingSet(ws[n + 1], ObservationBacklog), limit, lapsed[n], written[n], seen[n]);
      FullWrites(ws[n], limit, lapsed[n], written[n]);
      hide Chain;
    }
  }

  /** ... so it is empty after the last pass exactly when from no pass on more has to be
      written than the batches still to come hold. */
  lemma BacklogIsCovered(ws: seq<World>, limit: int, lapsed: seq<set<string>>, written: seq<set<string>>, seen: seq<set<string>>)
    requires Chain(ws, limit, lapsed, written, seen)
    requires forall k :: 0 <= k < |written| ==> WritesFully(ws[k], limit, lapsed[k], written[k])
    ensures PendingSet(ws[|written|], OriginBacklog) == {} <==> Covered(|PendingSet(ws[0], OriginBacklog)|, Joining(ws, lapsed), limit)
  {
    hide Chain, PendingSet, WritesFully, LeavesAtMost, Left;
    ChainLength(ws, limit, lapsed, written, seen);
    QuietConvergence(ws, limit, lapsed, written, seen);
    LeftExactly(|PendingSet(ws[0], OriginBacklog)|, Joining(ws, lapsed), limit, 0);
  }

  lemma ChainLength(ws: seq<World>, limit: int, lapsed: seq<set<string>>, written: seq<set<string>>, seen: seq<set<string>>)
    requires Chain(ws, limit, lapsed, written, seen)
    ensures |ws| == |written| + 1 == |lapsed| + 1
  {
    hide Drains;
  }

  /** With nothing joining on the way, that is as many batches as cover the first rows. */
  lemma CoveredAlone(n: nat, joined: seq<nat>, limit: int)
    requires forall k :: 0 <= k < |joined| ==> joined[k] == 0
    ensures Covered(n, joined, limit) <==> n <= Capacity(limit, |joined|)
  {
    forall j: nat | j <= |joined| ensures Load(n, joined, j) == if j == 0 then n else 0 {
      SumOfZeros(joined[j..]);
    }
    assert LeavesAtMost(n, joined, limit, 0) ==> Load(n, joined, 0) <= Capacity(limit, |joined|);
    hide Load, Capacity;
  }

  lemma {:induction false} SumOfZeros(counts: seq<nat>)
    requires forall k :: 0 <= k < |counts| ==> counts[k] == 0
    ensures Sum(counts) == 0
  {
    if counts != [] {
      SumOfZeros(counts[..|counts| - 1]);
    }
  }

  lemma FullWrites(w: World, limit: int, lapsed: set<string>, written: set<string>)
    requires WritesFully(w, limit, lapsed, written)
    ensures written == Elements(FirstOf(PendingSet(w, OriginBacklog) + lapsed, limit))
  {
  }

  /** If moreover all servers agree about every listed row, both backlogs together are
      such a queue, and everything is publicly observed exactly when it is covered. */
  lemma {:induction false} QuietObservation(ws: seq<World>, limit: int, lapsed: seq<set<string>>, written: seq<set<string>>, seen: seq<set<string>>)
    requires Chain(ws, limit, lapsed, written, seen)
    requires forall k :: 0 <= k < |written| ==> WorksFully(ws[k], limit, lapsed[k], written[k], seen[k])
    ensures
      |PendingSet(ws[|written|], OriginBacklog)| + |PendingSet(ws[|written|], ObservationBacklog)|
      == Left(|PendingSet(ws[0], OriginBacklog)| + |PendingSet(ws[0], ObservationBacklog)|, Returning(ws, lapsed), limit)
    decreases written
  {
    hide Drains, PendingSet, Inv, FirstOf, DrainsSets, WorksFully;
    if written == [] {
    } else {
      var n := |written| - 1;
      ChainFront(ws, limit, lapsed, written, seen);
      CountsFront(ws, lapsed);
      forall k | 0 <= k < n ensures WorksFully(ws[..n + 1][k], limit, lapsed[..n][k], written[..n][k], seen[..n][k]) {
        assert WorksFully(ws[k], limit, lapsed[k], written[k], seen[k]);
      }
      QuietObservation(ws[..n + 1], limit, lapsed[..n], written[..n], seen[..n]);
      DrainsCount(PendingSet(ws[n], OriginBacklog), PendingSet(ws[n], ObservationBacklog),
                  PendingSet(ws[n + 1], OriginBacklog), PendingSet(ws[n + 1], ObservationBacklog), limit, lapsed[n], written[n], seen[n]);
      FullWork(ws[n], limit, lapsed[n], written[n], seen[n]);
      hide Chain;
    }
  }

  lemma FullWork(w: World, limit: int, lapsed: set<string>, written: set<string>, seen: set<string>)
    requires WorksFully(w, limit, lapsed, written, seen)
    ensures written == Elements(FirstOf(PendingSet(w, OriginBacklog) + lapsed, limit))
    ensures seen == Elements(FirstOf(PendingSet(w, ObservationBacklog) - lapsed + written, limit))
  {
  }

  /** Progress is only promised for rows that are written: while no write of the first
      batch succeeds and nothing joins, every pass lists that same batch, and nothing leaves
      the backlog. */
  lemma {:induction false} FailingBatchStarvesTheRest(ws: seq<World>, limit: int, lapsed: seq<set<string>>, written: seq<set<string>>, seen: seq<set<string>>)
    requires Chain(ws, limit, lapsed, written, seen)
    requires forall k :: 0 <= k < |written| ==> written[k] !! Elements(Batch(ws[0], OriginBacklog, limit))
    requires forall k :: 0 <= k < |written| ==> lapsed[k] <= PendingSet(ws[0], OriginBacklog)
    ensures
      var end := ws[|written|];
      PendingSet(end, OriginBacklog) == PendingSet(ws[0], OriginBacklog) && Batch(end, OriginBacklog, limit) == Batch(ws[0], OriginBacklog, limit)
    ensures forall k :: 0 <= k < |written| ==> written[k] == {}
    decreases written
  {
    hide Drains, PendingSet, Inv, FirstOf, Batch;
    if written == [] {
    } else {
      var n := |written| - 1;
      ChainFront(ws, limit, lapsed, written, seen);
      assert forall k :: 0 <= k < n ==> written[..n][k] == written[k] && lapsed[..n][k] == lapsed[k];
      FailingBatchStarvesTheRest(ws[..n + 1], limit, lapsed[..n], written[..n], seen[..n]);
      BatchIsFirst(ws[0], OriginBacklog, limit);
      BatchIsFirst(ws[n + 1], OriginBacklog, limit);
      hide Chain, DrainsSets;
      FailingPass(PendingSet(ws[n], OriginBacklog), PendingSet(ws[n], ObservationBacklog),
                  PendingSet(ws[n + 1], OriginBacklog), PendingSet(ws[n + 1], ObservationBacklog), limit, lapsed[n], written[n], seen[n]);
    }
  }

  lemma FailingPass(o: set<string>, v: set<string>, o': set<string>, v': set<string>, limit: int,
                    lapsed: set<string>, written: set<string>, seen: set<string>)
    requires DrainsSets(o, v, o', v', limit, lapsed, written, seen) && lapsed <= o && written !! Elements(FirstOf(o, limit))
    ensures o' == o && written == {}
  {
    hide FirstOf;
    assert o + lapsed == o;
  }

  /** The same for observation: with nothing left to write, a first batch about which the
      servers never agree is asked about in every pass, and no row behind it ever is. */
  lemma {:induction false} DisagreeingBatchStarvesTheRest(ws: seq<World>, limit: int, lapsed: seq<set<string>>, written: seq<set<string>>, seen: seq<set<string>>)
    requires Chain(ws, limit, lapsed, written, seen) && PendingSet(ws[0], OriginBacklog) == {}
    requires forall k :: 0 <= k < |seen| ==> seen[k] !! Elements(Batch(ws[0], ObservationBacklog, limit)) && lapsed[k] == {}
    ensures
      var end := ws[|seen|];
      && PendingSet(end, OriginBacklog) == {}
      && PendingSet(end, ObservationBacklog) == PendingSet(ws[0], ObservationBacklog)
      && Batch(end, ObservationBacklog, limit) == Batch(ws[0], ObservationBacklog, limit)
    ensures forall k :: 0 <= k < |seen| ==> seen[k] == {}
    decreases seen
  {
    hide Drains, PendingSet, Inv, FirstOf, Batch;
    if seen == [] {
    } else {
      var n := |seen| - 1;
      ChainFront(ws, limit, lapsed, written, seen);
      assert forall k :: 0 <= k < n ==> seen[..n][k] == seen[k] && lapsed[..n][k] == lapsed[k];
      DisagreeingBatchStarvesTheRest(ws[..n + 1], limit, lapsed[..n], written[..n], seen[..n]);
      BatchIsFirst(ws[0], ObservationBacklog, limit);
      BatchIsFirst(ws[n + 1], ObservationBacklog, limit);
      hide Chain, DrainsSets;
      DisagreeingPass(PendingSet(ws[n], OriginBacklog), PendingSet(ws[n], ObservationBacklog),
                      PendingSet(ws[n + 1], OriginBacklog), PendingSet(ws[n + 1], ObservationBacklog), limit, lapsed[n], written[n], seen[n]);
    }
  }

  lemma DisagreeingPass(o: set<string>, v: set<string>, o': set<string>, v': set<string>, limit: int,
                        lapsed: set<string>, written: set<string>, seen: set<string>)
    requires DrainsSets(o, v, o', v', limit, lapsed, written, seen) && o == {} && lapsed == {} && seen !! Elements(FirstOf(v, limit))
    ensures o' == {} && v' == v && seen == {}
  {
    hide FirstOf;
    assert o + lapsed == {} && written == {};
    assert v - lapsed + written == v;
  }

  lemma AllShown(w: World)
    requires Inv(w) && PendingSet(w, OriginBacklog) == {}
    ensures forall d :: d in w.tables.intents ==>
      AddressesAt(w.zone, w.tables.intents[d].hostname) == Elements(w.tables.intents[d].addresses)
  {
    hide AddressesAt, Elements, DeviceOk, NamesOk, PhaseOk;
    forall d | d in w.tables.intents
      ensures AddressesAt(w.zone, w.tables.intents[d].hostname) == Elements(w.tables.intents[d].addresses)
    {
      DeviceOfInv(w, d);
      assert RowOk(d, w.tables.intents[d]);
      assert d !in PendingSet(w, OriginBacklog);
      DeviceServes(w, d);
    }
  }

  // --------------------------------------------------------------- an example

  /** Failures alone do not rule out ceil(n / b) passes: three rows wait, batches hold
      two, a first pass fails for the first of them and a second fails for none; two passes
      leave nothing. */
  lemma OneFailureInTwoPasses(ttl: int) returns (w: World)
    ensures Inv(w) && w.phase.Idle? && PendingSet(w, OriginBacklog) == {"a", "b", "c"}
    ensures
      var fails, succeeds := Attempt(Refused, "", true), Attempt(Acknowledged, "", true);
      var once := Next(OriginHalf(w, 2, [fails, succeeds], ttl), EndPass);
      var twice := Next(OriginHalf(once, 2, [succeeds, succeeds], ttl), EndPass);
      PendingSet(once, OriginBacklog) == {"a", "c"} && PendingSet(twice, OriginBacklog) == {}
  {
    w := ThreeRows();
    hide Inv, OriginHalf, PendingSet, Next, Batch, FirstOf, Recorded;
    var fails, succeeds := Attempt(Refused, "", true), Attempt(Acknowledged, "", true);
    WritingPassOf(w, ["a", "b", "c"], fails, succeeds, ttl);
    WrittenPair("a", "b", fails, succeeds);
    var once := Next(OriginHalf(w, 2, [fails, succeeds], ttl), EndPass);
    assert PendingSet(once, OriginBacklog) == {"a", "c"} == Elements(["a", "c"]);
    WritingPassOf(once, ["a", "c"], succeeds, succeeds, ttl);
    WrittenPair("a", "c", succeeds, succeeds);
  }

  /** A writing pass in batches of two. */
  lemma WritingPassOf(w: World, sorted: seq<string>, a: Attempt, b: Attempt, ttl: int)
    requires Inv(w) && w.phase.Idle?
    requires |sorted| >= 2 && Sorted(sorted, StringLeq) && Distinct(sorted) && Elements(sorted) == PendingSet(w, OriginBacklog)
    ensures
      var w' := Next(OriginHalf(w, 2, [a, b], ttl), EndPass);
      Inv(w') && w'.phase.Idle?
      && PendingSet(w', OriginBacklog) == PendingSet(w, OriginBacklog) - Recorded([sorted[0], sorted[1]], [a, b])
  {
    hide Inv, OriginHalf, PendingSet, Next, Batch, FirstOf, Recorded, Sorted, Distinct, Elements;
    BatchOf(w, sorted, 2);
    assert sorted[..2] == [sorted[0], sorted[1]];
    OriginHalfDrains(w, 2, [a, b], ttl);
    WritingPassDrains(w, OriginHalf(w, 2, [a, b], ttl), 2, Recorded([sorted[0], sorted[1]], [a, b]));
  }

  lemma ThreeRows() returns (w: World)
    ensures Inv(w) && w.phase.Idle? && PendingSet(w, OriginBacklog) == {"a", "b", "c"}
  {
    var rows := map["a" := EmptyRow("a"), "b" := EmptyRow("b"), "c" := EmptyRow("c")];
    var hist := map["a" := [[], []], "b" := [[], []], "c" := [[], []]];
    w := World(Tables(rows, map[]), map[], Idle, hist, map["a" := 0, "b" := 0, "c" := 0], 0, {["a"], ["b"], ["c"]});
    hide RowOk, DeviceOk, NamesOk, WellFormed;
    forall d | d in rows ensures RowOk(d, rows[d]) && DeviceOk(w, d) {
      EmptyDevice(w, d);
    }
    EmptyTables(w.tables);
    EmptyZone(w);
  }

  lemma EmptyTables(t: Tables)
    requires t.idempotency == map[] && forall d :: d in t.intents ==> RowOk(d, t.intents[d]) && t.intents[d] == EmptyRow(d)
    ensures WellFormed(t)
  {
    hide RowOk;
  }

  lemma EmptyZone(w: World)
    requires w.zone == map[]
    ensures NamesOk(w)
  {
    hide HostnameInUse;
  }

  lemma EmptyDevice(w: World, d: string)
    requires d in w.tables.intents && w.tables.intents[d] == EmptyRow(d)
    requires d in w.hist && w.hist[d] == [[], []] && d in w.served && w.served[d] == 0 && [d] in w.names && w.zone == map[]
    ensures RowOk(d, w.tables.intents[d]) && DeviceOk(w, d)
  {
    Addresses.CanonicalEmpty([]);
    assert Elements<Addresses.Addr>([]) == {};
  }

  function EmptyRow(d: string): Intent {
    Intent(d, [d], [], 1, 0, 0, 0, 0, "")
  }

  lemma WrittenPair(d: string, e: string, a: Attempt, b: Attempt)
    ensures Recorded([d, e], [a, b]) == (if a.Succeeds() then {d} else {}) + (if b.Succeeds() then {e} else {})
  {
    forall x ensures x in Recorded([d, e], [a, b]) <==> (a.Succeeds() && x == d) || (b.Succeeds() && x == e) {
      assert [a, b][0].Succeeds() ==> [d, e][0] in Recorded([d, e], [a, b]);
      assert [a, b][1].Succeeds() ==> [d, e][1] in Recorded([d, e], [a, b]);
    }
  }

  lemma BatchOf(w: World, sorted: seq<string>, limit: nat)
    requires Sorted(sorted, StringLeq) && Distinct(sorted) && Elements(sorted) == PendingSet(w, OriginBacklog) && 0 < limit <= |sorted|
    ensures Batch(w, OriginBacklog, limit) == sorted[..limit]
  {
    forall d ensures d in sorted <==> d in w.tables.intents && Pending(w.tables.intents[d], OriginBacklog) {
      assert d in sorted <==> d in Elements(sorted);
    }
    PendingDevicesUnique(w.tables, OriginBacklog, sorted);
  }
}
