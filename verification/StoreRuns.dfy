/** What the store keeps over whole runs: any operations, in any order, with any
    arguments and any clock values. */
module StoreRuns {
  import opened Order
  import opened Results
  import opened Addresses
  import opened DesiredState

  datatype Op =
    | Write(request: UpsertRequest)
    | Sweep(now: int)
    | MarkApplied(device: string, generation: int)
    | MarkObserved(device: string, generation: int)
    | MarkError(device: string, generation: int, message: string)

  ghost function Step(t: Tables, op: Op): Tables {
    match op
    case Write(r) => Upsert(t, r).tables
    case Sweep(now) => Expire(t, now)
    case MarkApplied(d, g) => MarkOriginApplied(t, d, g)
    case MarkObserved(d, g) => MarkPubliclyObserved(t, d, g)
    case MarkError(d, g, m) => MarkPublicationError(t, d, g, m)
  }

  ghost function Run(t: Tables, ops: seq<Op>): Tables
    decreases ops
  {
    if ops == [] then t else Run(Step(t, ops[0]), ops[1..])
  }

  // ----------------------------------------------------------- invariant

  ghost predicate RowOk(d: string, row: Intent) {
    && row.deviceID == d && row.generation >= 1
    && IsCanonical(row.addresses)
    && 0 <= row.publicObserved <= row.originApplied <= row.generation
  }

  ghost predicate ResponseOk(t: Tables, key: (string, string))
    requires key in t.idempotency
  {
    && key.0 in t.intents
    && 1 <= t.idempotency[key].response.generation <= t.intents[key.0].generation
  }

  ghost predicate WellFormed(t: Tables) {
    && (forall d :: d in t.intents ==> RowOk(d, t.intents[d]))
    && (forall d, e :: d in t.intents && e in t.intents && t.intents[d].hostname == t.intents[e].hostname ==> d == e)
    && (forall key :: key in t.idempotency ==> ResponseOk(t, key))
  }

  ghost function Rank(s: Status): nat {
    match s case Accepted => 0 case OriginApplied => 1 case PubliclyObserved => 2
  }

  /** How one device row may move. */
  ghost predicate RowAdvances(a: Intent, b: Intent) {
    && b.hostname == a.hostname
    && b.generation >= a.generation
    && b.originApplied >= a.originApplied && b.publicObserved >= a.publicObserved
    && (b.generation == a.generation ==> b.addresses == a.addresses && Rank(StatusOf(b)) >= Rank(StatusOf(a)))
  }

  /** How the tables may move: rows and stored responses stay, generations and
      publication counters never fall, and a generation keeps its address set. */
  ghost predicate Advances(t: Tables, u: Tables) {
    && (forall d :: d in t.intents ==> d in u.intents && RowAdvances(t.intents[d], u.intents[d]))
    && (forall key :: key in t.idempotency ==> key in u.idempotency && u.idempotency[key] == t.idempotency[key])
  }

  lemma AdvancesTransitive(t: Tables, u: Tables, v: Tables)
    requires Advances(t, u) && Advances(u, v)
    ensures Advances(t, v)
  {
  }

  lemma SettleRow(d: string, row: Intent, now: int)
    requires RowOk(d, row)
    ensures RowOk(d, Settle(row, now)) && RowAdvances(row, Settle(row, now))
  {
  }

  lemma ReplaceRow(t: Tables, d: string, row: Intent)
    requires WellFormed(t) && d in t.intents
    requires RowOk(d, row) && RowAdvances(t.intents[d], row)
    ensures WellFormed(t.(intents := t.intents[d := row])) && Advances(t, t.(intents := t.intents[d := row]))
  {
    hide RowOk, StatusOf, Rank;
    var u := t.(intents := t.intents[d := row]);
    forall key | key in u.idempotency ensures ResponseOk(u, key) {
      assert ResponseOk(t, key);
    }
    forall e | e in t.intents ensures e in u.intents && RowAdvances(t.intents[e], u.intents[e]) {
      StaysItself(t.intents[e]);
    }
    forall e, f | e in u.intents && f in u.intents && u.intents[e].hostname == u.intents[f].hostname ensures e == f {
      assert t.intents[e].hostname == u.intents[e].hostname && t.intents[f].hostname == u.intents[f].hostname;
    }
  }

  lemma StaysItself(row: Intent)
    ensures RowAdvances(row, row)
  {
  }

  lemma SettleKeeps(t: Tables, d: string, now: int)
    requires WellFormed(t)
    ensures WellFormed(SettleDevice(t, d, now)) && Advances(t, SettleDevice(t, d, now))
  {
    if d in t.intents {
      SettleRow(d, t.intents[d], now);
      ReplaceRow(t, d, Settle(t.intents[d], now));
    }
  }

  lemma SweepKeeps(t: Tables, now: int)
    requires WellFormed(t)
    ensures WellFormed(Expire(t, now)) && Advances(t, Expire(t, now))
  {
    forall d | d in t.intents
      ensures RowOk(d, Settle(t.intents[d], now)) && RowAdvances(t.intents[d], Settle(t.intents[d], now))
    {
      SettleRow(d, t.intents[d], now);
    }
  }

  lemma WrittenRow(t: Tables, r: UpsertRequest)
    requires WellFormed(t)
    ensures RowOk(r.deviceID, Written(t, r))
    ensures r.deviceID in t.intents ==> RowAdvances(t.intents[r.deviceID], Written(t, r))
    ensures Written(t, r).addresses == Canonical(r.addresses)
  {
    CanonicalIdempotent(r.addresses);
  }

  /** A row and a response put in together. */
  lemma PutRow(t: Tables, row: Intent, key: (string, string), answer: IdempotencyRow)
    requires WellFormed(t) && key !in t.idempotency
    requires RowOk(key.0, row) && 1 <= answer.response.generation <= row.generation
    requires key.0 in t.intents ==> RowAdvances(t.intents[key.0], row)
    requires key.0 !in t.intents ==> !HostnameInUse(t, row.hostname)
    ensures
      var u := Tables(t.intents[key.0 := row], t.idempotency[key := answer]);
      WellFormed(u) && Advances(t, u)
  {
    hide RowOk, IsCanonical, StatusOf, Rank;
    var u := Tables(t.intents[key.0 := row], t.idempotency[key := answer]);
    forall k | k in u.idempotency ensures ResponseOk(u, k) {
      if k != key { assert ResponseOk(t, k); }
    }
    forall d, e | d in u.intents && e in u.intents && u.intents[d].hostname == u.intents[e].hostname ensures d == e {
      if key.0 in t.intents { assert row.hostname == t.intents[key.0].hostname; }
    }
    forall d | d in t.intents ensures RowAdvances(t.intents[d], u.intents[d]) {
    }
  }

  lemma CommitKeeps(t: Tables, r: UpsertRequest)
    requires WellFormed(t) && r.RowKey() !in t.idempotency
    requires r.deviceID in t.intents ==> t.intents[r.deviceID].hostname == r.hostname
    requires r.deviceID !in t.intents ==> !HostnameInUse(t, r.hostname)
    ensures WellFormed(Commit(t, r)) && Advances(t, Commit(t, r))
  {
    hide WellFormed, Advances, RowAdvances, IsCanonical, Canonical;
    WrittenRow(t, r);
    PutRow(t, Written(t, r), r.RowKey(), Commit(t, r).idempotency[r.RowKey()]);
  }

  /** The three things an upsert can do to the tables. */
  lemma UpsertShape(t: Tables, r: UpsertRequest)
    ensures
      var settled := SettleDevice(t, r.deviceID, r.now);
      var u := Upsert(t, r).tables;
      if Commits(t, r) then
        && u == Commit(settled, r) && r.RowKey() !in t.idempotency
        && r.precondition.Valid() && PreconditionHolds(settled, r)
        && (r.deviceID in settled.intents ==> settled.intents[r.deviceID].hostname == r.hostname)
        && (r.deviceID !in settled.intents ==> settled == t && !HostnameInUse(settled, r.hostname))
      else u == t || u == settled
  {
  }

  lemma WriteKeeps(t: Tables, r: UpsertRequest)
    requires WellFormed(t)
    ensures WellFormed(Upsert(t, r).tables) && Advances(t, Upsert(t, r).tables)
  {
    hide WellFormed, Advances, Commit, Upsert, Commits;
    var settled := SettleDevice(t, r.deviceID, r.now);
    UpsertShape(t, r);
    SettleKeeps(t, r.deviceID, r.now);
    Unmoved(t);
    if Commits(t, r) {
      CommitKeeps(settled, r);
      AdvancesTransitive(t, settled, Commit(settled, r));
    }
  }

  lemma Unmoved(t: Tables)
    ensures Advances(t, t)
  {
  }

  /** A mark that does anything replaces one row by a row that may follow it. */
  lemma MarkedRow(t: Tables, op: Op)
    requires WellFormed(t) && (op.MarkApplied? || op.MarkObserved? || op.MarkError?) && Step(t, op) != t
    ensures
      var u, d := Step(t, op), op.device;
      && d in t.intents && d in u.intents
      && u == t.(intents := t.intents[d := u.intents[d]])
      && RowOk(d, u.intents[d]) && RowAdvances(t.intents[d], u.intents[d])
  {
    hide IsCanonical;
    assert op.device in t.intents && RowOk(op.device, t.intents[op.device]);
  }

  lemma MarksKeep(t: Tables, op: Op)
    requires WellFormed(t) && (op.MarkApplied? || op.MarkObserved? || op.MarkError?)
    ensures WellFormed(Step(t, op)) && Advances(t, Step(t, op))
  {
    hide WellFormed, Advances, IsCanonical;
    Unmoved(t);
    if Step(t, op) != t {
      MarkedRow(t, op);
      ReplaceRow(t, op.device, Step(t, op).intents[op.device]);
    }
  }

  lemma StepKeeps(t: Tables, op: Op)
    requires WellFormed(t)
    ensures WellFormed(Step(t, op)) && Advances(t, Step(t, op))
  {
    hide WellFormed, Advances;
    match op
    case Write(r) => WriteKeeps(t, r);
    case Sweep(now) => SweepKeeps(t, now);
    case MarkApplied(d, g) => MarksKeep(t, op);
    case MarkObserved(d, g) => MarksKeep(t, op);
    case MarkError(d, g, m) => MarksKeep(t, op);
  }

  /** Every run keeps the invariant — in particular 0 <= public_observed <=
      origin_applied <= generation for any mark arguments — and only advances. */
  lemma {:induction false} RunKeeps(t: Tables, ops: seq<Op>)
    requires WellFormed(t)
    ensures WellFormed(Run(t, ops)) && Advances(t, Run(t, ops))
    decreases ops
  {
    if ops == [] {
    } else {
      StepKeeps(t, ops[0]);
      RunKeeps(Step(t, ops[0]), ops[1..]);
      AdvancesTransitive(t, Step(t, ops[0]), Run(t, ops));
    }
  }

  lemma {:induction false} RunAppend(t: Tables, a: seq<Op>, b: seq<Op>)
    ensures Run(t, a + b) == Run(Run(t, a), b)
    decreases a
  {
    if a == [] {
      assert a + b == b;
    } else {
      assert (a + b)[1..] == a[1..] + b;
      RunAppend(Step(t, a[0]), a[1..], b);
    }
  }

  /** The generation is a strong validator: between any two points of a run it
      never falls, and equal generations name equal address sets. */
  lemma StrongValidator(t: Tables, ops: seq<Op>, i: nat, j: nat, d: string)
    requires WellFormed(t) && i <= j <= |ops|
    requires d in Run(t, ops[..i]).intents
    ensures
      var early, late := Run(t, ops[..i]).intents, Run(t, ops[..j]).intents;
      && d in late
      && early[d].generation <= late[d].generation
      && (early[d].generation == late[d].generation ==> early[d].addresses == late[d].addresses)
  {
    assert ops[..j] == ops[..i] + ops[i..j];
    RunAppend(t, ops[..i], ops[i..j]);
    RunKeeps(t, ops[..i]);
    RunKeeps(Run(t, ops[..i]), ops[i..j]);
  }

  // ------------------------------------------------------- unique winner

  /** `r` is accepted against generation `g` and makes a newer one. */
  ghost predicate WinsAt(t: Tables, op: Op, d: string, g: int) {
    && op.Write? && op.request.deviceID == d && op.request.precondition == MatchGeneration(g)
    && Commits(t, op.request) && Step(t, op).intents[d].generation > g
  }

  ghost function Wins(t: Tables, ops: seq<Op>, d: string, g: int): nat
    decreases ops
  {
    if ops == [] then 0
    else (if WinsAt(t, ops[0], d, g) then 1 else 0) + Wins(Step(t, ops[0]), ops[1..], d, g)
  }

  lemma {:induction false} NoWinnerBelow(t: Tables, ops: seq<Op>, d: string, g: int)
    requires WellFormed(t) && d in t.intents && t.intents[d].generation > g
    ensures Wins(t, ops, d, g) == 0
    decreases ops
  {
    if ops == [] {
    } else {
      StepKeeps(t, ops[0]);
      NoWinnerBelow(Step(t, ops[0]), ops[1..], d, g);
    }
  }

  /** Over any run at most one write carrying If-Match g moves a device past g. */
  lemma {:induction false} UniqueWinner(t: Tables, ops: seq<Op>, d: string, g: int)
    requires WellFormed(t)
    ensures Wins(t, ops, d, g) <= 1
    decreases ops
  {
    if ops == [] {
    } else {
      StepKeeps(t, ops[0]);
      if WinsAt(t, ops[0], d, g) {
        NoWinnerBelow(Step(t, ops[0]), ops[1..], d, g);
      } else {
        UniqueWinner(Step(t, ops[0]), ops[1..], d, g);
      }
    }
  }

  ghost predicate CreatesAt(t: Tables, op: Op, d: string) {
    op.Write? && op.request.deviceID == d && op.request.precondition.requireAbsent && Commits(t, op.request)
  }

  ghost function Creations(t: Tables, ops: seq<Op>, d: string): nat
    decreases ops
  {
    if ops == [] then 0
    else (if CreatesAt(t, ops[0], d) then 1 else 0) + Creations(Step(t, ops[0]), ops[1..], d)
  }

  lemma CreationNeedsAbsence(t: Tables, r: UpsertRequest)
    requires r.precondition.requireAbsent && Commits(t, r)
    ensures r.deviceID !in t.intents && r.deviceID in Upsert(t, r).tables.intents
  {
  }

  /** Over any run at most one If-None-Match write is accepted for a device,
      and none once it has a row. */
  lemma {:induction false} UniqueCreation(t: Tables, ops: seq<Op>, d: string)
    requires WellFormed(t)
    ensures Creations(t, ops, d) <= if d in t.intents then 0 else 1
    decreases ops
  {
    if ops == [] {
    } else {
      hide WellFormed, Upsert, Commits;
      StepKeeps(t, ops[0]);
      if CreatesAt(t, ops[0], d) { CreationNeedsAbsence(t, ops[0].request); }
      UniqueCreation(Step(t, ops[0]), ops[1..], d);
    }
  }

  // -------------------------------------------------------- exactly once

  ghost predicate TakesEffectAt(t: Tables, op: Op, key: (string, string)) {
    op.Write? && op.request.RowKey() == key && Commits(t, op.request)
  }

  ghost function Effects(t: Tables, ops: seq<Op>, key: (string, string)): nat
    decreases ops
  {
    if ops == [] then 0
    else (if TakesEffectAt(t, ops[0], key) then 1 else 0) + Effects(Step(t, ops[0]), ops[1..], key)
  }

  /** However often requests are delivered, each (device, key) takes effect at
      most once, and never again once it is stored. */
  lemma {:induction false} ExactlyOnce(t: Tables, ops: seq<Op>, key: (string, string))
    requires WellFormed(t)
    ensures Effects(t, ops, key) <= if key in t.idempotency then 0 else 1
    decreases ops
  {
    if ops == [] {
    } else {
      StepKeeps(t, ops[0]);
      ExactlyOnce(Step(t, ops[0]), ops[1..], key);
    }
  }

  /** After a request is accepted, any later delivery under its key leaves both
      tables alone. The same body and precondition get the original result; a
      different body or precondition gets a conflict. */
  lemma LaterDelivery(t: Tables, r: UpsertRequest, ops: seq<Op>, again: UpsertRequest)
    requires WellFormed(t) && Commits(t, r)
    requires again.RowKey() == r.RowKey()
    ensures
      var first := Upsert(t, r);
      var later := Run(first.tables, ops);
      var reply := Upsert(later, again);
      var same := Hash(again.addresses) == Hash(r.addresses) && again.precondition.Key() == r.precondition.Key();
      && reply.tables == later
      && (!same ==> reply.result == Err(IdempotencyConflict))
      && (same ==>
            && reply.result.Ok? && reply.result.value.replay
            && reply.result.value.intent == first.result.value.intent
            && (reply.result.value.renewAfterSeconds == r.renewAfterSeconds
                <==> r.renewAfterSeconds > 0 || again.renewAfterSeconds == r.renewAfterSeconds))
  {
    hide WellFormed;
    WriteKeeps(t, r);
    var first := Upsert(t, r);
    RunKeeps(first.tables, ops);
    var row := first.tables.idempotency[r.RowKey()];
    assert Run(first.tables, ops).idempotency[r.RowKey()] == row;
    CanonicalIdempotent(r.addresses);
    assert Restore(row.response) == first.result.value.intent;
    KeyIsNotBlank(r.precondition);
  }

  lemma KeyIsNotBlank(p: Precondition)
    ensures p.Key() != ""
  {
  }

  // -------------------------------------------------------- a 412 is final

  /** No state at or after this one satisfies the precondition. */
  ghost predicate Dead(t: Tables, d: string, p: Precondition) {
    d in t.intents && (p.requireAbsent || t.intents[d].generation > p.expectedGeneration)
  }

  /** The key is not stored for this precondition. */
  ghost predicate Unbound(t: Tables, key: (string, string), p: Precondition) {
    key in t.idempotency ==> t.idempotency[key].preconditionKey != "" && t.idempotency[key].preconditionKey != p.Key()
  }

  lemma DeadStep(t: Tables, op: Op, key: (string, string), p: Precondition)
    requires WellFormed(t) && p.Valid() && Dead(t, key.0, p) && Unbound(t, key, p)
    ensures Dead(Step(t, op), key.0, p) && Unbound(Step(t, op), key, p)
  {
    hide WellFormed, Written;
    StepKeeps(t, op);
    if op.Write? {
      UpsertShape(t, op.request);
      hide Upsert;
      if op.request.RowKey() == key && Commits(t, op.request) {
        KeyIsNotBlank(op.request.precondition);
        SettleKeeps(t, key.0, op.request.now);
        assert op.request.precondition != p;
        if op.request.precondition.Key() == p.Key() {
          PreconditionKeyInjective(op.request.precondition, p);
        }
      }
    }
  }

  lemma {:induction false} DeadRun(t: Tables, ops: seq<Op>, key: (string, string), p: Precondition)
    requires WellFormed(t) && p.Valid() && Dead(t, key.0, p) && Unbound(t, key, p)
    ensures Dead(Run(t, ops), key.0, p) && Unbound(Run(t, ops), key, p)
    decreases ops
  {
    if ops == [] {
    } else {
      DeadStep(t, ops[0], key, p);
      StepKeeps(t, ops[0]);
      DeadRun(Step(t, ops[0]), ops[1..], key, p);
    }
  }

  lemma DeadIsRefused(t: Tables, r: UpsertRequest)
    requires WellFormed(t) && r.precondition.Valid()
    requires Dead(t, r.deviceID, r.precondition) && Unbound(t, r.RowKey(), r.precondition)
    ensures Upsert(t, r).result.Err?
  {
  }

  /** The precondition names a generation this device has already had. */
  ghost predicate Reached(t: Tables, d: string, p: Precondition) {
    p.requireAbsent || (d in t.intents && p.expectedGeneration <= t.intents[d].generation)
  }

  /** A rejection as precondition-failed leaves the precondition dead and the key
      unbound, when its generation had been reached. */
  lemma RejectionKills(t: Tables, r: UpsertRequest)
    requires WellFormed(t) && Upsert(t, r).result == Err(PreconditionFailed)
    requires Reached(SettleDevice(t, r.deviceID, r.now), r.deviceID, r.precondition)
    ensures r.precondition.Valid()
    ensures Dead(Upsert(t, r).tables, r.deviceID, r.precondition)
    ensures r.RowKey() !in Upsert(t, r).tables.idempotency
  {
  }

  /** A 412 is final: no later state of any run accepts the request, whatever
      the clock says then. */
  lemma RejectionIsFinal(t: Tables, r: UpsertRequest, ops: seq<Op>, again: UpsertRequest)
    requires WellFormed(t) && Upsert(t, r).result == Err(PreconditionFailed)
    requires Reached(SettleDevice(t, r.deviceID, r.now), r.deviceID, r.precondition)
    requires again.RowKey() == r.RowKey() && again.precondition == r.precondition
    ensures Upsert(Run(Upsert(t, r).tables, ops), again).result.Err?
  {
    RejectionKills(t, r);
    WriteKeeps(t, r);
    DeadRun(Upsert(t, r).tables, ops, r.RowKey(), r.precondition);
    RunKeeps(Upsert(t, r).tables, ops);
    DeadIsRefused(Run(Upsert(t, r).tables, ops), again);
  }

  // -------------------------------------------------------- renewal trap

  /** The write leaves the generation of this live row as it is. */
  ghost predicate KeepsGeneration(row: Intent, r: UpsertRequest) {
    row.leaseExpiresAt > r.now && Unmapped(row.addresses) == Unmapped(r.addresses)
  }

  lemma KeepsGenerationExactly(t: Tables, r: UpsertRequest)
    requires r.deviceID in t.intents && Commits(t, r) && !r.precondition.requireAbsent
    ensures
      var row, next := t.intents[r.deviceID], Upsert(t, r).tables.intents[r.deviceID];
      && r.RowKey() in Upsert(t, r).tables.idempotency
      && next.hostname == row.hostname && next.leaseExpiresAt == r.now + r.leaseDuration
      && next.addresses == Canonical(r.addresses)
      && (next.generation == r.precondition.expectedGeneration <==> KeepsGeneration(row, r))
  {
    CanonicalDecidesSetEquality(SettleDevice(t, r.deviceID, r.now).intents[r.deviceID].addresses, r.addresses);
    hide Canonical, Unmapped;
  }

  /** Protection is per generation, not per request age: after an accepted write
      carrying If-Match g, a delayed write with the same If-Match still wins exactly
      when the first one was an unchanged renewal of a live lease and the renewed
      lease is not over when the delayed write arrives. */
  lemma RenewalDoesNotFence(t: Tables, renewal: UpsertRequest, delayed: UpsertRequest)
    requires renewal.deviceID in t.intents && Commits(t, renewal)
    requires renewal.deviceID == delayed.deviceID && renewal.hostname == delayed.hostname
    requires delayed.precondition == renewal.precondition && !renewal.precondition.requireAbsent
    requires delayed.RowKey() !in t.idempotency && delayed.RowKey() != renewal.RowKey()
    ensures Commits(Upsert(t, renewal).tables, delayed)
       <==> && KeepsGeneration(t.intents[renewal.deviceID], renewal)
            && !(renewal.addresses != [] && renewal.now + renewal.leaseDuration <= delayed.now)
  {
    KeepsGenerationExactly(t, renewal);
    CanonicalEmpty(renewal.addresses);
    CommitsIffAccepts(t, renewal);
    var u := Upsert(t, renewal).tables;
    CommitsIffAccepts(u, delayed);
    UpsertShape(t, renewal);
    hide Upsert, Commits, Canonical, Unmapped, KeepsGeneration;
    SettledGeneration(u, delayed);
  }

  /** Where a lapse would leave the generation. */
  lemma SettledGeneration(t: Tables, r: UpsertRequest)
    requires r.deviceID in t.intents
    ensures
      var row := t.intents[r.deviceID];
      SettleDevice(t, r.deviceID, r.now).intents[r.deviceID].generation == row.generation + if Lapsed(row, r.now) then 1 else 0
  {
  }

  /** The input that shows it: a device at generation 1 renews its one address, and
      an older request for another address, sent under the same If-Match and arriving
      after the renewal, replaces it. */
  lemma DelayedWriteWins() returns (t: Tables, renewal: UpsertRequest, delayed: UpsertRequest)
    ensures WellFormed(t) && Commits(t, renewal)
    ensures delayed.now > renewal.now && delayed.precondition == renewal.precondition == MatchGeneration(1)
    ensures
      var after := Upsert(t, renewal).tables;
      && "d" in after.intents && after.intents["d"].addresses == [V4(1)]
      && Commits(after, delayed)
      && "d" in Upsert(after, delayed).tables.intents && Upsert(after, delayed).tables.intents["d"].addresses == [V4(2)]
  {
    SingleIsCanonical(1);
    SingleIsCanonical(2);
    var row := Intent("d", ["d", "example"], [V4(1)], 1, 100, 0, 0, 0, "");
    t := Tables(map["d" := row], map[]);
    renewal := UpsertRequest("d", ["d", "example"], [V4(1)], "b", MatchGeneration(1), 10, 100, 50);
    delayed := UpsertRequest("d", ["d", "example"], [V4(2)], "a", MatchGeneration(1), 20, 100, 50);
    CommitsIffAccepts(t, renewal);
    KeepsGenerationExactly(t, renewal);
    RenewalDoesNotFence(t, renewal, delayed);
    KeepsGenerationExactly(Upsert(t, renewal).tables, delayed);
  }

  lemma SingleIsCanonical(bits: Bits32)
    ensures Canonical([V4(bits)]) == [V4(bits)]
  {
    AddrOrder();
    assert Unmapped([V4(bits)]) == Elements([V4(bits)]);
    SortedSetIsUnique([V4(bits)], AddrLeq);
  }
}
