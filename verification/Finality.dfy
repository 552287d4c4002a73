/** Exactly when a request rejected with 412 is finished. */
module Finality {
  import opened Results
  import opened Addresses
  import opened DesiredState
  import opened StoreRuns

  /** The identity policy maps the device to a hostname nobody else holds. */
  ghost predicate OwnHostname(t: Tables, r: UpsertRequest) {
    if r.deviceID in t.intents then t.intents[r.deviceID].hostname == r.hostname else !HostnameInUse(t, r.hostname)
  }

  /** The writes the controller sends: a non-empty address set and a lease that
      lasts (`internal/controller/controller.go`, lines 52 and 185). */
  predicate Ordinary(op: Op) {
    op.Write? && op.request.addresses != [] && op.request.leaseDuration > 0
  }

  ghost predicate AllOrdinary(ops: seq<Op>) {
    forall i :: 0 <= i < |ops| ==> Ordinary(ops[i])
  }

  /** The same key under the same precondition. */
  predicate Redelivers(again: UpsertRequest, r: UpsertRequest) {
    again.RowKey() == r.RowKey() && again.precondition == r.precondition
  }

  /** No later state of any run accepts the request. */
  ghost predicate Finished(t: Tables, r: UpsertRequest) {
    forall ops: seq<Op>, again: UpsertRequest :: Redelivers(again, r) ==> Upsert(Run(t, ops), again).result.Err?
  }

  /** No run of ordinary writes leads to a state that accepts it. */
  ghost predicate FinishedUnderWrites(t: Tables, r: UpsertRequest) {
    forall ops: seq<Op>, again: UpsertRequest :: AllOrdinary(ops) && Redelivers(again, r) ==> Upsert(Run(t, ops), again).result.Err?
  }

  // ---------------------------------------------------------- unused keys

  lemma {:induction false} LengthBound(s: set<string>) returns (n: nat)
    ensures forall x :: x in s ==> |x| < n
    decreases s
  {
    if s == {} {
      n := 0;
    } else {
      var y :| y in s;
      n := LengthBound(s - {y});
      n := n + |y| + 1;
    }
  }

  lemma UnusedKeyFor(t: Tables, device: string, other: string) returns (key: string)
    ensures (device, key) !in t.idempotency && key != other
  {
    var used := (set k | k in t.idempotency :: k.1) + {other};
    var n := LengthBound(used);
    key := seq(n, i => 'k');
    assert forall k :: k in t.idempotency ==> k.1 in used;
  }

  // --------------------------------------------------- reaching a generation

  function GenerationOf(t: Tables, d: string): int {
    if d in t.intents then t.intents[d].generation else 0
  }

  /** The request is still undelivered, and its row will not lapse before it is. */
  ghost predicate Waits(t: Tables, r: UpsertRequest) {
    && WellFormed(t) && OwnHostname(t, r)
    && r.RowKey() !in t.idempotency
    && r.precondition.Valid() && !r.precondition.requireAbsent
    && (r.deviceID in t.intents ==> !Lapsed(t.intents[r.deviceID], r.now))
  }

  /** An ordinary write that makes the next generation: of two different
      addresses, the one the device does not hold alone. */
  ghost function Alternating(t: Tables, r: UpsertRequest, key: string, a: Addr, b: Addr): UpsertRequest {
    var d := r.deviceID;
    if d !in t.intents then UpsertRequest(d, r.hostname, [a], key, RequireAbsent(), r.now, 1, 1)
    else
      var row := t.intents[d];
      var next := if Canonical(row.addresses) == Canonical([a]) then [b] else [a];
      UpsertRequest(d, r.hostname, next, key, MatchGeneration(row.generation), r.now, 1, 1)
  }

  lemma AlternatingCommits(t: Tables, r: UpsertRequest, key: string, a: Addr, b: Addr)
    requires Waits(t, r) && (r.deviceID, key) !in t.idempotency && Unmap(a) != Unmap(b)
    ensures
      var w := Alternating(t, r, key, a, b);
      && Ordinary(Write(w))
      && Commits(t, w) && Upsert(t, w).tables == Commit(t, w)
      && Written(t, w).generation == GenerationOf(t, r.deviceID) + 1
      && Written(t, w).leaseExpiresAt == r.now + 1 && Written(t, w).hostname == r.hostname
  {
    hide WellFormed, Canonical;
    var w := Alternating(t, r, key, a, b);
    DifferentSingles(a, b);
    if r.deviceID in t.intents {
      WaitingRow(t, r);
      var row := t.intents[r.deviceID];
      assert SettleDevice(t, r.deviceID, w.now) == t by {
        assert t.intents[r.deviceID := row] == t.intents;
      }
      assert Changes(row, w);
    }
  }

  lemma DifferentSingles(a: Addr, b: Addr)
    requires Unmap(a) != Unmap(b)
    ensures Canonical([a]) != Canonical([b])
  {
    CanonicalDecidesSetEquality([a], [b]);
    assert Unmap(a) in Unmapped([a]) && Unmap(a) !in Unmapped([b]);
  }

  lemma WaitingRow(t: Tables, r: UpsertRequest)
    requires Waits(t, r) && r.deviceID in t.intents
    ensures RowOk(r.deviceID, t.intents[r.deviceID])
  {
  }

  lemma AlternatingAdvances(t: Tables, r: UpsertRequest, key: string, a: Addr, b: Addr)
    requires Waits(t, r) && (r.deviceID, key) !in t.idempotency && key != r.idempotencyKey && Unmap(a) != Unmap(b)
    ensures
      var op := Write(Alternating(t, r, key, a, b));
      Ordinary(op) && Waits(Step(t, op), r) && GenerationOf(Step(t, op), r.deviceID) == GenerationOf(t, r.deviceID) + 1
  {
    WriteKeeps(t, Alternating(t, r, key, a, b));
    AlternatingCommits(t, r, key, a, b);
    hide WellFormed, Advances, Canonical, Upsert, Written, Commits;
  }

  /** From any undelivered request ahead of its device, ordinary writes over any two
      different addresses lead to a state that accepts it. */
  lemma {:induction false} Reachable(t: Tables, r: UpsertRequest, a: Addr, b: Addr) returns (ops: seq<Op>)
    requires Waits(t, r) && GenerationOf(t, r.deviceID) <= r.precondition.expectedGeneration && Unmap(a) != Unmap(b)
    ensures AllOrdinary(ops) && Upsert(Run(t, ops), r).result.Ok?
    decreases r.precondition.expectedGeneration - GenerationOf(t, r.deviceID)
  {
    if GenerationOf(t, r.deviceID) == r.precondition.expectedGeneration {
      ops := [];
      WaitingIsAccepted(t, r);
    } else {
      var key := UnusedKeyFor(t, r.deviceID, r.idempotencyKey);
      var op := Write(Alternating(t, r, key, a, b));
      AlternatingAdvances(t, r, key, a, b);
      hide Waits, Upsert, Step, Alternating;
      var rest := Reachable(Step(t, op), r, a, b);
      ops := [op] + rest;
      assert ops[1..] == rest;
    }
  }

  lemma WaitingIsAccepted(t: Tables, r: UpsertRequest)
    requires Waits(t, r) && GenerationOf(t, r.deviceID) == r.precondition.expectedGeneration
    ensures Upsert(t, r).result.Ok?
  {
  }

  // ------------------------------------------------------------ the theorem

  /** A 412 is final exactly when the generation the request names had been
      reached: a request sent too early is refused now and can still win later, by
      nothing more than ordinary writes of the same device. */
  lemma RejectionIsFinalOnceReached(t: Tables, r: UpsertRequest)
    requires WellFormed(t) && OwnHostname(t, r) && Upsert(t, r).result == Err(PreconditionFailed)
    ensures
      var u, reached := Upsert(t, r).tables, Reached(SettleDevice(t, r.deviceID, r.now), r.deviceID, r.precondition);
      (Finished(u, r) <==> reached) && (FinishedUnderWrites(u, r) <==> reached)
  {
    var u := Upsert(t, r).tables;
    if Reached(SettleDevice(t, r.deviceID, r.now), r.deviceID, r.precondition) {
      forall ops: seq<Op>, again: UpsertRequest | Redelivers(again, r)
        ensures Upsert(Run(u, ops), again).result.Err?
      {
        RejectionIsFinal(t, r, ops, again);
      }
    } else {
      EarlyWaits(t, r);
      var ops := Reachable(u, r, V4(1), V4(2));
      assert Redelivers(r, r) && !Upsert(Run(u, ops), r).result.Err?;
    }
  }

  lemma EarlyWaits(t: Tables, r: UpsertRequest)
    requires WellFormed(t) && OwnHostname(t, r) && Upsert(t, r).result == Err(PreconditionFailed)
    requires !Reached(SettleDevice(t, r.deviceID, r.now), r.deviceID, r.precondition)
    ensures Waits(Upsert(t, r).tables, r)
    ensures GenerationOf(Upsert(t, r).tables, r.deviceID) <= r.precondition.expectedGeneration
  {
    SettleKeeps(t, r.deviceID, r.now);
    hide WellFormed, Advances;
  }
}
