/** The lazy expiry inside `UpsertIntent` against the eager sweep of `ExpireLeases`. */
module LeaseExpiry {
  import opened Addresses
  import opened DesiredState

  lemma SettleTwice(row: Intent, now: int)
    ensures Settle(Settle(row, now), now) == Settle(row, now)
  {
  }

  lemma ExpireTwice(t: Tables, now: int)
    ensures Expire(Expire(t, now), now) == Expire(t, now)
  {
  }

  /** Sweeping first changes neither the verdict nor the response of a request. */
  lemma SameVerdict(t: Tables, r: UpsertRequest)
    ensures Upsert(Expire(t, r.now), r).result == Upsert(t, r).result
  {
    var d := r.deviceID;
    var lazy, eager := SettleDevice(t, d, r.now), SettleDevice(Expire(t, r.now), d, r.now);
    assert d in t.intents <==> d in Expire(t, r.now).intents;
    if d in t.intents {
      SettleTwice(t.intents[d], r.now);
      assert lazy.intents[d] == eager.intents[d];
    }
    SameHostnames(t, r.now, r.hostname);
  }

  lemma SameHostnames(t: Tables, now: int, hostname: Names.Name)
    ensures HostnameInUse(Expire(t, now), hostname) <==> HostnameInUse(t, hostname)
  {
    var e := Expire(t, now);
    forall d | d in t.intents ensures d in e.intents && e.intents[d].hostname == t.intents[d].hostname {
    }
  }

  /** A request that will be accepted with a lease that is already over. */
  ghost predicate CommitsDeadLease(t: Tables, r: UpsertRequest) {
    Accepts(t, r) && r.addresses != [] && r.leaseDuration <= 0
  }

  /** Sweeping before or after a request leaves exactly the same tables, unless
      the request itself commits a lease that is already over. */
  lemma UpsertCommutesWithExpiry(t: Tables, r: UpsertRequest)
    ensures Upsert(Expire(t, r.now), r).tables == Expire(Upsert(t, r).tables, r.now)
       <==> !CommitsDeadLease(t, r)
  {
    SameVerdict(t, r);
    ExpireTwice(t, r.now);
    CommitsIffAccepts(t, r);
    var d := r.deviceID;
    var lazy, eager := SettleDevice(t, d, r.now), SettleDevice(Expire(t, r.now), d, r.now);
    assert eager.intents == Expire(t, r.now).intents by {
      if d in t.intents { SettleTwice(t.intents[d], r.now); }
    }
    assert Expire(lazy, r.now).intents == Expire(t, r.now).intents by {
      if d in t.intents { SettleTwice(t.intents[d], r.now); }
    }
    CanonicalEmpty(r.addresses);
    if Commits(t, r) {
      CommitCommutes(lazy, eager, r);
    }
  }

  lemma SameWritten(lazy: Tables, eager: Tables, r: UpsertRequest)
    requires eager == Expire(lazy, r.now)
    requires r.deviceID in lazy.intents ==> !Lapsed(lazy.intents[r.deviceID], r.now)
    ensures Written(eager, r) == Written(lazy, r)
    ensures Written(lazy, r).leaseExpiresAt == r.now + r.leaseDuration
    ensures Written(lazy, r).addresses == Canonical(r.addresses)
  {
  }

  lemma CommitCommutes(lazy: Tables, eager: Tables, r: UpsertRequest)
    requires eager == Expire(lazy, r.now)
    requires r.deviceID in lazy.intents ==> !Lapsed(lazy.intents[r.deviceID], r.now)
    ensures Commit(eager, r) == Expire(Commit(lazy, r), r.now) <==> (r.addresses == [] || r.leaseDuration > 0)
  {
    hide Commit, Canonical, Persist;
    CommitParts(lazy, r);
    CommitParts(eager, r);
    SameWritten(lazy, eager, r);
    CanonicalEmpty(r.addresses);
    hide Written;
    PutThenSweep(lazy, r.deviceID, Written(lazy, r), r.now);
  }

  /** Putting a row in and sweeping, in either order. */
  lemma PutThenSweep(t: Tables, d: string, row: Intent, now: int)
    ensures
      var put := t.(intents := t.intents[d := row]);
      Expire(t, now).intents[d := row] == Expire(put, now).intents <==> !Lapsed(row, now)
  {
    var put := t.(intents := t.intents[d := row]);
    var a, b := Expire(t, now).intents[d := row], Expire(put, now).intents;
    assert a[d] == row && b[d] == Settle(row, now);
    if Lapsed(row, now) {
      assert a[d] != b[d];
    } else {
      assert forall x :: x in a ==> x in b && a[x] == b[x];
    }
  }

  lemma CommitParts(t: Tables, r: UpsertRequest)
    ensures
      var next := Written(t, r);
      && Commit(t, r).intents == t.intents[r.deviceID := next]
      && Commit(t, r).idempotency == t.idempotency[r.RowKey() := IdempotencyRow(Hash(r.addresses), r.precondition.Key(), Persist(next, r.renewAfterSeconds))]
  {
  }

  /** The requests of a known device that leave its lapsed row as it is: replays
      and conflicts, invalid preconditions, and writes under another hostname. */
  ghost predicate SkipsExpiry(t: Tables, r: UpsertRequest)
    requires r.deviceID in t.intents
  {
    || r.RowKey() in t.idempotency
    || !r.precondition.Valid()
    || (PreconditionHolds(SettleDevice(t, r.deviceID, r.now), r) && t.intents[r.deviceID].hostname != r.hostname)
  }

  /** For the writing device, lazy expiry and an eager sweep give the same final
      row and the same stored responses exactly when the row had not lapsed or the
      request got as far as its precondition. */
  lemma LazyExpiryIsEager(t: Tables, r: UpsertRequest)
    requires r.deviceID in t.intents
    ensures
      var lazy, eager := Upsert(t, r).tables, Upsert(Expire(t, r.now), r).tables;
      && lazy.idempotency == eager.idempotency
      && (lazy.intents[r.deviceID] == eager.intents[r.deviceID]
          <==> !(Lapsed(t.intents[r.deviceID], r.now) && SkipsExpiry(t, r)))
  {
    SameVerdict(t, r);
    var d := r.deviceID;
    SettleTwice(t.intents[d], r.now);
    var lazy, eager := SettleDevice(t, d, r.now), SettleDevice(Expire(t, r.now), d, r.now);
    assert lazy.intents[d] == eager.intents[d] && lazy.idempotency == eager.idempotency;
    if Commits(t, r) {
      assert Written(lazy, r) == Written(eager, r);
    }
  }

  /** The generation a committed write to an existing row ends at: the lapse, if
      realised, and the change each count once. */
  lemma GenerationBumps(t: Tables, r: UpsertRequest)
    requires r.deviceID in t.intents && Commits(t, r)
    ensures
      var row, next := t.intents[r.deviceID], Upsert(t, r).tables.intents[r.deviceID];
      next.generation == row.generation +
        (if Lapsed(row, r.now) then 2
         else if row.leaseExpiresAt > r.now && Unmapped(row.addresses) == Unmapped(r.addresses) then 0
         else 1)
  {
  }
}
