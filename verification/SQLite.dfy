/** The store's methods, updating the two tables in place (`internal/store/sqlite.go`). */
module SQLiteStore {
  import opened Order
  import opened Results
  import opened Addresses
  import opened DesiredState
  import opened StoreRuns

  class SQLite {
    var intents: map<string, Intent>
    var idempotency: map<(string, string), IdempotencyRow>

    ghost function Contents(): Tables
      reads this
    {
      Tables(intents, idempotency)
    }

    constructor ()
      ensures Contents() == Tables(map[], map[])
    {
      intents, idempotency := map[], map[];
    }

    method UpsertIntent(request: UpsertRequest, fault: Fault) returns (result: Result<UpsertResult, StoreError>)
      modifies this
      ensures Outcome(Contents(), result) == UpsertUnder(old(Contents()), request, fault)
    {
      hide Canonical, Unmapped, SortBy, IsCanonical, Changes, Replayed, Bound;
      CanonicalIdempotent(request.addresses);
      CommitsIffAccepts(Contents(), request);
      var addresses := CanonicalAddresses(request.addresses);
      var hash := AddressesHash(addresses);
      var preconditionKey := request.precondition.Key();
      var rowKey := (request.deviceID, request.idempotencyKey);
      if fault.BeginFails? || fault.ReadKeyFails? {
        return Err(StorageFailed);
      }
      if rowKey in idempotency {
        result := Replay(idempotency[rowKey], request, hash, preconditionKey, fault);
        return;
      }
      if !request.precondition.Valid() {
        return Err(PreconditionRequired);
      }
      if fault.ReadRowFails? {
        return Err(StorageFailed);
      }

      // The transaction works on `txIntents`; leaving without the assignment to
      // `intents` is a rollback.
      var txIntents := intents;
      var found := request.deviceID in intents;
      var generation := 0;
      var expiredDuringWrite := false;
      if found {
        var current := intents[request.deviceID];
        expiredDuringWrite := |current.addresses| > 0 && !(request.now < current.leaseExpiresAt);
        if expiredDuringWrite {
          current := current.(addresses := [], generation := current.generation + 1, updatedAt := request.now, lastError := "");
          txIntents := txIntents[request.deviceID := current];
          if fault.LapseFails? {
            return Err(StorageFailed);
          }
        }
        generation := current.generation;
      }
      ghost var settled := SettleDevice(Contents(), request.deviceID, request.now);
      assert settled == Tables(txIntents, idempotency);
      var preconditionFailed := false;
      if request.precondition.requireAbsent {
        if found {
          preconditionFailed := true;
        }
      } else if !found || generation != request.precondition.expectedGeneration {
        preconditionFailed := true;
      }
      if preconditionFailed {
        if expiredDuringWrite {
          if fault.CommitFails? {
            return Err(StorageFailed);
          }
          intents := txIntents;
          if fault.CommitUnsure? {
            return Err(StorageFailed);
          }
        }
        return Err(PreconditionFailed);
      }
      result := WriteIntent(txIntents, request, addresses, hash, preconditionKey, fault);
    }

    /** The rest of the transaction, once the precondition holds. */
    method WriteIntent(settledIntents: map<string, Intent>, request: UpsertRequest, addresses: seq<Addr>, hash: Digest, preconditionKey: string, fault: Fault)
      returns (result: Result<UpsertResult, StoreError>)
      requires addresses == Canonical(request.addresses) && hash == Hash(request.addresses) && preconditionKey == request.precondition.Key()
      requires request.RowKey() !in idempotency && request.precondition.Valid()
      requires Tables(settledIntents, idempotency) == SettleDevice(Contents(), request.deviceID, request.now)
      requires PreconditionHolds(Tables(settledIntents, idempotency), request)
      requires !fault.BeginFails? && !fault.ReadKeyFails? && !fault.ReadRowFails?
      requires fault.LapseFails? ==> !(request.deviceID in intents && Lapsed(intents[request.deviceID], request.now))
      modifies this
      ensures Outcome(Contents(), result) == UpsertUnder(old(Contents()), request, fault)
    {
      hide Canonical, Unmapped, SortBy, IsCanonical, Changes;
      CommitsIffAccepts(Contents(), request);
      var txIntents := settledIntents;
      var found := request.deviceID in intents;
      ghost var settled := Tables(txIntents, idempotency);
      var leaseExpires := request.now + request.leaseDuration;
      var next: Intent;
      if !found {
        if fault.WriteFails? {
          return Err(StorageFailed);
        }
        if exists d :: d in txIntents && txIntents[d].hostname == request.hostname {
          return Err(HostnameTaken);
        }
        next := Intent(request.deviceID, request.hostname, addresses, 1, leaseExpires, request.now, 0, 0, "");
      } else {
        var current := txIntents[request.deviceID];
        if current.hostname != request.hostname {
          return Err(HostnameChanged);
        }
        next := Renew(current, request, addresses, leaseExpires);
        if fault.WriteFails? {
          return Err(StorageFailed);
        }
      }
      assert next == Written(settled, request);
      txIntents := txIntents[request.deviceID := next];
      var response := PersistIntent(next, request.renewAfterSeconds);
      if fault.RecordFails? || fault.CommitFails? {
        return Err(StorageFailed);
      }
      idempotency := idempotency[(request.deviceID, request.idempotencyKey) := IdempotencyRow(hash, preconditionKey, response)];
      intents := txIntents;
      if fault.CommitUnsure? {
        return Err(StorageFailed);
      }
      return Ok(UpsertResult(next, request.renewAfterSeconds, false));
    }

    /** The answer to a key that is already stored. */
    method Replay(stored: IdempotencyRow, request: UpsertRequest, hash: Digest, preconditionKey: string, fault: Fault)
      returns (result: Result<UpsertResult, StoreError>)
      requires hash == Hash(request.addresses) && preconditionKey == request.precondition.Key()
      ensures result == if Bound(stored, request) && (fault.DecodeFails? || fault.CommitFails? || fault.CommitUnsure?) then Err(StorageFailed) else Replayed(stored, request)
    {
      hide Canonical;
      if stored.payloadHash != hash || (stored.preconditionKey != "" && stored.preconditionKey != preconditionKey) {
        return Err(IdempotencyConflict);
      }
      if fault.DecodeFails? || fault.CommitFails? || fault.CommitUnsure? {
        return Err(StorageFailed);
      }
      var renewAfterSeconds := stored.response.renewAfterSeconds;
      if renewAfterSeconds <= 0 {
        renewAfterSeconds := request.renewAfterSeconds;
      }
      return Ok(UpsertResult(Restore(stored.response), renewAfterSeconds, true));
    }

    /** The row a write leaves in place of `current`. */
    method Renew(current: Intent, request: UpsertRequest, addresses: seq<Addr>, leaseExpires: int) returns (next: Intent)
      requires addresses == Canonical(request.addresses)
      ensures
        var kept := current.(addresses := addresses, leaseExpiresAt := leaseExpires, updatedAt := request.now);
        next == if Changes(current, request) then kept.(generation := current.generation + 1, lastError := "") else kept
    {
      CanonicalIdempotent(request.addresses);
      hide Canonical, Unmapped;
      next := current;
      next := next.(addresses := addresses);
      next := next.(leaseExpiresAt := leaseExpires);
      next := next.(updatedAt := request.now);
      var equal := AddressesEqual(current.addresses, addresses);
      CanonicalDecidesSetEquality(current.addresses, addresses);
      var changed := !equal || !(request.now < current.leaseExpiresAt);
      if changed {
        next := next.(generation := next.generation + 1);
        next := next.(lastError := "");
      }
    }

    method PersistIntent(intent: Intent, renewAfterSeconds: int) returns (persisted: Persisted)
      ensures persisted == Persist(intent, renewAfterSeconds)
    {
      var addresses := CanonicalAddresses(intent.addresses);
      persisted := Persisted(intent.deviceID, intent.hostname, addresses, intent.generation, intent.leaseExpiresAt,
                             intent.updatedAt, renewAfterSeconds, intent.originApplied, intent.publicObserved, intent.lastError);
    }

    method GetIntent(deviceID: string, ok: bool) returns (result: Result<Intent, StoreError>)
      ensures result == if !ok then Err(StorageFailed) else if deviceID in intents then Ok(intents[deviceID]) else Err(NotFound)
    {
      if !ok {
        return Err(StorageFailed);
      }
      if deviceID !in intents {
        return Err(NotFound);
      }
      return Ok(intents[deviceID]);
    }

    /** `SELECT ... WHERE ... ORDER BY device_id`. */
    method Select(where: Intent -> bool) returns (ids: seq<string>)
      ensures Sorted(ids, StringLeq) && Distinct(ids)
      ensures forall d :: d in ids <==> d in intents && where(intents[d])
    {
      var rest := intents.Keys;
      ids := [];
      while rest != {}
        invariant rest <= intents.Keys
        invariant Distinct(ids)
        invariant forall d :: d in ids <==> d in intents && d !in rest && where(intents[d])
      {
        var d :| d in rest;
        rest := rest - {d};
        if where(intents[d]) {
          ids := ids + [d];
        }
      }
      ghost var unsorted := ids;
      ids := SortBy(ids, StringLeq);
      StringOrder();
      SortBySorts(unsorted, StringLeq);
      SameMultiset(unsorted, ids);
      assert forall d :: d in ids <==> d in Elements(ids);
      assert forall d :: d in unsorted <==> d in Elements(unsorted);
    }

    method SelectLapsed(now: int) returns (ids: seq<string>, expired: seq<Intent>)
      ensures ids == LapsedDevices(Contents(), now) && expired == LapsedRows(Contents(), now)
      ensures |expired| == |ids| && forall k :: 0 <= k < |ids| ==> ids[k] in intents && expired[k] == Lapse(intents[ids[k]], now)
      ensures forall d :: d in ids <==> d in intents && Lapsed(intents[d], now)
      ensures Distinct(ids)
    {
      ids := Select((row: Intent) => Lapsed(row, now));
      LapsedDevicesUnique(Contents(), now, ids);
      expired := [];
      for i := 0 to |ids|
        invariant |expired| == i && forall k :: 0 <= k < i ==> expired[k] == Lapse(intents[ids[k]], now)
      {
        expired := expired + [Lapse(intents[ids[i]], now)];
      }
    }

    method ExpireLeases(now: int, ok: bool) returns (result: Result<seq<Intent>, StoreError>)
      modifies this
      ensures ok ==> Contents() == Expire(old(Contents()), now) && result == Ok(LapsedRows(old(Contents()), now))
      ensures !ok ==> Contents() == old(Contents()) && result == Err(StorageFailed)
    {
      hide Expire, LapsedRows, LapsedDevices, Lapse, Lapsed;
      if !ok {
        return Err(StorageFailed);
      }
      var ids, expired := SelectLapsed(now);
      ghost var before := Contents();
      for i := 0 to |ids|
        invariant idempotency == before.idempotency
        invariant intents.Keys == before.intents.Keys
        invariant forall k :: 0 <= k < i ==> intents[ids[k]] == expired[k]
        invariant forall d :: d in intents && d !in ids ==> intents[d] == before.intents[d]
      {
        intents := intents[ids[i] := expired[i]];
      }
      AllSettled(before, intents, ids, now);
      assert Contents() == Expire(before, now) by { ExpireParts(before, now); }
      return Ok(expired);
    }

    /** The bounded, sorted query. */
    method SelectPending(which: Backlog, limit: int) returns (ids: seq<string>)
      ensures ids == FirstPending(Contents(), which, limit)
    {
      ids := Select((row: Intent) => Pending(row, which));
      PendingDevicesUnique(Contents(), which, ids);
      var bound := limit;
      if bound <= 0 {
        bound := 100;
      }
      if bound < |ids| {
        ids := ids[..bound];
      }
    }

    method List(which: Backlog, limit: int) returns (rows: seq<Intent>)
      ensures rows == Listing(Contents(), which, limit)
    {
      var ids := SelectPending(which, limit);
      rows := [];
      for i := 0 to |ids|
        invariant |rows| == i && forall k :: 0 <= k < i ==> rows[k] == intents[ids[k]]
      {
        rows := rows + [intents[ids[i]]];
      }
    }

    method ListOriginPending(limit: int) returns (rows: seq<Intent>)
      ensures rows == Listing(Contents(), OriginBacklog, limit)
    {
      rows := List(OriginBacklog, limit);
    }

    method ListObservationPending(limit: int) returns (rows: seq<Intent>)
      ensures rows == Listing(Contents(), ObservationBacklog, limit)
    {
      rows := List(ObservationBacklog, limit);
    }

    method MarkOriginApplied(deviceID: string, generation: int)
      modifies this
      ensures Contents() == DesiredState.MarkOriginApplied(old(Contents()), deviceID, generation)
    {
      if deviceID in intents && intents[deviceID].generation == generation {
        intents := intents[deviceID := intents[deviceID].(originApplied := generation, lastError := "")];
      }
    }

    method MarkPubliclyObserved(deviceID: string, generation: int)
      modifies this
      ensures Contents() == DesiredState.MarkPubliclyObserved(old(Contents()), deviceID, generation)
    {
      if deviceID in intents && intents[deviceID].generation == generation && intents[deviceID].originApplied >= generation {
        intents := intents[deviceID := intents[deviceID].(publicObserved := generation)];
      }
    }

    /** Whatever others have the store do, one operation after the other. */
    method Perform(ops: seq<Op>)
      modifies this
      ensures Contents() == Run(old(Contents()), ops)
    {
      hide Upsert, Expire;
      for i := 0 to |ops|
        invariant Contents() == Run(old(Contents()), ops[..i])
      {
        assert ops[..i + 1] == ops[..i] + [ops[i]];
        RunAppend(old(Contents()), ops[..i], [ops[i]]);
        assert [ops[i]][1..] == [];
        match ops[i] {
          case Write(request) =>
            var _ := UpsertIntent(request, NoFault);
          case Sweep(now) =>
            var _ := ExpireLeases(now, true);
          case MarkApplied(d, g) => MarkOriginApplied(d, g);
          case MarkObserved(d, g) => MarkPubliclyObserved(d, g);
          case MarkError(d, g, m) => MarkPublicationError(d, g, m);
        }
      }
      assert ops[..|ops|] == ops;
    }

    method MarkPublicationError(deviceID: string, generation: int, message: string)
      modifies this
      ensures Contents() == DesiredState.MarkPublicationError(old(Contents()), deviceID, generation, message)
    {
      if deviceID in intents && intents[deviceID].generation == generation {
        intents := intents[deviceID := intents[deviceID].(lastError := message)];
      }
    }
  }

  lemma ExpireParts(t: Tables, now: int)
    ensures Expire(t, now) == Tables(Expire(t, now).intents, t.idempotency)
  {
  }

  lemma AllSettled(before: Tables, intents: map<string, Intent>, ids: seq<string>, now: int)
    requires intents.Keys == before.intents.Keys
    requires forall d :: d in ids <==> d in before.intents && Lapsed(before.intents[d], now)
    requires forall k :: 0 <= k < |ids| ==> intents[ids[k]] == Lapse(before.intents[ids[k]], now)
    requires forall d :: d in intents && d !in ids ==> intents[d] == before.intents[d]
    ensures intents == Expire(before, now).intents
  {
  }
}
