/** The address set of every generation, and how controller operations extend it. */
module History {
  import opened Addresses
  import opened DesiredState
  import opened StoreRuns

  /** The history after a row reaches its present generation. A generation passed
      over inside one transaction was a realised expiry. */
  ghost function Extended(h: seq<seq<Addr>>, row: Intent): seq<seq<Addr>> {
    if row.generation < |h| then h
    else h + seq(row.generation - |h|, i => []) + [row.addresses]
  }

  ghost function Record(h: map<string, seq<seq<Addr>>>, t: Tables): map<string, seq<seq<Addr>>> {
    map d | d in t.intents :: Extended(if d in h then h[d] else [[]], t.intents[d])
  }

  ghost predicate HistoryOk(h: seq<seq<Addr>>, row: Intent) {
    && row.generation >= 1 && |h| == row.generation + 1
    && h[0] == [] && h[row.generation] == row.addresses
    && forall k :: 0 <= k < |h| ==> IsCanonical(h[k])
  }

  predicate IsControl(op: Op) {
    op.Write? || op.Sweep?
  }

  // ------------------------------------------------- controller operations

  /** What a controller operation leaves of the publication fields of a row. */
  ghost predicate ControlRow(a: Intent, b: Intent) {
    && RowAdvances(a, b)
    && b.originApplied == a.originApplied && b.publicObserved == a.publicObserved
    && (b.generation == a.generation ==> b.lastError == a.lastError)
    && (b.generation > a.generation ==> b.lastError == "")
  }

  ghost predicate FreshRow(b: Intent) {
    b.originApplied == 0 && b.publicObserved == 0 && b.lastError == "" && b.generation == 1
  }

  ghost predicate ControlMoves(t: Tables, u: Tables) {
    && (forall d :: d in t.intents ==> d in u.intents && ControlRow(t.intents[d], u.intents[d]))
    && (forall d :: d in u.intents && d !in t.intents ==> FreshRow(u.intents[d]))
  }

  lemma SettleRowMoves(d: string, row: Intent, now: int)
    requires RowOk(d, row)
    ensures ControlRow(row, Settle(row, now))
  {
  }

  lemma ControlRowSame(a: Intent)
    ensures ControlRow(a, a)
  {
  }

  lemma ControlRowTransitive(a: Intent, b: Intent, c: Intent)
    ensures ControlRow(a, b) && ControlRow(b, c) ==> ControlRow(a, c)
  {
  }

  lemma WrittenRowMoves(t: Tables, r: UpsertRequest)
    requires WellFormed(t)
    ensures r.deviceID in t.intents ==> ControlRow(t.intents[r.deviceID], Written(t, r))
    ensures r.deviceID !in t.intents ==> FreshRow(Written(t, r)) && Written(t, r).hostname == r.hostname
  {
  }

  lemma WriteMovesDevice(t: Tables, r: UpsertRequest)
    requires WellFormed(t)
    ensures
      var u := Upsert(t, r).tables;
      && (r.deviceID in t.intents ==> r.deviceID in u.intents && ControlRow(t.intents[r.deviceID], u.intents[r.deviceID]))
      && (r.deviceID !in t.intents && r.deviceID in u.intents ==> FreshRow(u.intents[r.deviceID]) && u.intents[r.deviceID].hostname == r.hostname)
      && (forall d :: d != r.deviceID ==> (d in u.intents <==> d in t.intents) && (d in t.intents ==> u.intents[d] == t.intents[d]))
  {
    if r.deviceID in t.intents {
      assert RowOk(r.deviceID, t.intents[r.deviceID]);
    }
    hide Upsert, Commits, IsCanonical, Written, WellFormed, Advances, Settle, RowOk, PreconditionHolds, HostnameInUse, ControlRow, FreshRow;
    var settled := SettleDevice(t, r.deviceID, r.now);
    UpsertShape(t, r);
    SettleKeeps(t, r.deviceID, r.now);
    WrittenRowMoves(settled, r);
    if r.deviceID in t.intents {
      SettleRowMoves(r.deviceID, t.intents[r.deviceID], r.now);
      ControlRowSame(t.intents[r.deviceID]);
      ControlRowTransitive(t.intents[r.deviceID], Settle(t.intents[r.deviceID], r.now), Written(settled, r));
    }
  }

  lemma WriteMoves(t: Tables, r: UpsertRequest)
    requires WellFormed(t)
    ensures ControlMoves(t, Upsert(t, r).tables)
    ensures forall d :: d in Upsert(t, r).tables.intents && d !in t.intents ==> Upsert(t, r).tables.intents[d].hostname == r.hostname
  {
    hide Upsert, IsCanonical, WellFormed, ControlRow, FreshRow;
    WriteMovesDevice(t, r);
    var u := Upsert(t, r).tables;
    forall d | d in t.intents ensures d in u.intents && ControlRow(t.intents[d], u.intents[d]) {
      ControlRowSame(t.intents[d]);
    }
  }

  lemma ControlOpMoves(t: Tables, op: Op)
    requires WellFormed(t) && IsControl(op)
    ensures WellFormed(Step(t, op)) && Advances(t, Step(t, op)) && ControlMoves(t, Step(t, op))
    ensures op.Write? ==> forall d :: d in Step(t, op).intents && d !in t.intents ==> Step(t, op).intents[d].hostname == op.request.hostname
    ensures op.Sweep? ==> forall d :: d in Step(t, op).intents ==> d in t.intents
  {
    StepKeeps(t, op);
    match op
    case Write(r) => WriteMoves(t, r);
    case Sweep(now) =>
  }

  lemma ExtendedOk(h: seq<seq<Addr>>, a: Intent, b: Intent)
    requires HistoryOk(h, a) && RowAdvances(a, b) && IsCanonical(b.addresses)
    ensures HistoryOk(Extended(h, b), b) && h <= Extended(h, b)
  {
  }

  lemma FirstHistoryOk(d: string, b: Intent)
    requires RowOk(d, b) && b.generation == 1
    ensures HistoryOk(Extended([[]], b), b) && Extended([[]], b)[0] == []
  {
  }
}
