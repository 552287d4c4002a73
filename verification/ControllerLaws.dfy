/** What the two handlers answer, by the fields of request and row alone. */
module ControllerLaws {
  import opened Order
  import opened Results
  import opened Addresses
  import opened Names
  import opened ETag
  import opened Wire
  import opened DesiredState
  import opened StoreRuns
  import opened Controller

  // --------------------------------------------------------------- headers

  predicate Blank(s: string) {
    forall i :: 0 <= i < |s| ==> s[i] in {' ', '\t', '\n', '\r', '\U{000B}', '\U{000C}', '\U{0085}', '\U{00A0}'}
  }

  /** The value is this text with nothing but space around it. */
  ghost predicate Wraps(value: string, text: string) {
    exists before, after :: Around(value, before, text, after)
  }

  predicate Around(value: string, before: string, text: string, after: string) {
    value == before + text + after && Blank(before) && Blank(after)
  }

  lemma WrapsWithin(value: string, first: string, inner: string, last: string, text: string)
    requires value == first + inner + last && Blank(first) && Blank(last) && Wraps(inner, text)
    ensures Wraps(value, text)
  {
    var before, after :| Around(inner, before, text, after);
    assert Around(value, first + before, text, after + last);
  }

  lemma {:induction false} TrimmedWraps(value: string)
    ensures Wraps(value, TrimSpace(value))
    ensures TrimSpace(value) != "" ==> !IsSpace(TrimSpace(value)[0]) && !IsSpace(TrimSpace(value)[|TrimSpace(value)| - 1])
    decreases |value|
  {
    hide Wraps;
    if value != "" && IsSpace(value[0]) {
      TrimmedWraps(value[1..]);
      WrapsWithin(value, value[..1], value[1..], [], TrimSpace(value));
    } else if value != "" && IsSpace(value[|value| - 1]) {
      TrimmedWraps(value[..|value| - 1]);
      WrapsWithin(value, [], value[..|value| - 1], value[|value| - 1..], TrimSpace(value));
    } else {
      WrapsItself(value);
    }
  }

  lemma WrapsItself(value: string)
    ensures Wraps(value, value)
  {
    var none: string := [];
    assert Around(value, none, value, none);
  }

  /** Trimming finds exactly the text that has no space at its own ends. */
  lemma {:induction false} WrappedIsTrimmed(before: string, text: string, after: string)
    requires Blank(before) && Blank(after) && text != "" && !IsSpace(text[0]) && !IsSpace(text[|text| - 1])
    ensures TrimSpace(before + text + after) == text
    decreases |before| + |after|
  {
    var value := before + text + after;
    if before != "" {
      assert value[1..] == before[1..] + text + after;
      WrappedIsTrimmed(before[1..], text, after);
    } else if after != "" {
      assert value[|value| - 1] == after[|after| - 1];
      assert value[..|value| - 1] == before + text + after[..|after| - 1];
      WrappedIsTrimmed(before, text, after[..|after| - 1]);
    } else {
      assert value == text;
    }
  }

  lemma TrimsTo(value: string, text: string)
    requires text != "" && !IsSpace(text[0]) && !IsSpace(text[|text| - 1])
    ensures TrimSpace(value) == text <==> Wraps(value, text)
  {
    TrimmedWraps(value);
    if before, after :| Around(value, before, text, after) {
      WrappedIsTrimmed(before, text, after);
    }
  }

  /** The printed ETag of a generation. */
  function Printed(generation: nat): string {
    "\"g-" + Decimal(generation) + "\""
  }

  /** The headers ask for this precondition: exactly one of the two is there, exactly
      once, holding an asterisk or the printed ETag of a positive int64. */
  ghost predicate Asks(h: Headers, p: Precondition) {
    if p.requireAbsent then
      h.ifMatch == [] && |h.ifNoneMatch| == 1 && Wraps(h.ifNoneMatch[0], "*") && p.expectedGeneration == 0
    else
      && h.ifNoneMatch == [] && |h.ifMatch| == 1
      && 1 <= p.expectedGeneration <= 9_223_372_036_854_775_807 && Wraps(h.ifMatch[0], Printed(p.expectedGeneration))
  }

  /** Neither header is there, or both are. */
  predicate NoneOrBoth(h: Headers) {
    h.ifMatch == [] <==> h.ifNoneMatch == []
  }

  lemma PrintedTrims(value: string, generation: nat)
    ensures TrimSpace(value) == Printed(generation) <==> Wraps(value, Printed(generation))
    ensures Printed(generation) == GenerationETag(generation)
  {
    assert Printed(generation)[0] == '"' && Printed(generation)[|Printed(generation)| - 1] == '"';
    TrimsTo(value, Printed(generation));
  }

  /** A precondition is read exactly when the headers ask for it; 428 is for none or
      both, 400 for everything else. */
  lemma PreconditionExactly(h: Headers, p: Precondition)
    ensures ParseWritePrecondition(h) == Ok(p) <==> Asks(h, p)
    ensures ParseWritePrecondition(h).Err? ==>
      ParseWritePrecondition(h).error == if NoneOrBoth(h) then (428, "precondition_required") else (400, "invalid_precondition")
    ensures NoneOrBoth(h) ==> ParseWritePrecondition(h).Err?
  {
    hide GenerationETag, ParseGenerationETag, TrimSpace, Printed, Wraps;
    if |h.ifMatch| == 1 && p.expectedGeneration >= 0 {
      PrintedTrims(h.ifMatch[0], p.expectedGeneration);
      ETagRoundTrip(TrimSpace(h.ifMatch[0]), p.expectedGeneration);
    } else if |h.ifMatch| == 1 {
      ETagRoundTrip(TrimSpace(h.ifMatch[0]), p.expectedGeneration);
    }
    if |h.ifNoneMatch| == 1 {
      assert !IsSpace("*"[0]);
      TrimsTo(h.ifNoneMatch[0], "*");
    }
  }

  // ---------------------------------------------------------------- bodies

  predicate LetterOrDigit(c: char) {
    'a' <= c <= 'z' || 'A' <= c <= 'Z' || '0' <= c <= '9'
  }

  /** 1 to 128 letters, digits and `._:-`, the first a letter or digit. */
  ghost predicate ReadableKey(key: string) {
    && key != "" && |key| < 129 && LetterOrDigit(key[0])
    && forall c | c in key :: LetterOrDigit(c) || c in {'.', '_', ':', '-'}
  }

  lemma SafeIsReadable(key: string)
    ensures SafeKey(key) <==> ReadableKey(key)
  {
    assert forall i :: 0 <= i < |key| ==> key[i] in key;
  }

  /** The document shows the row: its identity, set, generation, status and lease. */
  ghost predicate Describes(state: State, row: Intent, renewAfterSeconds: int) {
    && state.deviceID == row.deviceID && state.hostname == row.hostname && state.generation == row.generation
    && state.leaseExpiresAt == row.leaseExpiresAt && state.renewAfterSeconds == renewAfterSeconds
    && (state.status.Accepted? <==> row.originApplied < row.generation && row.publicObserved < row.generation)
    && (state.status.PubliclyObserved? <==> row.publicObserved >= row.generation)
    && |state.addresses| == |Unmapped(row.addresses)|
    && (forall i :: 0 <= i < |state.addresses| ==> WellNamed(state.addresses[i]) && state.addresses[i].address.addr in Unmapped(row.addresses))
    && (forall i, j :: 0 <= i < j < |state.addresses| ==> state.addresses[i] != state.addresses[j])
  }

  lemma StateDescribes(row: Intent, renewAfterSeconds: int)
    ensures Describes(StateOf(row, renewAfterSeconds), row, renewAfterSeconds)
  {
    var c := Canonical(row.addresses);
    CanonicalForm(row.addresses);
    hide Canonical, Unmapped;
    DistinctCardinality(c);
    forall i | 0 <= i < |c| ensures WellNamed(ToWire(c)[i]) && c[i] in Elements(c) {
      UnmapIdempotent(c[i]);
    }
  }

  // ------------------------------------------------------------------ PUT

  /** Key and document are readable and acceptable. */
  ghost predicate Wellmade(h: Headers, body: Body, s: Settings) {
    ReadableKey(h.idempotencyKey) && body.Document? && Acceptable(body.addresses, s.policy)
  }

  /** A PUT that is not well made, or whose headers ask for no precondition, is refused and
      leaves the tables alone: 428 for none or both headers, 400 for everything else. */
  lemma PutRefuses(t: Tables, device: Device, h: Headers, body: Body, s: Settings, now: int, fault: Fault)
    requires Wellmade(h, body, s) ==> forall p :: !Asks(h, p)
    ensures
      var out := PutUnder(t, device, h, body, s, now, fault);
      && out.tables == t
      && out.response ==
           if !ReadableKey(h.idempotencyKey) then Failure(400, "invalid_idempotency_key")
           else if !body.Document? then Failure(400, "invalid_json")
           else if !Acceptable(body.addresses, s.policy) then Failure(400, "invalid_addresses")
           else if NoneOrBoth(h) then Failure(428, "precondition_required")
           else Failure(400, "invalid_precondition")
  {
    hide UpsertUnder, Acceptable, ParseWritePrecondition, SafeKey, ReadableKey, Answer, Asks;
    SafeIsReadable(h.idempotencyKey);
    if Wellmade(h, body, s) {
      var p := ParseWritePrecondition(h);
      PreconditionExactly(h, if p.Ok? then p.value else RequireAbsent());
    }
  }

  /** Every other PUT is the store's to decide: its tables are the store's, its reply
      shows the row the store returned, and each refusal of the store has its status. */
  lemma PutAnswers(t: Tables, device: Device, h: Headers, body: Body, s: Settings, now: int, fault: Fault, p: Precondition, seconds: int)
    requires Wellmade(h, body, s) && Asks(h, p)
    requires 0 <= s.renewAfter - seconds * 1_000_000_000 < 1_000_000_000
    ensures forall i :: 0 <= i < |body.addresses| ==> body.addresses[i].address.Text?
    ensures
      var r := UpsertRequest(device.id, device.hostname, Canonical(Parsed(body.addresses)), h.idempotencyKey, p, now, s.leaseDuration, seconds);
      var o := UpsertUnder(t, r, fault);
      var out := PutUnder(t, device, h, body, s, now, fault);
      && out.tables == o.tables
      && (o.result.Ok? ==>
            && out.response.Success? && out.response.status == 202
            && Describes(out.response.state, o.result.value.intent, o.result.value.renewAfterSeconds)
            && (o.result.value.intent.generation >= 0 ==> out.response.etag == Printed(o.result.value.intent.generation)))
      && (o.result.Err? ==>
            out.response ==
              if o.result.error.IdempotencyConflict? then Failure(409, "idempotency_conflict")
              else if o.result.error.PreconditionFailed? then Failure(412, "precondition_failed")
              else if o.result.error.PreconditionRequired? then Failure(428, "precondition_required")
              else Failure(500, "storage_error"))
  {
    hide UpsertUnder, Acceptable, ParseWritePrecondition, SafeKey, ReadableKey, Asks, Canonical, Describes, StateOf;
    SafeIsReadable(h.idempotencyKey);
    PreconditionExactly(h, p);
    AcceptableIsClean(body.addresses, s.policy);
    CleanParses(body.addresses, |body.addresses|, s.policy);
    SecondsOf(s, seconds);
    var r := UpsertRequest(device.id, device.hostname, Canonical(Parsed(body.addresses)), h.idempotencyKey, p, now, s.leaseDuration, seconds);
    var o := UpsertUnder(t, r, fault);
    assert PutUnder(t, device, h, body, s, now, fault) == Answer(o);
    if o.result.Ok? {
      StateDescribes(o.result.value.intent, o.result.value.renewAfterSeconds);
      if o.result.value.intent.generation >= 0 { PrintedTrims("", o.result.value.intent.generation); }
    }
    hide GenerationETag, Printed;
  }

  lemma SecondsOf(s: Settings, seconds: int)
    requires 0 <= s.renewAfter - seconds * 1_000_000_000 < 1_000_000_000
    ensures s.RenewAfterSeconds() == seconds
  {
  }

  /** So nothing is accepted and nothing changes without exactly one conditional header. */
  lemma OnlyConditionalPutsWrite(t: Tables, device: Device, h: Headers, body: Body, s: Settings, now: int, fault: Fault)
    requires
      var out := PutUnder(t, device, h, body, s, now, fault);
      out.response.status == 202 || out.response.Success? || out.tables != t
    ensures Wellmade(h, body, s) && exists p :: Asks(h, p)
    ensures |h.ifMatch| + |h.ifNoneMatch| == 1
  {
    hide PutUnder, Wellmade;
    if !Wellmade(h, body, s) || forall p :: !Asks(h, p) {
      PutRefuses(t, device, h, body, s, now, fault);
    }
  }

  // ------------------------------------------------------------------ GET

  /** With nobody else at work a status read answers 404 without a row and 200 otherwise,
      showing the row as it is, or emptied one generation on when its lease was over; only
      then the tables are swept. A store call that fails gives 500. */
  lemma StatusAnswers(t: Tables, device: Device, s: Settings, now: int, turn: StatusTurn, seconds: int)
    requires turn.beforeSweep == [] && turn.beforeReread == []
    requires 0 <= s.renewAfter - seconds * 1_000_000_000 < 1_000_000_000
    ensures
      var out := GetUnder(t, device, s, now, turn);
      if !turn.readOk then out == Handled(t, Failure(500, "storage_error"))
      else if device.id !in t.intents then out == Handled(t, Failure(404, "not_found"))
      else
        var row := t.intents[device.id];
        if row.addresses == [] || now < row.leaseExpiresAt then
          && out.tables == t && out.response.Success? && out.response.status == 200 && Describes(out.response.state, row, seconds)
          && (row.generation >= 0 ==> out.response.etag == Printed(row.generation))
        else if !turn.sweepOk then out == Handled(t, Failure(500, "storage_error"))
        else
          && out.tables == Expire(t, now)
          && if !turn.rereadOk then out.response == Failure(500, "storage_error")
             else
               && out.response.Success? && out.response.status == 200
               && Describes(out.response.state, row.(addresses := [], generation := row.generation + 1), seconds)
               && (row.generation >= 0 ==> out.response.etag == Printed(row.generation + 1))
  {
    hide StateOf, Describes, GenerationETag, Printed;
    SecondsOf(s, seconds);
    if device.id in t.intents {
      var row := t.intents[device.id];
      StateDescribes(row, seconds);
      StateDescribes(Lapse(row, now), seconds);
      SameDescribed(StateOf(Lapse(row, now), seconds), Lapse(row, now), row.(addresses := [], generation := row.generation + 1), seconds);
      if row.generation >= 0 {
        PrintedTrims("", row.generation);
        PrintedTrims("", row.generation + 1);
      }
    }
  }

  /** What is shown does not depend on the other fields. */
  lemma SameDescribed(state: State, a: Intent, b: Intent, seconds: int)
    requires Describes(state, a, seconds) && b == a.(updatedAt := b.updatedAt, lastError := b.lastError)
    ensures Describes(state, b, seconds)
  {
  }
}
