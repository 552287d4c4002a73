/** Observing the public servers (`internal/dnswriter`): the answers are
    rendered, sorted and compared as text. */
module Observer {
  import opened Order
  import opened Results
  import opened Addresses
  import opened Names
  import opened DnsUpdate

  datatype RCode = NoError | NameError | OtherRCode

  datatype Answer = Answer(owner: Name, data: RData)

  datatype Response = Response(rcode: RCode, authoritative: bool, answers: seq<Answer>)

  /** One question: a response, or a failed (or truncated) exchange. */
  datatype Reply = Replied(response: Response) | NoReply

  /** One server's replies to the A and the AAAA question. */
  datatype ServerReplies = ServerReplies(a: Reply, aaaa: Reply)

  datatype ObserveError = NoServers | QueryFailed

  predicate Usable(r: Reply) {
    r.Replied? && (r.response.rcode.NoError? || r.response.rcode.NameError?)
  }

  /** The addresses answered for the name, in answer order. */
  function Answered(name: Name, answers: seq<Answer>): seq<Addr> {
    if answers == [] then []
    else
      var last := answers[|answers| - 1];
      var front := Answered(name, answers[..|answers| - 1]);
      if last.owner == name && (last.data.ARecord? || last.data.AAAARecord?) then front + [AddrOf(last.data)] else front
  }

  ghost predicate AnswersFor(name: Name, r: Response) {
    r.authoritative && forall k :: 0 <= k < |r.answers| ==> r.answers[k].owner == name
  }

  /** Both answers are authoritative, about this name only, and together hold
      exactly the expected addresses, counted with multiplicity. */
  ghost predicate Agrees(s: ServerReplies, name: Name, expected: seq<Addr>) {
    && Usable(s.a) && Usable(s.aaaa)
    && AnswersFor(name, s.a.response) && AnswersFor(name, s.aaaa.response)
    && multiset(Answered(name, s.a.response.answers) + Answered(name, s.aaaa.response.answers)) == multiset(UnmapAll(expected))
  }

  function UnmapAll(s: seq<Addr>): seq<Addr> {
    seq(|s|, i requires 0 <= i < |s| => Unmap(s[i]))
  }

  function Texts(s: seq<Addr>, text: Addr -> string): seq<string> {
    seq(|s|, i requires 0 <= i < |s| => text(s[i]))
  }

  ghost predicate Injective(text: Addr -> string) {
    forall a, b :: text(a) == text(b) ==> a == b
  }

  // -------------------------------------------------------- the comparison

  lemma {:induction false} TextCount(s: seq<Addr>, text: Addr -> string, a: Addr)
    requires Injective(text)
    ensures multiset(Texts(s, text))[text(a)] == multiset(s)[a]
  {
    if s == [] {
    } else {
      var front, last := s[..|s| - 1], s[|s| - 1];
      assert s == front + [last];
      assert Texts(s, text) == Texts(front, text) + [text(last)];
      TextCount(front, text, a);
    }
  }

  /** Comparing sorted texts compares the addresses as multisets. */
  lemma SortedTextsCompareMultisets(a: seq<Addr>, b: seq<Addr>, text: Addr -> string)
    requires Injective(text)
    ensures SortBy(Texts(a, text), StringLeq) == SortBy(Texts(b, text), StringLeq) <==> multiset(a) == multiset(b)
  {
    var ta, tb := Texts(a, text), Texts(b, text);
    StringOrder();
    SortBySorts(ta, StringLeq);
    SortBySorts(tb, StringLeq);
    if multiset(a) == multiset(b) {
      forall y ensures multiset(ta)[y] == multiset(tb)[y] {
        if x :| text(x) == y {
          TextCount(a, text, x);
          TextCount(b, text, x);
        } else {
          assert y !in ta && y !in tb;
        }
      }
      SortedIsUnique(SortBy(ta, StringLeq), SortBy(tb, StringLeq), StringLeq);
    }
    if SortBy(ta, StringLeq) == SortBy(tb, StringLeq) {
      forall x ensures multiset(a)[x] == multiset(b)[x] {
        TextCount(a, text, x);
        TextCount(b, text, x);
      }
    }
  }

  // ------------------------------------------------ what agreement comes to

  /** How often a record is among the answers. */
  ghost function Times(answers: seq<Answer>, data: RData): nat {
    Count(answers, (answer: Answer) => answer.data == data)
  }

  /** How often an address is expected, as itself or mapped into IPv6. */
  ghost function Wanted(expected: seq<Addr>, a: Addr): nat {
    Count(expected, (e: Addr) => e == a || (a.V4? && e == V6(0xffff_0000_0000 + a.v4)))
  }

  /** The exchange gave a response that says which records there are. */
  ghost predicate Conclusive(r: Reply) {
    r.Replied? && r.response.rcode != OtherRCode
  }

  ghost predicate Authoritative(r: Reply, name: Name) {
    && Conclusive(r) && r.response.authoritative
    && forall k :: 0 <= k < |r.response.answers| ==> r.response.answers[k].owner == name
  }

  /** An IPv4 address is in A records, an IPv6 address in AAAA records, exactly as often
      as it is expected. */
  ghost predicate HoldExactly(a: seq<Answer>, aaaa: seq<Answer>, expected: seq<Addr>) {
    && (forall x: Bits32 :: Times(a, ARecord(x)) + Times(aaaa, ARecord(x)) == Wanted(expected, V4(x)))
    && (forall x: Bits128 :: Times(a, AAAARecord(x)) + Times(aaaa, AAAARecord(x))
                             == if 0xffff_0000_0000 <= x <= 0xffff_ffff_ffff then 0 else Wanted(expected, V6(x)))
  }

  /** Both responses are usable, authoritative and about this name only, and together
      hold exactly what is expected. */
  ghost predicate Confirms(s: ServerReplies, name: Name, expected: seq<Addr>) {
    && Authoritative(s.a, name) && Authoritative(s.aaaa, name)
    && HoldExactly(s.a.response.answers, s.aaaa.response.answers, expected)
  }

  lemma {:induction false} TimesAnswered(name: Name, answers: seq<Answer>, data: RData)
    requires data.ARecord? || data.AAAARecord?
    requires forall k :: 0 <= k < |answers| ==> answers[k].owner == name
    ensures multiset(Answered(name, answers))[AddrOf(data)] == Times(answers, data)
  {
    hide Count;
    if answers == [] {
      NothingCounted(answers, (answer: Answer) => answer.data == data);
    } else {
      CountLast(answers, (answer: Answer) => answer.data == data);
      TimesAnswered(name, answers[..|answers| - 1], data);
    }
  }

  lemma {:induction false} TimesWanted(expected: seq<Addr>, a: Addr)
    ensures multiset(UnmapAll(expected))[a] == if Is4In6(a) then 0 else Wanted(expected, a)
  {
    hide Count;
    if expected == [] {
      NothingCounted(expected, (e: Addr) => e == a || (a.V4? && e == V6(0xffff_0000_0000 + a.v4)));
    } else {
      var front, last := expected[..|expected| - 1], expected[|expected| - 1];
      CountLast(expected, (e: Addr) => e == a || (a.V4? && e == V6(0xffff_0000_0000 + a.v4)));
      TimesWanted(front, a);
      assert UnmapAll(expected) == UnmapAll(front) + [Unmap(last)];
      if a.V4? { UnmapMeans(last, a.v4); }
      UnmapIdempotent(last);
      hide Unmap;
    }
  }

  /** How often an address is answered and how often it is expected. */
  lemma CountsOf(s: ServerReplies, name: Name, expected: seq<Addr>, a: Addr)
    requires Authoritative(s.a, name) && Authoritative(s.aaaa, name)
    ensures
      var data := match a case V4(x) => ARecord(x) case V6(x) => AAAARecord(x);
      && multiset(Answered(name, s.a.response.answers) + Answered(name, s.aaaa.response.answers))[a]
         == Times(s.a.response.answers, data) + Times(s.aaaa.response.answers, data)
      && multiset(UnmapAll(expected))[a] == if a.V6? && 0xffff_0000_0000 <= a.v6 <= 0xffff_ffff_ffff then 0 else Wanted(expected, a)
  {
    var data := match a case V4(x) => ARecord(x) case V6(x) => AAAARecord(x);
    TimesAnswered(name, s.a.response.answers, data);
    TimesAnswered(name, s.aaaa.response.answers, data);
    TimesWanted(expected, a);
  }

  lemma HeldIsSame(s: ServerReplies, name: Name, expected: seq<Addr>)
    requires Authoritative(s.a, name) && Authoritative(s.aaaa, name)
    requires HoldExactly(s.a.response.answers, s.aaaa.response.answers, expected)
    ensures multiset(Answered(name, s.a.response.answers) + Answered(name, s.aaaa.response.answers)) == multiset(UnmapAll(expected))
  {
    hide Answered, UnmapAll, Times, Wanted;
    var observed := Answered(name, s.a.response.answers) + Answered(name, s.aaaa.response.answers);
    forall a ensures multiset(observed)[a] == multiset(UnmapAll(expected))[a] {
      CountsOf(s, name, expected, a);
    }
  }

  lemma SameIsHeld(s: ServerReplies, name: Name, expected: seq<Addr>)
    requires Authoritative(s.a, name) && Authoritative(s.aaaa, name)
    requires multiset(Answered(name, s.a.response.answers) + Answered(name, s.aaaa.response.answers)) == multiset(UnmapAll(expected))
    ensures HoldExactly(s.a.response.answers, s.aaaa.response.answers, expected)
  {
    hide Answered, UnmapAll, Times, Wanted;
    var a, aaaa := s.a.response.answers, s.aaaa.response.answers;
    forall x: Bits32 ensures Times(a, ARecord(x)) + Times(aaaa, ARecord(x)) == Wanted(expected, V4(x)) {
      CountsOf(s, name, expected, V4(x));
    }
    forall x: Bits128
      ensures Times(a, AAAARecord(x)) + Times(aaaa, AAAARecord(x)) == if 0xffff_0000_0000 <= x <= 0xffff_ffff_ffff then 0 else Wanted(expected, V6(x))
    {
      CountsOf(s, name, expected, V6(x));
    }
  }

  /** Agreement, read off the replies' own fields. */
  lemma AgreementConfirms(s: ServerReplies, name: Name, expected: seq<Addr>)
    ensures Agrees(s, name, expected) <==> Confirms(s, name, expected)
  {
    hide Answered, UnmapAll, HoldExactly;
    if Authoritative(s.a, name) && Authoritative(s.aaaa, name) {
      if Agrees(s, name, expected) {
        SameIsHeld(s, name, expected);
      }
      if Confirms(s, name, expected) {
        HeldIsSame(s, name, expected);
      }
    }
  }

  // ------------------------------------------------------------- the loops

  method AddressStrings(addresses: seq<Addr>, text: Addr -> string) returns (values: seq<string>)
    ensures values == SortBy(Texts(UnmapAll(addresses), text), StringLeq)
  {
    values := [];
    for i := 0 to |addresses|
      invariant values == Texts(UnmapAll(addresses), text)[..i]
    {
      values := values + [text(Unmap(addresses[i]))];
    }
    assert values == Texts(UnmapAll(addresses), text);
    values := SortBy(values, StringLeq);
  }

  method EqualStrings(a: seq<string>, b: seq<string>) returns (equal: bool)
    ensures equal <==> a == b
  {
    if |a| != |b| {
      return false;
    }
    for index := 0 to |a|
      invariant a[..index] == b[..index]
    {
      if a[index] != b[index] {
        return false;
      }
    }
    assert a == a[..|a|] == b[..|b|] == b;
    return true;
  }

  /** Folds one response into the accumulated values and authority. */
  method Accumulate(response: Response, name: Name, text: Addr -> string, values: seq<string>, authoritative: bool)
    returns (values': seq<string>, authoritative': bool)
    ensures values' == values + Texts(Answered(name, response.answers), text)
    ensures authoritative' <==> authoritative && AnswersFor(name, response)
  {
    values', authoritative' := values, authoritative && response.authoritative;
    var answers := response.answers;
    for i := 0 to |answers|
      invariant values' == values + Texts(Answered(name, answers[..i]), text)
      invariant authoritative' <==> authoritative && response.authoritative && forall k :: 0 <= k < i ==> answers[k].owner == name
    {
      var answer := answers[i];
      assert answers[..i + 1][..i] == answers[..i];
      if answer.owner != name {
        authoritative' := false;
        continue;
      }
      match answer.data
      case ARecord(_) => values' := values' + [text(Unmap(AddrOf(answer.data)))];
      case AAAARecord(_) => values' := values' + [text(AddrOf(answer.data))];
      case _ =>
    }
    assert answers[..|answers|] == answers;
  }

  method Query(replies: ServerReplies, name: Name, text: Addr -> string) returns (result: Result<(seq<string>, bool), ObserveError>)
    ensures result.Ok? <==> Usable(replies.a) && Usable(replies.aaaa)
    ensures result.Ok? ==>
      && result.value.0 == SortBy(Texts(Answered(name, replies.a.response.answers) + Answered(name, replies.aaaa.response.answers), text), StringLeq)
      && (result.value.1 <==> AnswersFor(name, replies.a.response) && AnswersFor(name, replies.aaaa.response))
  {
    var values: seq<string> := [];
    var authoritative := true;
    if !Usable(replies.a) {
      return Err(QueryFailed);
    }
    values, authoritative := Accumulate(replies.a.response, name, text, values, authoritative);
    if !Usable(replies.aaaa) {
      return Err(QueryFailed);
    }
    values, authoritative := Accumulate(replies.aaaa.response, name, text, values, authoritative);
    assert values == Texts(Answered(name, replies.a.response.answers) + Answered(name, replies.aaaa.response.answers), text);
    values := SortBy(values, StringLeq);
    return Ok((values, authoritative));
  }

  /** What the query's result says about agreement. */
  lemma ComparisonDecidesAgreement(replies: ServerReplies, name: Name, expected: seq<Addr>, text: Addr -> string)
    requires Injective(text) && Usable(replies.a) && Usable(replies.aaaa)
    ensures
      var observed := Answered(name, replies.a.response.answers) + Answered(name, replies.aaaa.response.answers);
      Agrees(replies, name, expected) <==>
        && AnswersFor(name, replies.a.response) && AnswersFor(name, replies.aaaa.response)
        && SortBy(Texts(observed, text), StringLeq) == SortBy(Texts(UnmapAll(expected), text), StringLeq)
  {
    var observed := Answered(name, replies.a.response.answers) + Answered(name, replies.aaaa.response.answers);
    SortedTextsCompareMultisets(observed, UnmapAll(expected), text);
  }

  /** Whether one server agrees. */
  method AskServer(replies: ServerReplies, name: Name, ghost expected: seq<Addr>, expectedValues: seq<string>, text: Addr -> string)
    returns (result: Result<bool, ObserveError>)
    requires Injective(text) && expectedValues == SortBy(Texts(UnmapAll(expected), text), StringLeq)
    ensures result.Ok? <==> Usable(replies.a) && Usable(replies.aaaa)
    ensures result == Ok(true) <==> Agrees(replies, name, expected)
    ensures result != Err(NoServers)
  {
    var answer := Query(replies, name, text);
    if answer.Err? {
      return Err(QueryFailed);
    }
    ComparisonDecidesAgreement(replies, name, expected, text);
    var (observed, authoritative) := answer.value;
    var equal := EqualStrings(observed, expectedValues);
    return Ok(authoritative && equal);
  }

  /** Asks the servers in turn and stops at the first that fails or disagrees. */
  method ObserveAddressRRsets(servers: seq<ServerReplies>, name: Name, expected: seq<Addr>, text: Addr -> string)
    returns (result: Result<bool, ObserveError>)
    requires Injective(text)
    ensures result == Err(NoServers) <==> servers == []
    ensures result == Ok(true) <==> servers != [] && forall k :: 0 <= k < |servers| ==> Confirms(servers[k], name, expected)
    ensures servers != [] && result != Ok(true) ==>
      exists k :: 0 <= k < |servers| && (forall j :: 0 <= j < k ==> Confirms(servers[j], name, expected))
        && !Confirms(servers[k], name, expected)
        && (result.Ok? <==> Conclusive(servers[k].a) && Conclusive(servers[k].aaaa))
  {
    hide Agrees, Confirms;
    if |servers| == 0 {
      return Err(NoServers);
    }
    var expectedValues := AddressStrings(expected, text);
    for k := 0 to |servers|
      invariant forall j :: 0 <= j < k ==> Confirms(servers[j], name, expected)
    {
      var answer := AskServer(servers[k], name, expected, expectedValues, text);
      AgreementConfirms(servers[k], name, expected);
      if answer != Ok(true) {
        return answer;
      }
    }
    return Ok(true);
  }
}
