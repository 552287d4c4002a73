/** The wire form of an address set (`internal/api/types.go`) and the
    controller's validation of it. */
module Wire {
  import opened Order
  import opened Results
  import opened Addresses

  /** What `netip.ParseAddr` makes of a JSON string. */
  datatype AddressText = Text(addr: Addr) | NotAnAddress(text: string)

  datatype WireAddress = WireAddress(family: string, address: AddressText)

  const MAX_ADDRESSES: nat := 32

  /** The routability policy: the `allowNonGlobalAddresses` switch and the prefix table. */
  datatype Policy = Policy(allowNonGlobal: bool, routable: Addr -> bool) {
    predicate Admits(a: Addr) {
      allowNonGlobal || routable(a)
    }
  }

  datatype AddressError = NoAddresses | TooManyAddresses | NotCanonicalAddress | FamilyMismatch | NotRoutable | Duplicated

  function Family(a: Addr): string {
    if a.V4? then "ipv4" else "ipv6"
  }

  ghost function ToWire(s: seq<Addr>): seq<WireAddress> {
    seq(|s|, i requires 0 <= i < |s| => WireAddress(Family(s[i]), Text(s[i])))
  }

  method AddressesFromNetIP(addresses: seq<Addr>) returns (result: seq<WireAddress>)
    ensures result == ToWire(Canonical(addresses))
  {
    var canonical := CanonicalAddresses(addresses);
    result := [];
    for i := 0 to |canonical|
      invariant result == ToWire(canonical)[..i]
    {
      var addr := canonical[i];
      var family := "ipv6";
      if addr.V4? {
        family := "ipv4";
      }
      result := result + [WireAddress(family, Text(addr))];
    }
  }

  // ---------------------------------------------------------- validation

  /** Why item `i` is refused, given the items before it. */
  ghost function ItemProblem(input: seq<WireAddress>, i: nat, policy: Policy): Option<AddressError>
    requires i < |input|
  {
    var item := input[i];
    if item.address.NotAnAddress? || Is4In6(item.address.addr) then Some(NotCanonicalAddress)
    else if item.family != Family(item.address.addr) then Some(FamilyMismatch)
    else if !policy.Admits(item.address.addr) then Some(NotRoutable)
    else if exists j :: 0 <= j < i && input[j].address == item.address then Some(Duplicated)
    else None
  }

  ghost predicate CleanUpTo(input: seq<WireAddress>, n: nat, policy: Policy)
    requires n <= |input|
  {
    forall i: nat :: i < n ==> ItemProblem(input, i, policy).None?
  }

  ghost function Parsed(input: seq<WireAddress>): seq<Addr>
    requires forall i :: 0 <= i < |input| ==> input[i].address.Text?
  {
    seq(|input|, i requires 0 <= i < |input| => input[i].address.addr)
  }

  ghost predicate Acceptable(input: seq<WireAddress>, policy: Policy) {
    1 <= |input| <= MAX_ADDRESSES && CleanUpTo(input, |input|, policy)
  }

  lemma CleanParses(input: seq<WireAddress>, n: nat, policy: Policy)
    requires n <= |input| && CleanUpTo(input, n, policy)
    ensures forall i :: 0 <= i < n ==> input[i].address.Text?
  {
    forall i | 0 <= i < n ensures input[i].address.Text? {
      assert ItemProblem(input, i, policy).None?;
    }
  }

  /** Whether the text is a canonical address, named by its own family. */
  ghost predicate WellNamed(item: WireAddress) {
    item.address.Text? &&
      match item.address.addr
      case V4(_) => item.family == "ipv4"
      case V6(x) => item.family == "ipv6" && !(0xffff_0000_0000 <= x <= 0xffff_ffff_ffff)
  }

  /** What is accepted, item by item: 1 to 32 canonical addresses, each under its own
      family and admitted, no two the same. */
  lemma AcceptableExactly(input: seq<WireAddress>, policy: Policy)
    ensures Acceptable(input, policy) <==>
      && 1 <= |input| <= 32
      && (forall i :: 0 <= i < |input| ==> WellNamed(input[i]) && (policy.allowNonGlobal || policy.routable(input[i].address.addr)))
      && (forall i, j :: 0 <= i < j < |input| ==> input[i].address != input[j].address)
  {
    if Acceptable(input, policy) {
      forall i | 0 <= i < |input| ensures WellNamed(input[i]) && policy.Admits(input[i].address.addr) {
        assert ItemProblem(input, i, policy).None?;
      }
      forall i, j | 0 <= i < j < |input| ensures input[i].address != input[j].address {
        assert ItemProblem(input, j, policy).None?;
      }
    }
  }

  /** The reason given for an item is true of it, and the reasons looked for earlier are not. */
  lemma ProblemIsTrue(input: seq<WireAddress>, i: nat, policy: Policy)
    requires i < |input| && ItemProblem(input, i, policy).Some?
    ensures
      var item := input[i];
      var address := item.address.Text? && !(item.address.addr.V6? && 0xffff_0000_0000 <= item.address.addr.v6 <= 0xffff_ffff_ffff);
      match ItemProblem(input, i, policy).value
      case NotCanonicalAddress => !address
      case FamilyMismatch => address && !WellNamed(item)
      case NotRoutable => WellNamed(item) && !policy.allowNonGlobal && !policy.routable(item.address.addr)
      case Duplicated => WellNamed(item) && exists j :: 0 <= j < i && input[j].address == item.address
      case _ => false
  {
  }

  /** Accepts exactly the acceptable documents, and reports the first problem
      of the others. */
  method ValidateAddresses(input: seq<WireAddress>, policy: Policy) returns (result: Result<seq<Addr>, AddressError>)
    ensures result.Ok? <==> Acceptable(input, policy)
    ensures result.Ok? ==>
      && (forall i :: 0 <= i < |input| ==> input[i].address.Text?)
      && result.value == Canonical(Parsed(input)) && |result.value| > 0
    ensures result.Err? ==>
      || (|input| == 0 && result.error == NoAddresses)
      || (|input| > MAX_ADDRESSES && result.error == TooManyAddresses)
      || (exists i: nat :: i < |input| && CleanUpTo(input, i, policy) && ItemProblem(input, i, policy) == Some(result.error))
  {
    if |input| == 0 {
      return Err(NoAddresses);
    }
    if |input| > MAX_ADDRESSES {
      return Err(TooManyAddresses);
    }
    var addresses: seq<Addr> := [];
    var seen: set<Addr> := {};
    for i := 0 to |input|
      invariant CleanUpTo(input, i, policy)
      invariant |addresses| == i
      invariant forall j :: 0 <= j < i ==> input[j].address == Text(addresses[j])
      invariant seen == Elements(addresses)
    {
      var item := input[i];
      if item.address.NotAnAddress? || Is4In6(item.address.addr) {
        assert ItemProblem(input, i, policy) == Some(NotCanonicalAddress);
        return Err(NotCanonicalAddress);
      }
      var addr := item.address.addr;
      var expectedFamily := "ipv6";
      if addr.V4? {
        expectedFamily := "ipv4";
      }
      if item.family != expectedFamily {
        assert ItemProblem(input, i, policy) == Some(FamilyMismatch);
        return Err(FamilyMismatch);
      }
      if !policy.Admits(addr) {
        assert ItemProblem(input, i, policy) == Some(NotRoutable);
        return Err(NotRoutable);
      }
      assert addr in seen <==> exists j :: 0 <= j < i && input[j].address == item.address by {
        assert addr in seen <==> addr in addresses;
      }
      if addr in seen {
        assert ItemProblem(input, i, policy) == Some(Duplicated);
        return Err(Duplicated);
      }
      seen := seen + {addr};
      addresses := addresses + [addr];
      assert ItemProblem(input, i, policy).None?;
    }
    assert addresses == Parsed(input);
    CanonicalEmpty(addresses);
    var canonical := CanonicalAddresses(addresses);
    return Ok(canonical);
  }

  /** The document an agent builds is accepted exactly when its canonical set is
      non-empty, fits, and is routable. */
  lemma AgentDocumentAccepted(addresses: seq<Addr>, policy: Policy)
    ensures Acceptable(ToWire(Canonical(addresses)), policy)
       <==> 1 <= |Canonical(addresses)| <= MAX_ADDRESSES && forall a | a in Canonical(addresses) :: policy.Admits(a)
  {
    var c := Canonical(addresses);
    var w := ToWire(c);
    CanonicalForm(addresses);
    forall i: nat | i < |w| ensures ItemProblem(w, i, policy).None? <==> policy.Admits(c[i]) {
      assert Unmap(c[i]) == c[i];
      UnmapIdempotent(c[i]);
      assert forall j :: 0 <= j < i ==> c[j] != c[i];
    }
    if CleanUpTo(w, |w|, policy) {
      forall a | a in c ensures policy.Admits(a) {
        var i :| 0 <= i < |c| && c[i] == a;
        assert ItemProblem(w, i, policy).None?;
      }
    }
  }

  /** ... and then it reads back as the agent's own canonical list. */
  lemma WireRoundTrip(addresses: seq<Addr>)
    ensures Parsed(ToWire(Canonical(addresses))) == Canonical(addresses)
    ensures Canonical(Parsed(ToWire(Canonical(addresses)))) == Canonical(addresses)
  {
    CanonicalIdempotent(addresses);
    assert Parsed(ToWire(Canonical(addresses))) == Canonical(addresses);
  }
}
