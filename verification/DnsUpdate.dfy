/** The dynamic update that projects an address set into the zone
    (`internal/dnswriter`), read by the rules of RFC 2136. */
module DnsUpdate {
  import opened Results
  import opened Addresses
  import opened Names

  datatype RRType = A | AAAA | CNAME | OtherType(code: int)

  datatype RData = ARecord(v4: Bits32) | AAAARecord(v6: Bits128) | Alias(target: Name) | OtherData(code: int, data: string)

  function TypeOf(d: RData): RRType {
    match d
    case ARecord(_) => A
    case AAAARecord(_) => AAAA
    case Alias(_) => CNAME
    case OtherData(code, _) => OtherType(code)
  }

  datatype RR = RR(name: Name, data: RData)

  /** A zone: its resource records and their TTLs. */
  type Zone = map<RR, int>

  /** The update forms of sections 2.5.2 and 2.5.1 of RFC 2136. */
  datatype Update = DeleteRRset(name: Name, rtype: RRType) | Add(rr: RR, ttl: int)

  predicate IsOf(rr: RR, name: Name, rtype: RRType) {
    rr.name == name && TypeOf(rr.data) == rtype
  }

  predicate HasAlias(z: Zone, name: Name) {
    exists rr :: rr in z && IsOf(rr, name, CNAME)
  }

  function Without(z: Zone, name: Name, rtype: RRType): Zone {
    map rr | rr in z && !IsOf(rr, name, rtype) :: z[rr]
  }

  /** Section 3.4.2 of RFC 2136: a CNAME and any other record never share a name,
      and the record added second is ignored. */
  function Apply(z: Zone, u: Update): Zone {
    match u
    case DeleteRRset(name, rtype) => Without(z, name, rtype)
    case Add(rr, ttl) =>
      if TypeOf(rr.data) == CNAME then
        if exists r :: r in z && r.name == rr.name && TypeOf(r.data) != CNAME then z
        else Without(z, rr.name, CNAME)[rr := ttl]
      else if HasAlias(z, rr.name) then z
      else z[rr := ttl]
  }

  function ApplyAll(z: Zone, us: seq<Update>): Zone {
    if us == [] then z else Apply(ApplyAll(z, us[..|us| - 1]), us[|us| - 1])
  }

  // ------------------------------------------------------------- message

  function DataOf(a: Addr): RData {
    match a case V4(x) => ARecord(x) case V6(x) => AAAARecord(x)
  }

  function Insertion(name: Name, a: Addr, ttl: int): Update {
    Add(RR(name, DataOf(Unmap(a))), ttl)
  }

  function Replacement(name: Name, addresses: seq<Addr>, ttl: int): seq<Update> {
    [DeleteRRset(name, A), DeleteRRset(name, AAAA)]
    + seq(|addresses|, i requires 0 <= i < |addresses| => Insertion(name, addresses[i], ttl))
  }

  predicate IsAddressRecord(rr: RR, name: Name) {
    IsOf(rr, name, A) || IsOf(rr, name, AAAA)
  }

  function AddrOf(d: RData): Addr
    requires d.ARecord? || d.AAAARecord?
  {
    match d case ARecord(x) => V4(x) case AAAARecord(x) => V6(x)
  }

  /** The addresses a resolver sees at a name. */
  ghost function AddressesAt(z: Zone, name: Name): set<Addr> {
    set rr | rr in z && IsAddressRecord(rr, name) :: AddrOf(rr.data)
  }

  // -------------------------------------------------- assignment theorem

  /** The zone that differs from `z` only in the address records of `name`,
      which are exactly `s`. */
  ghost predicate Assigned(z: Zone, name: Name, s: set<Addr>, ttl: int, z': Zone) {
    && AddressesAt(z', name) == s
    && (forall rr :: rr in z' && IsAddressRecord(rr, name) ==> z'[rr] == ttl)
    && (forall rr :: !IsAddressRecord(rr, name) ==> (rr in z' <==> rr in z) && (rr in z ==> z'[rr] == z[rr]))
  }

  lemma ClearsName(z: Zone, name: Name, ttl: int)
    ensures Assigned(z, name, {}, ttl, ApplyAll(z, [DeleteRRset(name, A), DeleteRRset(name, AAAA)]))
  {
    var one := [DeleteRRset(name, A)];
    var both := [DeleteRRset(name, A), DeleteRRset(name, AAAA)];
    assert both[..1] == one && one[..0] == [];
    assert ApplyAll(z, one) == Apply(z, one[0]);
    var z' := ApplyAll(z, both);
    assert z' == Apply(Apply(z, one[0]), both[1]);
    assert forall rr :: rr in z' ==> !IsAddressRecord(rr, name);
  }

  lemma AliasKept(z: Zone, name: Name, s: set<Addr>, ttl: int, z': Zone)
    requires Assigned(z, name, s, ttl, z')
    ensures HasAlias(z', name) <==> HasAlias(z, name)
  {
  }

  lemma InsertsAddress(z: Zone, name: Name, s: set<Addr>, ttl: int, z': Zone, a: Addr)
    requires Assigned(z, name, s, ttl, z') && !HasAlias(z, name)
    ensures Assigned(z, name, s + {Unmap(a)}, ttl, Apply(z', Insertion(name, a, ttl)))
  {
  }

  /** Without an alias at the name, the update section assigns the unmapped set:
      all and only those A and AAAA records, every other record untouched. */
  lemma {:induction false} ReplacementAssigns(z: Zone, name: Name, addresses: seq<Addr>, ttl: int)
    requires !HasAlias(z, name)
    ensures Assigned(z, name, Unmapped(addresses), ttl, ApplyAll(z, Replacement(name, addresses, ttl)))
    decreases addresses
  {
    ClearsName(z, name, ttl);
    if addresses == [] {
      assert Replacement(name, addresses, ttl) == [DeleteRRset(name, A), DeleteRRset(name, AAAA)];
      assert Unmapped(addresses) == {};
    } else {
      var front, last := addresses[..|addresses| - 1], addresses[|addresses| - 1];
      var us := Replacement(name, addresses, ttl);
      assert us[..|us| - 1] == Replacement(name, front, ttl) && us[|us| - 1] == Insertion(name, last, ttl);
      ReplacementAssigns(z, name, front, ttl);
      InsertsAddress(z, name, Unmapped(front), ttl, ApplyAll(z, us[..|us| - 1]), last);
      assert Unmapped(addresses) == Unmapped(front) + {Unmap(last)} by {
        assert addresses == front + [last];
      }
    }
  }

  /** Behind an alias every addition is ignored. */
  lemma {:induction false} AliasBlocks(z: Zone, name: Name, addresses: seq<Addr>, ttl: int)
    requires HasAlias(z, name)
    ensures Assigned(z, name, {}, ttl, ApplyAll(z, Replacement(name, addresses, ttl)))
    decreases addresses
  {
    ClearsName(z, name, ttl);
    if addresses == [] {
      assert Replacement(name, addresses, ttl) == [DeleteRRset(name, A), DeleteRRset(name, AAAA)];
    } else {
      var front, last := addresses[..|addresses| - 1], addresses[|addresses| - 1];
      var us := Replacement(name, addresses, ttl);
      assert us[..|us| - 1] == Replacement(name, front, ttl) && us[|us| - 1] == Insertion(name, last, ttl);
      AliasBlocks(z, name, front, ttl);
      AliasKept(z, name, {}, ttl, ApplyAll(z, us[..|us| - 1]));
    }
  }

  /** The update refines assignment exactly when there is nothing to add or no
      alias in the way. */
  lemma UpdateRefinesAssignment(z: Zone, name: Name, addresses: seq<Addr>, ttl: int)
    ensures Assigned(z, name, Unmapped(addresses), ttl, ApplyAll(z, Replacement(name, addresses, ttl)))
       <==> addresses == [] || !HasAlias(z, name)
  {
    if !HasAlias(z, name) {
      ReplacementAssigns(z, name, addresses, ttl);
    } else {
      AliasBlocks(z, name, addresses, ttl);
      if addresses == [] {
        assert Unmapped(addresses) == {};
      } else {
        assert Unmap(addresses[0]) in Unmapped(addresses);
      }
    }
  }

  /** An assigned zone is determined by the assignment. */
  lemma AssignedIsUnique(z: Zone, name: Name, s: set<Addr>, ttl: int, z1: Zone, z2: Zone)
    requires Assigned(z, name, s, ttl, z1) && Assigned(z, name, s, ttl, z2)
    ensures z1 == z2
  {
    forall rr ensures rr in z1 <==> rr in z2 {
      if IsAddressRecord(rr, name) {
        SeenAtName(z1, rr, name);
        SeenAtName(z2, rr, name);
      }
    }
    forall rr | rr in z1 ensures z1[rr] == z2[rr] {
      if !IsAddressRecord(rr, name) { assert rr in z; }
    }
  }

  lemma SeenAtName(z: Zone, rr: RR, name: Name)
    requires IsAddressRecord(rr, name)
    ensures rr in z <==> AddrOf(rr.data) in AddressesAt(z, name)
  {
  }

  /** Sending the same update twice is sending it once. */
  lemma ReplacementIdempotent(z: Zone, name: Name, addresses: seq<Addr>, ttl: int)
    ensures
      var us := Replacement(name, addresses, ttl);
      ApplyAll(ApplyAll(z, us), us) == ApplyAll(z, us)
  {
    var us := Replacement(name, addresses, ttl);
    var once := ApplyAll(z, us);
    var s := if HasAlias(z, name) then {} else Unmapped(addresses);
    if HasAlias(z, name) {
      AliasBlocks(z, name, addresses, ttl);
      AliasKept(z, name, s, ttl, once);
      AliasBlocks(once, name, addresses, ttl);
    } else {
      ReplacementAssigns(z, name, addresses, ttl);
      AliasKept(z, name, s, ttl, once);
      ReplacementAssigns(once, name, addresses, ttl);
    }
    assert Assigned(once, name, s, ttl, once);
    AssignedIsUnique(once, name, s, ttl, once, ApplyAll(once, us));
  }

  // -------------------------------------------------------------- writer

  /** What becomes of one exchange with the primary server. */
  datatype Exchange = Acknowledged | ReplyLost | Refused

  datatype WriteError = OutsideZone | NoCredentials | ExchangeFailed

  /** The writable origin together with the writer's settings for it. */
  class Primary {
    const origin: Name
    const credentials: bool
    var zone: Zone

    constructor (origin: Name, credentials: bool, zone: Zone)
      ensures this.origin == origin && this.credentials == credentials && this.zone == zone
    {
      this.origin, this.credentials, this.zone := origin, credentials, zone;
    }

    /** The update message for a hostname inside the zone. */
    method UpdateSection(name: Name, addresses: seq<Addr>, ttl: int) returns (message: seq<Update>)
      ensures message == Replacement(name, addresses, ttl)
    {
      message := [];
      message := message + [DeleteRRset(name, A), DeleteRRset(name, AAAA)];
      for i := 0 to |addresses|
        invariant message == Replacement(name, addresses[..i], ttl)
      {
        var addr := Unmap(addresses[i]);
        ghost var before := message;
        if addr.V4? {
          message := message + [Add(RR(name, ARecord(addr.v4)), ttl)];
        } else {
          message := message + [Add(RR(name, AAAARecord(addr.v6)), ttl)];
        }
        assert message == before + [Insertion(name, addresses[i], ttl)];
      }
      assert addresses[..|addresses|] == addresses;
    }

    /** Reports success only for an acknowledged update; a lost reply has still
        changed the zone. */
    method ReplaceAddressRRsets(hostname: Name, addresses: seq<Addr>, ttl: int, exchange: Exchange)
      returns (result: Result<(), WriteError>)
      modifies this`zone
      ensures result.Ok? <==> IsSubDomain(origin, hostname) && hostname != origin && credentials && exchange.Acknowledged?
      ensures zone == if IsSubDomain(origin, hostname) && hostname != origin && credentials && !exchange.Refused?
                      then ApplyAll(old(zone), Replacement(hostname, addresses, ttl)) else old(zone)
    {
      if !IsSubDomain(origin, hostname) || hostname == origin {
        return Err(OutsideZone);
      }
      if !credentials {
        return Err(NoCredentials);
      }
      var message := UpdateSection(hostname, addresses, ttl);
      if exchange.Refused? {
        return Err(ExchangeFailed);
      }
      Commit(message);
      if exchange.ReplyLost? {
        return Err(ExchangeFailed);
      }
      return Ok(());
    }

    /** The server's side: the whole section takes effect at once. */
    method Commit(message: seq<Update>)
      modifies this`zone
      ensures zone == ApplyAll(old(zone), message)
    {
      assert message[..|message|] == message;
      for i := 0 to |message|
        invariant zone == ApplyAll(old(zone), message[..i])
      {
        assert message[..i + 1][..i] == message[..i];
        zone := Apply(zone, message[i]);
      }
    }
  }
}
