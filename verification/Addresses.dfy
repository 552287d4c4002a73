/** IP addresses and their canonical sets (`internal/model`). */
module Addresses {
  import opened Order

  const TWO32: int := 0x1_0000_0000

  type Bits32 = x: int | 0 <= x < 0x1_0000_0000
  type Bits128 = x: int | 0 <= x < 0x1_0000_0000_0000_0000_0000_0000_0000_0000

  /** A valid address without a zone. */
  datatype Addr = V4(v4: Bits32) | V6(v6: Bits128)

  /** The IPv4-mapped range ::ffff:0:0/96. */
  predicate Is4In6(a: Addr) {
    a.V6? && a.v6 / TWO32 == 0xffff
  }

  function Unmap(a: Addr): Addr {
    if Is4In6(a) then V4(a.v6 % TWO32) else a
  }

  /** `netip.Addr.Compare`: shorter addresses first, then by value. */
  predicate AddrLeq(a: Addr, b: Addr) {
    match (a, b)
    case (V4(x), V4(y)) => x <= y
    case (V4(_), V6(_)) => true
    case (V6(_), V4(_)) => false
    case (V6(x), V6(y)) => x <= y
  }

  lemma AddrOrder()
    ensures TotalOrder(AddrLeq)
  {
  }

  ghost function Unmapped(s: seq<Addr>): set<Addr> {
    set a | a in s :: Unmap(a)
  }

  /** The sorted, duplicate-free list of the unmapped members. */
  ghost function Canonical(s: seq<Addr>): seq<Addr> {
    AddrOrder();
    SortedSet(Unmapped(s), AddrLeq)
  }

  ghost predicate IsCanonical(s: seq<Addr>) {
    s == Canonical(s)
  }

  lemma UnmapIdempotent(a: Addr)
    ensures Unmap(Unmap(a)) == Unmap(a) && !Is4In6(Unmap(a))
  {
  }

  /** A mapped address ::ffff:0:0 + x stands for the IPv4 address x, every other for itself. */
  lemma UnmapMeans(a: Addr, x: Bits32)
    ensures Unmap(a) == V4(x) <==> a == V4(x) || a == V6(0xffff_0000_0000 + x)
    ensures Unmap(a).V6? ==> Unmap(a) == a && !(0xffff_0000_0000 <= a.v6 <= 0xffff_ffff_ffff)
  {
  }

  lemma CanonicalForm(s: seq<Addr>)
    ensures Sorted(Canonical(s), AddrLeq) && Distinct(Canonical(s))
    ensures Elements(Canonical(s)) == Unmapped(s)
    ensures forall a | a in Canonical(s) :: Unmap(a) == a
  {
  }

  /** The IPv4 addresses come first, each family in ascending numeric order. */
  lemma CanonicalAscends(s: seq<Addr>, i: nat, j: nat)
    requires i < j < |Canonical(s)|
    ensures
      var a, b := Canonical(s)[i], Canonical(s)[j];
      (a.V4? && b.V6?) || (a.V4? && b.V4? && a.v4 < b.v4) || (a.V6? && b.V6? && a.v6 < b.v6)
  {
    CanonicalForm(s);
    hide Canonical;
  }

  /** Canonicalising a second time changes nothing. */
  lemma CanonicalIdempotent(s: seq<Addr>)
    ensures Canonical(Canonical(s)) == Canonical(s)
  {
    CanonicalForm(s);
    var c := Canonical(s);
    forall a ensures a in Unmapped(c) <==> a in Unmapped(s) {
      assert a in Elements(c) <==> a in c;
    }
    assert Unmapped(c) == Unmapped(s);
  }

  /** Two lists have the same canonical form exactly when they name the same
      set of unmapped addresses. */
  lemma CanonicalDecidesSetEquality(s: seq<Addr>, t: seq<Addr>)
    ensures Canonical(s) == Canonical(t) <==> Unmapped(s) == Unmapped(t)
  {
  }

  lemma CanonicalEmpty(s: seq<Addr>)
    ensures Canonical(s) == [] <==> s == []
  {
    CanonicalForm(s);
    if s != [] {
      assert Unmap(s[0]) in Unmapped(s);
      assert Elements<Addr>([]) == {};
    } else {
      assert Unmapped(s) == {};
    }
  }

  /** SHA-256 of the JSON list of the canonical members, taken as injective. */
  datatype Digest = Digest(canonical: seq<Addr>)

  ghost function Hash(s: seq<Addr>): Digest {
    Digest(Canonical(s))
  }

  // ----------------------------------------------------------- the loops

  method CanonicalAddresses(input: seq<Addr>) returns (out: seq<Addr>)
    ensures out == Canonical(input)
  {
    out := [];
    var seen: set<Addr> := {};
    for i := 0 to |input|
      invariant Distinct(out)
      invariant seen == Elements(out) == Unmapped(input[..i])
    {
      var addr := Unmap(input[i]);
      assert Unmapped(input[..i + 1]) == Unmapped(input[..i]) + {addr} by {
        assert input[..i + 1] == input[..i] + [input[i]];
      }
      if addr in seen {
        continue;
      }
      seen := seen + {addr};
      assert forall k | 0 <= k < |out| :: out[k] in Elements(out);
      out := out + [addr];
    }
    assert input[..|input|] == input;
    ghost var unsorted := out;
    out := SortBy(out, AddrLeq);
    AddrOrder();
    SortBySorts(unsorted, AddrLeq);
    SameMultiset(unsorted, out);
    SortedSetIsUnique(out, AddrLeq);
  }

  method AddressesEqual(a: seq<Addr>, b: seq<Addr>) returns (equal: bool)
    ensures equal <==> Unmapped(a) == Unmapped(b)
  {
    var ca := CanonicalAddresses(a);
    var cb := CanonicalAddresses(b);
    equal := |ca| == |cb|;
    if equal {
      for index := 0 to |ca|
        invariant equal && ca[..index] == cb[..index]
      {
        if ca[index] != cb[index] {
          equal := false;
          break;
        }
      }
    }
    assert equal <==> ca == cb by {
      assert ca == ca[..|ca|] && cb == cb[..|cb|];
    }
    CanonicalDecidesSetEquality(a, b);
  }

  method AddressesHash(addresses: seq<Addr>) returns (hash: Digest)
    ensures hash == Hash(addresses)
  {
    var canonical := CanonicalAddresses(addresses);
    hash := Digest(canonical);
  }
}
