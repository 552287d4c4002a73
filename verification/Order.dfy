/** Total orders and sorted sequences: what `sort.Slice`, `sort.Strings` and
    `ORDER BY device_id` promise their callers. */
module Order {

  ghost predicate TotalOrder<T(!new)>(leq: (T, T) -> bool) {
    && (forall x, y :: leq(x, y) || leq(y, x))
    && (forall x, y :: leq(x, y) && leq(y, x) ==> x == y)
    && (forall x, y, z :: leq(x, y) && leq(y, z) ==> leq(x, z))
  }

  /** Byte-wise lexicographic order. */
  predicate StringLeq(a: string, b: string) {
    a == "" || (b != "" && (a[0] < b[0] || (a[0] == b[0] && StringLeq(a[1..], b[1..]))))
  }

  lemma {:induction false} StringLeqTotal(a: string, b: string)
    ensures StringLeq(a, b) || StringLeq(b, a)
    ensures StringLeq(a, b) && StringLeq(b, a) ==> a == b
  {
    if a != "" && b != "" && a[0] == b[0] {
      StringLeqTotal(a[1..], b[1..]);
      assert a == [a[0]] + a[1..] && b == [b[0]] + b[1..];
    }
  }

  lemma {:induction false} StringLeqTransitive(a: string, b: string, c: string)
    requires StringLeq(a, b) && StringLeq(b, c)
    ensures StringLeq(a, c)
  {
    if a != "" && a[0] == b[0] == c[0] {
      StringLeqTransitive(a[1..], b[1..], c[1..]);
    }
  }

  lemma StringOrder()
    ensures TotalOrder(StringLeq)
  {
    forall a, b ensures StringLeq(a, b) || StringLeq(b, a) { StringLeqTotal(a, b); }
    forall a, b | StringLeq(a, b) && StringLeq(b, a) ensures a == b { StringLeqTotal(a, b); }
    forall a, b, c | StringLeq(a, b) && StringLeq(b, c) ensures StringLeq(a, c) { StringLeqTransitive(a, b, c); }
  }

  /** One string is a prefix of the other, or the first character in which they differ decides. */
  lemma {:induction false} StringLeqDecides(common: string, a: string, b: string)
    ensures a == "" ==> StringLeq(common + a, common + b)
    ensures a != "" && b == "" ==> !StringLeq(common + a, common + b)
    ensures a != "" && b != "" && a[0] != b[0] ==> (StringLeq(common + a, common + b) <==> a[0] < b[0])
    decreases common
  {
    if common == "" {
      assert common + a == a && common + b == b;
    } else {
      assert (common + a)[1..] == common[1..] + a && (common + b)[1..] == common[1..] + b;
      StringLeqDecides(common[1..], a, b);
    }
  }

  // ---------------------------------------------------------------- sorting

  ghost predicate Sorted<T(!new)>(s: seq<T>, leq: (T, T) -> bool) {
    forall i, j :: 0 <= i < j < |s| ==> leq(s[i], s[j])
  }

  ghost predicate Distinct<T>(s: seq<T>) {
    forall i, j :: 0 <= i < j < |s| ==> s[i] != s[j]
  }

  ghost function Elements<T>(s: seq<T>): set<T> {
    set x | x in s
  }

  function Insert<T>(x: T, s: seq<T>, leq: (T, T) -> bool): seq<T> {
    if s == [] then [x]
    else if leq(x, s[0]) then [x] + s
    else [s[0]] + Insert(x, s[1..], leq)
  }

  /** The sequence a library sort leaves behind. */
  function SortBy<T>(s: seq<T>, leq: (T, T) -> bool): seq<T> {
    if s == [] then [] else Insert(s[0], SortBy(s[1..], leq), leq)
  }

  lemma SortedTail<T(!new)>(a: seq<T>, leq: (T, T) -> bool)
    requires Sorted(a, leq) && a != []
    ensures Sorted(a[1..], leq)
  {
  }

  lemma PrependSorted<T(!new)>(x: T, s: seq<T>, leq: (T, T) -> bool)
    requires TotalOrder(leq) && Sorted(s, leq) && (s != [] ==> leq(x, s[0]))
    ensures Sorted([x] + s, leq)
  {
  }

  lemma {:induction false} InsertKeepsSorted<T(!new)>(x: T, s: seq<T>, leq: (T, T) -> bool)
    requires TotalOrder(leq) && Sorted(s, leq)
    ensures Sorted(Insert(x, s, leq), leq)
    ensures multiset(Insert(x, s, leq)) == multiset{x} + multiset(s)
  {
    if s == [] {
    } else {
      assert s == [s[0]] + s[1..];
      if leq(x, s[0]) {
        PrependSorted(x, s, leq);
      } else {
        SortedTail(s, leq);
        InsertKeepsSorted(x, s[1..], leq);
        var rest := Insert(x, s[1..], leq);
        assert rest[0] in multiset(rest);
        assert rest[0] == x || rest[0] in s[1..];
        assert leq(s[0], rest[0]);
        PrependSorted(s[0], rest, leq);
      }
    }
  }

  lemma {:induction false} SortBySorts<T(!new)>(s: seq<T>, leq: (T, T) -> bool)
    requires TotalOrder(leq)
    ensures Sorted(SortBy(s, leq), leq)
    ensures multiset(SortBy(s, leq)) == multiset(s)
  {
    if s == [] {
    } else {
      assert s == [s[0]] + s[1..];
      SortBySorts(s[1..], leq);
      InsertKeepsSorted(s[0], SortBy(s[1..], leq), leq);
    }
  }

  lemma SortedHead<T(!new)>(a: seq<T>, b: seq<T>, leq: (T, T) -> bool)
    requires TotalOrder(leq) && Sorted(a, leq) && a != [] && b != [] && multiset(a) == multiset(b)
    ensures leq(a[0], b[0])
  {
    assert b[0] in multiset(a);
    var i :| 0 <= i < |a| && a[i] == b[0];
  }

  lemma TailMultiset<T>(a: seq<T>)
    requires a != []
    ensures multiset(a[1..]) == multiset(a) - multiset{a[0]}
  {
    assert a == [a[0]] + a[1..];
  }

  lemma SameHeads<T(!new)>(a: seq<T>, b: seq<T>, leq: (T, T) -> bool)
    requires TotalOrder(leq) && Sorted(a, leq) && Sorted(b, leq) && multiset(a) == multiset(b) && a != []
    ensures b != [] && a[0] == b[0] && multiset(a[1..]) == multiset(b[1..])
    ensures Sorted(a[1..], leq) && Sorted(b[1..], leq)
  {
    assert a[0] in multiset(b);
    SortedHead(a, b, leq);
    SortedHead(b, a, leq);
    TailMultiset(a);
    TailMultiset(b);
    SortedTail(a, leq);
    SortedTail(b, leq);
  }

  /** A multiset has only one sorted arrangement. */
  lemma {:induction false} SortedIsUnique<T(!new)>(a: seq<T>, b: seq<T>, leq: (T, T) -> bool)
    requires TotalOrder(leq)
    requires Sorted(a, leq) && Sorted(b, leq) && multiset(a) == multiset(b)
    ensures a == b
  {
    hide TotalOrder, Sorted;
    if a == [] {
      assert |b| == |multiset(b)| == 0;
    } else {
      SameHeads(a, b, leq);
      SortedIsUnique(a[1..], b[1..], leq);
      assert a == [a[0]] + a[1..] && b == [b[0]] + b[1..];
    }
  }

  lemma DistinctMultiset<T>(a: seq<T>, b: seq<T>)
    requires Distinct(a) && Distinct(b) && Elements(a) == Elements(b)
    ensures multiset(a) == multiset(b)
  {
    forall x ensures multiset(a)[x] == multiset(b)[x] {
      DistinctCount(a, x);
      DistinctCount(b, x);
      assert x in Elements(a) <==> x in Elements(b);
    }
  }

  lemma {:induction false} DistinctCount<T>(s: seq<T>, x: T)
    requires Distinct(s)
    ensures multiset(s)[x] == if x in s then 1 else 0
  {
    if s == [] {
    } else {
      assert s == [s[0]] + s[1..];
      DistinctCount(s[1..], x);
    }
  }

  lemma {:induction false} DistinctCardinality<T>(s: seq<T>)
    requires Distinct(s)
    ensures |Elements(s)| == |s|
  {
    if s == [] {
      assert Elements(s) == {};
    } else {
      assert s == [s[0]] + s[1..];
      assert Elements(s) == {s[0]} + Elements(s[1..]);
      assert s[0] !in s[1..];
      DistinctCardinality(s[1..]);
    }
  }

  lemma RepeatedCount<T>(s: seq<T>, i: nat, j: nat)
    requires i < j < |s|
    ensures s[i] == s[j] ==> multiset(s)[s[i]] >= 2
  {
    assert s == s[..i] + [s[i]] + s[i + 1..j] + [s[j]] + s[j + 1..];
  }

  lemma SameMultiset<T>(a: seq<T>, b: seq<T>)
    requires multiset(a) == multiset(b) && Distinct(a)
    ensures Distinct(b) && Elements(a) == Elements(b)
  {
    forall x ensures x in Elements(a) <==> x in Elements(b) {
      assert x in multiset(a) <==> x in multiset(b);
    }
    forall i, j | 0 <= i < j < |b| ensures b[i] != b[j] {
      DistinctCount(a, b[i]);
      RepeatedCount(b, i, j);
    }
  }

  /** How many positions hold an element with the property. */
  ghost function Count<T>(s: seq<T>, p: T -> bool): nat {
    |set k | 0 <= k < |s| && p(s[k])|
  }

  lemma NothingCounted<T>(s: seq<T>, p: T -> bool)
    requires s == []
    ensures Count(s, p) == 0
  {
  }

  lemma CountLast<T>(s: seq<T>, p: T -> bool)
    requires s != []
    ensures Count(s, p) == Count(s[..|s| - 1], p) + if p(s[|s| - 1]) then 1 else 0
  {
    var n := |s| - 1;
    var before, now := set k | 0 <= k < n && p(s[..n][k]), set k | 0 <= k < |s| && p(s[k]);
    assert now == before + if p(s[n]) then {n} else {};
  }

  // -------------------------------------------------- a set in sorted order

  ghost function Least<T(!new)>(s: set<T>, leq: (T, T) -> bool): (m: T)
    requires s != {} && TotalOrder(leq)
    ensures m in s && forall x | x in s :: leq(m, x)
  {
    var y :| y in s;
    if s == {y} then y
    else
      assert s - {y} != {};
      var m := Least(s - {y}, leq);
      assert forall x | x in s :: x == y || x in s - {y};
      if leq(y, m) then y else m
  }

  ghost function SortedSet<T(!new)>(s: set<T>, leq: (T, T) -> bool): (r: seq<T>)
    requires TotalOrder(leq)
    ensures Sorted(r, leq) && Distinct(r) && Elements(r) == s
  {
    if s == {} then []
    else
      var m := Least(s, leq);
      var rest := SortedSet(s - {m}, leq);
      PrependLeast(m, rest, s, leq);
      [m] + rest
  }

  lemma PrependLeast<T(!new)>(m: T, rest: seq<T>, s: set<T>, leq: (T, T) -> bool)
    requires m in s && (forall x | x in s :: leq(m, x))
    requires Sorted(rest, leq) && Distinct(rest) && Elements(rest) == s - {m}
    ensures Sorted([m] + rest, leq) && Distinct([m] + rest) && Elements([m] + rest) == s
  {
    assert forall k | 0 <= k < |rest| :: rest[k] in Elements(rest);
    forall x ensures x in Elements([m] + rest) <==> x in s {
      assert x in [m] + rest <==> x == m || x in rest;
      assert x in rest <==> x in Elements(rest);
    }
  }

  /** The sorted arrangement of a set is the only sorted duplicate-free sequence
      with those elements. */
  lemma SortedSetIsUnique<T(!new)>(r: seq<T>, leq: (T, T) -> bool)
    requires TotalOrder(leq) && Sorted(r, leq) && Distinct(r)
    ensures r == SortedSet(Elements(r), leq)
  {
    DistinctMultiset(r, SortedSet(Elements(r), leq));
    SortedIsUnique(r, SortedSet(Elements(r), leq), leq);
  }
}
