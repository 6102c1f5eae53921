// Go's byte-wise string order, slices.Sort and slices.Compact.
module Text {

  // a sorts before or at b.
  predicate Leq(a: string, b: string) {
    a == [] || (b != [] && (a[0] < b[0] || (a[0] == b[0] && Leq(a[1..], b[1..]))))
  }

  predicate Less(a: string, b: string) {
    a != b && Leq(a, b)
  }

  // The first position at which two strings differ, or the end of the shorter.
  ghost predicate FirstDifference(a: string, b: string, i: nat) {
    i <= |a| && i <= |b| && a[..i] == b[..i] && (i < |a| && i < |b| ==> a[i] != b[i])
  }

  /** The order is the lexicographic one: the first difference decides, and a prefix comes first. */
  lemma {:induction false} LeqIsLexicographic(a: string, b: string, i: nat)
    requires FirstDifference(a, b, i)
    ensures Leq(a, b) <==> i == |a| || (i < |b| && a[i] < b[i])
    decreases i
  {
    if i > 0 {
      assert a[0] == a[..i][0] && b[0] == b[..i][0];
      assert a[1..][..i - 1] == a[..i][1..] && b[1..][..i - 1] == b[..i][1..];
      LeqIsLexicographic(a[1..], b[1..], i - 1);
    }
  }

  lemma {:induction false} LeqTotal(a: string, b: string)
    ensures Leq(a, b) || Leq(b, a)
    ensures Leq(a, b) && Leq(b, a) ==> a == b
    ensures a == b ==> Leq(a, b)
  {
    if a != [] && b != [] && a[0] == b[0] {
      LeqTotal(a[1..], b[1..]);
      assert a == [a[0]] + a[1..] && b == [b[0]] + b[1..];
    }
  }

  lemma {:induction false} LeqTransitive(a: string, b: string, c: string)
    requires Leq(a, b) && Leq(b, c)
    ensures Leq(a, c)
  {
    if a != [] && a[0] == b[0] && b[0] == c[0] {
      LeqTransitive(a[1..], b[1..], c[1..]);
    }
  }

  lemma {:induction false} LessTransitive(a: string, b: string, c: string)
    requires Less(a, b) && Leq(b, c)
    ensures Less(a, c)
  {
    LeqTransitive(a, b, c);
    LeqTotal(a, b);
  }

  // ----- sorting -----

  ghost predicate Sorted(s: seq<string>) {
    forall i, j :: 0 <= i < j < |s| ==> Leq(s[i], s[j])
  }

  // Sorted without repetition: the canonical listing of a set.
  ghost predicate Canonical(s: seq<string>) {
    forall i, j :: 0 <= i < j < |s| ==> Less(s[i], s[j])
  }

  ghost function Elements(s: seq<string>): set<string> {
    set x | x in s
  }

  lemma NoElements(s: seq<string>)
    ensures s == [] <==> Elements(s) == {}
  {
    if s != [] { assert s[0] in Elements(s); }
  }

  function Insert(x: string, s: seq<string>): (r: seq<string>)
    requires Sorted(s)
    ensures Sorted(r) && multiset(r) == multiset(s) + multiset{x}
  {
    if s == [] then [x]
    else if Leq(x, s[0]) then
      assert Sorted([x] + s) by { InsertFront(x, s); }
      [x] + s
    else
      var r := Insert(x, s[1..]);
      assert Sorted([s[0]] + r) by { LeqTotal(x, s[0]); InsertBehind(x, s, r); }
      assert multiset([s[0]] + r) == multiset(s) + multiset{x} by { assert s == [s[0]] + s[1..]; }
      [s[0]] + r
  }

  lemma {:induction false} InsertFront(x: string, s: seq<string>)
    requires Sorted(s) && s != [] && Leq(x, s[0])
    ensures Sorted([x] + s)
  {
    forall j | 0 <= j < |s|
      ensures Leq(x, s[j])
    {
      if j > 0 { LeqTransitive(x, s[0], s[j]); }
    }
  }

  lemma {:induction false} InsertBehind(x: string, s: seq<string>, r: seq<string>)
    requires Sorted(s) && s != [] && Leq(s[0], x) && Sorted(r) && multiset(r) == multiset(s[1..]) + multiset{x}
    ensures Sorted([s[0]] + r)
  {
    forall j | 0 <= j < |r|
      ensures Leq(s[0], r[j])
    {
      assert r[j] in multiset(r);
      if r[j] != x { assert r[j] in s[1..]; }
    }
  }

  /** slices.Sort */
  function Sort(s: seq<string>): (r: seq<string>)
    ensures Sorted(r) && multiset(r) == multiset(s)
  {
    if s == [] then [] else
      assert s == [s[0]] + s[1..];
      Insert(s[0], Sort(s[1..]))
  }

  /** slices.Compact, on a sorted slice */
  function Compact(s: seq<string>): (r: seq<string>)
    requires Sorted(s)
    ensures Canonical(r) && Elements(r) == Elements(s)
    ensures s != [] ==> r != [] && r[0] == s[0]
  {
    if |s| <= 1 then s
    else
      var rest := Compact(s[1..]);
      assert s == [s[0]] + s[1..];
      if s[0] == s[1] then
        rest
      else
        assert Canonical([s[0]] + rest) by { CompactFront(s, rest); }
        assert Elements([s[0]] + rest) == {s[0]} + Elements(rest);
        assert Elements(s) == {s[0]} + Elements(s[1..]);
        [s[0]] + rest
  }

  lemma CompactFront(s: seq<string>, rest: seq<string>)
    requires Sorted(s) && |s| > 1 && s[0] != s[1]
    requires Canonical(rest) && Elements(rest) == Elements(s[1..])
    ensures Canonical([s[0]] + rest)
  {
    forall j | 0 <= j < |rest|
      ensures Less(s[0], rest[j])
    {
      assert rest[j] in Elements(s[1..]);
      var k :| 1 <= k < |s| && s[k] == rest[j];
      if k > 1 { LessTransitive(s[0], s[1], s[k]); }
    }
  }

  // A set has one canonical listing.
  lemma {:induction false} CanonicalUnique(a: seq<string>, b: seq<string>)
    requires Canonical(a) && Canonical(b) && Elements(a) == Elements(b)
    ensures a == b
  {
    assert a != [] ==> a[0] in Elements(b);
    assert b != [] ==> b[0] in Elements(a);
    if a != [] && b != [] {
      assert a[0] in Elements(b) && b[0] in Elements(a);
      FirstIsLeast(a, b[0]);
      FirstIsLeast(b, a[0]);
      LeqTotal(a[0], b[0]);
      TailElements(a);
      TailElements(b);
      CanonicalUnique(a[1..], b[1..]);
      assert a == [a[0]] + a[1..] && b == [b[0]] + b[1..];
    }
  }

  lemma {:induction false} FirstIsLeast(a: seq<string>, x: string)
    requires Canonical(a) && x in a
    ensures Leq(a[0], x)
  {
    LeqTotal(x, x);
  }

  lemma TailElements(a: seq<string>)
    requires Canonical(a) && a != []
    ensures Canonical(a[1..]) && Elements(a[1..]) == Elements(a) - {a[0]}
  {
    assert a == [a[0]] + a[1..];
  }

  // The sorted, duplicate-free listing of s's elements.
  function SortedSet(s: seq<string>): (r: seq<string>)
    ensures Canonical(r) && Elements(r) == Elements(s)
  {
    SameElements(Sort(s), s);
    Compact(Sort(s))
  }

  lemma SameElements(a: seq<string>, b: seq<string>)
    requires multiset(a) == multiset(b)
    ensures Elements(a) == Elements(b)
  {
    forall x
      ensures x in a <==> x in b
    {
      assert x in a <==> x in multiset(a);
      assert x in b <==> x in multiset(b);
    }
  }

  // The listing depends on the set alone, so it forgets order and repetition.
  lemma SortedSetOfSet(a: seq<string>, b: seq<string>)
    requires Elements(a) == Elements(b)
    ensures SortedSet(a) == SortedSet(b)
  {
    CanonicalUnique(SortedSet(a), SortedSet(b));
  }

  // r lists the set s in order, each element once.
  ghost predicate IsListing(r: seq<string>, s: set<string>) {
    Canonical(r) && Elements(r) == s
  }

  lemma OccursTwice(r: seq<string>, i: nat, j: nat)
    requires i < j < |r| && r[i] == r[j]
    ensures multiset(r)[r[i]] >= 2
  {
    assert r == r[..i] + [r[i]] + r[i + 1..j] + [r[j]] + r[j + 1..];
  }

  lemma SortedDistinct(r: seq<string>)
    requires Sorted(r) && forall x :: multiset(r)[x] <= 1
    ensures Canonical(r)
  {
    forall i, j | 0 <= i < j < |r|
      ensures Less(r[i], r[j])
    {
      if r[i] == r[j] { OccursTwice(r, i, j); }
    }
  }

  // Listing a set's elements in any order and sorting gives its listing.
  lemma {:induction false} SortListsSet(keys: seq<string>, s: set<string>)
    requires multiset(keys) == multiset(s)
    ensures IsListing(Sort(keys), s)
  {
    var r := Sort(keys);
    SortedDistinct(r);
    forall x
      ensures x in Elements(r) <==> x in s
    {
      assert x in r <==> x in multiset(r);
    }
  }

  ghost function SomeOrder(s: set<string>): (keys: seq<string>)
    ensures multiset(keys) == multiset(s)
  {
    if s == {} then [] else var x :| x in s; [x] + SomeOrder(s - {x})
  }

  // The listing of a set.
  ghost function Listing(s: set<string>): (r: seq<string>)
    ensures IsListing(r, s)
  {
    SortListsSet(SomeOrder(s), s);
    Sort(SomeOrder(s))
  }

  // ----- searching and joining -----

  lemma Associative(a: string, b: string, c: string)
    ensures (a + b) + c == a + (b + c)
  {
  }

  // Position of the first c in s, or |s|.
  function Find(s: string, c: char): (k: nat)
    ensures k <= |s| && c !in s[..k] && (k < |s| ==> s[k] == c)
  {
    if s == [] || s[0] == c then 0 else
      var k := 1 + Find(s[1..], c);
      assert s[..k] == [s[0]] + s[1..][..k - 1];
      k
  }

  lemma {:induction false} FindFirst(a: string, c: char, rest: string)
    requires c !in a
    ensures Find(a + [c] + rest, c) == |a|
    ensures (a + [c] + rest)[..|a|] == a && (a + [c] + rest)[|a| + 1..] == rest
  {
    if a != [] {
      var s := a + [c] + rest;
      assert s[1..] == a[1..] + [c] + rest;
      assert s[0] == a[0] && a[0] in a;
      FindFirst(a[1..], c, rest);
    }
  }
}
