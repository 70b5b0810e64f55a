/** What the standard library's sort leaves in a vector. */
module Sorting {

  ghost predicate Sorted(s: seq<nat>) {
    forall i, j | 0 <= i < j < |s| :: s[i] <= s[j]
  }

  predicate StrictlySorted(s: seq<nat>) {
    forall i, j | 0 <= i < j < |s| :: s[i] < s[j]
  }

  lemma {:induction false} PrependSorted(x: nat, s: seq<nat>)
    requires Sorted(s) && forall y | y in s :: x <= y
    ensures Sorted([x] + s)
  {
    forall i, j | 0 <= i < j < |[x] + s|
      ensures ([x] + s)[i] <= ([x] + s)[j]
    {
      assert ([x] + s)[j] == s[j - 1];
      assert s[j - 1] in s;
    }
  }

  function InsertSorted(x: nat, s: seq<nat>): (r: seq<nat>)
    requires Sorted(s)
    ensures Sorted(r) && |r| == |s| + 1
    ensures multiset(r) == multiset{x} + multiset(s)
  {
    if s == [] || x <= s[0] then
      PrependSorted(x, s);
      [x] + s
    else
      var rest := InsertSorted(x, s[1..]);
      assert s == [s[0]] + s[1..];
      InsertedMembers(x, s[1..], rest);
      PrependSorted(s[0], rest);
      [s[0]] + rest
  }

  lemma InsertedMembers(x: nat, s: seq<nat>, r: seq<nat>)
    requires multiset(r) == multiset{x} + multiset(s)
    ensures forall y | y in r :: y == x || y in s
  {
    forall y | y in r
      ensures y == x || y in s
    {
      assert y in multiset(r);
    }
  }

  function Sort(s: seq<nat>): (r: seq<nat>)
    ensures Sorted(r) && |r| == |s| && multiset(r) == multiset(s)
  {
    if s == [] then []
    else
      assert s == [s[0]] + s[1..];
      InsertSorted(s[0], Sort(s[1..]))
  }

  ghost predicate Distinct(s: seq<nat>) {
    forall i, j | 0 <= i < j < |s| :: s[i] != s[j]
  }

  ghost predicate EachOnce(m: multiset<nat>) {
    forall x | x in m :: m[x] == 1
  }

  lemma {:induction false} DistinctMeansEachOnce(s: seq<nat>)
    requires Distinct(s)
    ensures EachOnce(multiset(s))
  {
    if s != [] {
      var rest := s[1..];
      DistinctMeansEachOnce(rest);
      assert s == [s[0]] + rest;
      assert multiset(s) == multiset{s[0]} + multiset(rest);
      assert s[0] !in rest && s[0] !in multiset(rest);
    }
  }

  function Elements(s: seq<nat>): set<nat> {
    set x | x in s
  }

  lemma {:induction false} DistinctSize(s: seq<nat>)
    requires Distinct(s)
    ensures |Elements(s)| == |s|
  {
    if s != [] {
      var rest := s[1..];
      DistinctSize(rest);
      assert s == [s[0]] + rest;
      assert s[0] !in rest;
      assert s[0] !in Elements(rest);
      assert Elements(s) == Elements(rest) + {s[0]};
    }
  }

  lemma {:induction false} EachOnceMeansDistinct(s: seq<nat>)
    requires EachOnce(multiset(s))
    ensures Distinct(s)
  {
    if s != [] {
      var rest := s[1..];
      assert s == [s[0]] + rest;
      assert multiset(s) == multiset{s[0]} + multiset(rest);
      assert s[0] !in rest by {
        assert multiset(s)[s[0]] == 1;
      }
      assert EachOnce(multiset(rest)) by {
        forall x | x in multiset(rest)
          ensures multiset(rest)[x] == 1
        {
          assert x in multiset(s);
        }
      }
      EachOnceMeansDistinct(rest);
      forall i, j | 0 <= i < j < |s|
        ensures s[i] != s[j]
      {
        assert s[j] == rest[j - 1];
      }
    }
  }

  /** Sorting distinct items gives a strictly sorted sequence. */
  lemma SortOfDistinct(s: seq<nat>)
    requires Distinct(s)
    ensures StrictlySorted(Sort(s))
    ensures forall x :: x in Sort(s) <==> x in s
  {
    DistinctMeansEachOnce(s);
    EachOnceMeansDistinct(Sort(s));
    assert forall x :: x in Sort(s) <==> x in multiset(Sort(s));
    assert forall x :: x in s <==> x in multiset(s);
  }

  lemma HeadIsMember(s: seq<nat>)
    ensures s != [] ==> s[0] in s
  {}

  /** A strictly sorted sequence is determined by its members. */
  lemma {:induction false} StrictlySortedIsUnique(a: seq<nat>, b: seq<nat>)
    requires StrictlySorted(a) && StrictlySorted(b)
    requires forall x :: x in a <==> x in b
    ensures a == b
  {
    if a == [] {
      HeadIsMember(b);
    } else {
      assert a[0] in b && b != [] && b[0] in a;
      assert a[0] == b[0];
      var ra, rb := a[1..], b[1..];
      forall x
        ensures x in ra <==> x in rb
      {
        assert x in ra ==> x in a && x != a[0];
        assert x in rb ==> x in b && x != b[0];
        assert x in a ==> x == a[0] || x in ra;
        assert x in b ==> x == b[0] || x in rb;
      }
      StrictlySortedIsUnique(ra, rb);
      assert a == [a[0]] + ra && b == [b[0]] + rb;
    }
  }
}
