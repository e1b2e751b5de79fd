/** Counting the elements of a sequence that satisfy a predicate. */
module Counting {

  function Count<T>(s: seq<T>, p: T -> bool): (n: nat)
    ensures n <= |s|
  {
    if s == [] then 0
    else Count(s[..|s| - 1], p) + if p(s[|s| - 1]) then 1 else 0
  }

  function Positions<T>(s: seq<T>, p: T -> bool): set<nat> { set i: nat | i < |s| && p(s[i]) }

  /** A count is the number of positions that qualify. */
  lemma {:induction false} CountMeaning<T>(s: seq<T>, p: T -> bool)
    ensures Count(s, p) == |Positions(s, p)|
  {
    if s == [] {
      assert Positions(s, p) == {};
    } else {
      var n := |s| - 1;
      CountMeaning(s[..n], p);
      assert Positions(s, p) == Positions(s[..n], p) + if p(s[n]) then {n} else {};
    }
  }

  lemma {:induction false} CountAppend<T>(s: seq<T>, t: seq<T>, p: T -> bool)
    ensures Count(s + t, p) == Count(s, p) + Count(t, p)
  {
    if t == [] {
      assert s + t == s;
    } else {
      assert (s + t)[..|s + t| - 1] == s + t[..|t| - 1];
      CountAppend(s, t[..|t| - 1], p);
    }
  }

  lemma CountSnoc<T>(s: seq<T>, x: T, p: T -> bool)
    ensures Count(s + [x], p) == Count(s, p) + if p(x) then 1 else 0
  {
    assert (s + [x])[..|s|] == s;
  }

  lemma CountStep<T>(s: seq<T>, i: nat, p: T -> bool)
    requires i < |s|
    ensures Count(s[..i + 1], p) == Count(s[..i], p) + if p(s[i]) then 1 else 0
  {
    assert s[..i + 1][..i] == s[..i];
  }

  lemma CountRemove<T>(s: seq<T>, i: nat, p: T -> bool)
    requires i < |s|
    ensures Count(s, p) == Count(s[..i] + s[i + 1..], p) + if p(s[i]) then 1 else 0
  {
    assert s == s[..i + 1] + s[i + 1..];
    CountAppend(s[..i + 1], s[i + 1..], p);
    CountAppend(s[..i], s[i + 1..], p);
    CountStep(s, i, p);
  }

  lemma RemoveMultiset<T>(s: seq<T>, i: nat)
    requires i < |s|
    ensures multiset(s[..i] + s[i + 1..]) == multiset(s) - multiset{s[i]}
  {
    assert s == s[..i] + [s[i]] + s[i + 1..];
  }

  /** A count only depends on which elements occur and how often, and grows with them. */
  lemma {:induction false} CountMonotone<T>(s: seq<T>, t: seq<T>, p: T -> bool)
    requires multiset(s) <= multiset(t)
    ensures Count(s, p) <= Count(t, p)
  {
    if s != [] {
      var last := |s| - 1;
      assert s[last] in multiset(s) && s[last] in multiset(t);
      var i :| 0 <= i < |t| && t[i] == s[last];
      RemoveMultiset(t, i);
      RemoveMultiset(s, last);
      assert s[..last] + s[last + 1..] == s[..last];
      CountMonotone(s[..last], t[..i] + t[i + 1..], p);
      CountRemove(t, i, p);
    }
  }

  lemma CountPermutation<T>(s: seq<T>, t: seq<T>, p: T -> bool)
    requires multiset(s) == multiset(t)
    ensures Count(s, p) == Count(t, p)
  {
    CountMonotone(s, t, p);
    CountMonotone(t, s, p);
  }

  lemma {:induction false} CountPositive<T>(s: seq<T>, p: T -> bool)
    ensures Count(s, p) > 0 <==> exists x :: x in s && p(x)
  {
    if s != [] {
      var init, last := s[..|s| - 1], s[|s| - 1];
      assert s == init + [last];
      CountPositive(init, p);
      assert forall x :: x in s <==> x in init || x == last;
    }
  }
}
