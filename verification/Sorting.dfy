/** Sorting, and the reason a sort hides the order its input arrived in. */
module Sorting {

  /** `le` is total and transitive on the elements of `s`. */
  ghost predicate OrderOn<T(!new)>(s: seq<T>, le: (T, T) -> bool) {
    && (forall x, y :: x in s && y in s ==> le(x, y) || le(y, x))
    && (forall x, y, z :: x in s && y in s && z in s && le(x, y) && le(y, z) ==> le(x, z))
  }

  ghost predicate AntisymmetricOn<T(!new)>(s: seq<T>, le: (T, T) -> bool) {
    forall x, y :: x in s && y in s && le(x, y) && le(y, x) ==> x == y
  }

  ghost predicate SortedBy<T>(s: seq<T>, le: (T, T) -> bool) {
    forall i, j :: 0 <= i < j < |s| ==> le(s[i], s[j])
  }

  /** Inserts `x` before the first element it does not come strictly after. */
  function Insert<T>(x: T, s: seq<T>, le: (T, T) -> bool): (r: seq<T>)
    ensures multiset(r) == multiset{x} + multiset(s)
    ensures |r| == |s| + 1
  {
    if s == [] || le(x, s[0]) then [x] + s
    else
      assert s == [s[0]] + s[1..];
      [s[0]] + Insert(x, s[1..], le)
  }

  /** A stable sort. */
  function SortBy<T>(s: seq<T>, le: (T, T) -> bool): (r: seq<T>)
    ensures multiset(r) == multiset(s)
    ensures |r| == |s|
  {
    if s == [] then []
    else
      assert s == [s[0]] + s[1..];
      Insert(s[0], SortBy(s[1..], le), le)
  }

  lemma SameElements<T>(s: seq<T>, t: seq<T>)
    requires multiset(s) == multiset(t)
    ensures forall x :: x in s <==> x in t
    ensures |s| == |t|
  {
    assert |s| == |multiset(s)| == |multiset(t)| == |t|;
    forall x ensures x in s <==> x in t {
      assert x in s <==> x in multiset(s);
      assert x in t <==> x in multiset(t);
    }
  }

  lemma {:induction false} InsertSorted<T(!new)>(x: T, s: seq<T>, le: (T, T) -> bool)
    requires OrderOn([x] + s, le) && SortedBy(s, le)
    ensures SortedBy(Insert(x, s, le), le)
  {
    assert forall y :: y in s ==> y in [x] + s;
    assert x in [x] + s;
    if s != [] {
      if le(x, s[0]) {
        var r := [x] + s;
        forall i, j | 0 <= i < j < |r| ensures le(r[i], r[j]) {
          if i == 0 { assert le(s[0], s[j - 1]) || j == 1; }
        }
      } else {
        var rest := Insert(x, s[1..], le);
        assert forall y :: y in [x] + s[1..] ==> y in [x] + s;
        InsertSorted(x, s[1..], le);
        SameElements(rest, [x] + s[1..]);
        forall y | y in rest ensures le(s[0], y) {
          if y != x {
            var k :| 0 <= k < |s[1..]| && s[1..][k] == y;
            assert le(s[0], s[k + 1]);
          }
        }
        var r := [s[0]] + rest;
        forall i, j | 0 <= i < j < |r| ensures le(r[i], r[j]) {
          if i == 0 { assert rest[j - 1] in rest; } else { assert le(rest[i - 1], rest[j - 1]); }
        }
      }
    }
  }

  lemma {:induction false} SortSorts<T(!new)>(s: seq<T>, le: (T, T) -> bool)
    requires OrderOn(s, le)
    ensures SortedBy(SortBy(s, le), le)
  {
    if s != [] {
      assert forall y :: y in s[1..] ==> y in s;
      SortSorts(s[1..], le);
      var rest := SortBy(s[1..], le);
      SameElements(rest, s[1..]);
      assert forall y :: y in [s[0]] + rest ==> y in s;
      InsertSorted(s[0], rest, le);
    }
  }

  /** A sorted sequence split anywhere: the front is sorted and nothing in it comes after the rest. */
  lemma SplitSorted<T(!new)>(s: seq<T>, m: nat, le: (T, T) -> bool)
    requires m <= |s| && SortedBy(s, le)
    ensures SortedBy(s[..m], le) && multiset(s[..m]) + multiset(s[m..]) == multiset(s)
    ensures forall a, b :: a in s[..m] && b in s[m..] ==> le(a, b)
  {
    assert s == s[..m] + s[m..];
    forall a, b | a in s[..m] && b in s[m..] ensures le(a, b) {
      var i :| 0 <= i < m && s[i] == a;
      var j :| 0 <= j < |s| - m && s[m..][j] == b;
      assert s[m + j] == b;
    }
  }

  lemma HeadsAgree<T(!new)>(s: seq<T>, t: seq<T>, le: (T, T) -> bool)
    requires s != [] && t != [] && s[0] in t && t[0] in s
    requires SortedBy(s, le) && SortedBy(t, le) && AntisymmetricOn(s, le)
    ensures s[0] == t[0]
  {
    var i :| 0 <= i < |t| && t[i] == s[0];
    var j :| 0 <= j < |s| && s[j] == t[0];
    if i > 0 && j > 0 {
      assert le(t[0], t[i]) && le(s[0], s[j]);
    }
  }

  lemma TailMultiset<T>(s: seq<T>)
    requires s != []
    ensures multiset(s[1..]) == multiset(s) - multiset{s[0]}
  {
    assert s == [s[0]] + s[1..];
  }

  ghost predicate Distinct<T>(s: seq<T>) { forall i, j :: 0 <= i < j < |s| ==> s[i] != s[j] }

  lemma {:induction false} DistinctMultiset<T(!new)>(s: seq<T>, t: seq<T>)
    requires Distinct(s) && Distinct(t) && forall x :: x in s <==> x in t
    ensures multiset(s) == multiset(t)
  {
    forall x ensures multiset(s)[x] == multiset(t)[x] {
      AtMostOnce(s, x);
      AtMostOnce(t, x);
    }
  }

  lemma {:induction false} AtMostOnce<T(!new)>(s: seq<T>, x: T)
    requires Distinct(s)
    ensures multiset(s)[x] == if x in s then 1 else 0
  {
    if s != [] {
      var init, last := s[..|s| - 1], s[|s| - 1];
      assert s == init + [last];
      AtMostOnce(init, x);
      if x == last { assert x !in init; }
    }
  }

  /** Two sorted arrangements of the same elements are the same sequence. */
  lemma {:induction false} SortedUnique<T(!new)>(s: seq<T>, t: seq<T>, le: (T, T) -> bool)
    requires multiset(s) == multiset(t)
    requires SortedBy(s, le) && SortedBy(t, le) && AntisymmetricOn(s, le)
    ensures s == t
  {
    SameElements(s, t);
    if s != [] {
      HeadsAgree(s, t, le);
      TailMultiset(s);
      TailMultiset(t);
      assert AntisymmetricOn(s[1..], le) by {
        assert forall y :: y in s[1..] ==> y in s;
      }
      SortedUnique(s[1..], t[1..], le);
      assert s == [s[0]] + s[1..] && t == [t[0]] + t[1..];
    }
  }

  /** Sorting erases the order of its input whenever ties are impossible. */
  lemma SortIgnoresOrder<T(!new)>(s: seq<T>, t: seq<T>, le: (T, T) -> bool)
    requires multiset(s) == multiset(t)
    requires OrderOn(s, le) && AntisymmetricOn(s, le)
    ensures SortBy(s, le) == SortBy(t, le)
  {
    SameElements(s, t);
    SameElements(s, SortBy(s, le));
    SortSorts(s, le);
    SortSorts(t, le);
    SortedUnique(SortBy(s, le), SortBy(t, le), le);
  }
}
