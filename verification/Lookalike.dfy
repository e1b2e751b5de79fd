/** The best lookalike of an address among a set of legitimate ones. */
module Lookalike {
  import opened Text
  import opened Transfers

  datatype MatchRule = MatchRule(prefixMin: int, suffixMin: int, singleSideMin: int)

  function PrefixLen(a: string, b: string): (n: nat)
    ensures n <= |a| && n <= |b|
  {
    if a != [] && b != [] && a[0] == b[0] then 1 + PrefixLen(a[1..], b[1..]) else 0
  }

  function SuffixLen(a: string, b: string): (n: nat)
    ensures n <= |a| && n <= |b|
  {
    if a != [] && b != [] && a[|a| - 1] == b[|b| - 1] then 1 + SuffixLen(a[..|a| - 1], b[..|b| - 1]) else 0
  }

  /** A common prefix is one no longer than the length found. */
  lemma {:induction false} PrefixIsLongest(a: string, b: string, n: nat)
    requires n <= |a| && n <= |b|
    ensures a[..n] == b[..n] <==> n <= PrefixLen(a, b)
  {
    if n > 0 {
      assert a[..n] == [a[0]] + a[1..][..n - 1] && b[..n] == [b[0]] + b[1..][..n - 1];
      PrefixIsLongest(a[1..], b[1..], n - 1);
    }
  }

  lemma {:induction false} SuffixIsLongest(a: string, b: string, n: nat)
    requires n <= |a| && n <= |b|
    ensures a[|a| - n..] == b[|b| - n..] <==> n <= SuffixLen(a, b)
  {
    if n > 0 {
      var c, d := a[..|a| - 1], b[..|b| - 1];
      assert a[|a| - n..] == c[|c| - (n - 1)..] + [a[|a| - 1]] && b[|b| - n..] == d[|d| - (n - 1)..] + [b[|b| - 1]];
      SuffixIsLongest(c, d, n - 1);
    }
  }

  method CommonPrefixLength(a: string, b: string) returns (n: nat)
    ensures n == PrefixLen(a, b)
  {
    var limit := |a|;
    if |b| < limit { limit := |b|; }
    n := 0;
    while n < limit
      invariant 0 <= n <= limit && PrefixLen(a, b) == n + PrefixLen(a[n..], b[n..])
    {
      if a[n] != b[n] { break; }
      assert a[n..][1..] == a[n + 1..] && b[n..][1..] == b[n + 1..];
      n := n + 1;
    }
  }

  method CommonSuffixLength(a: string, b: string) returns (n: nat)
    ensures n == SuffixLen(a, b)
  {
    var i, j := |a| - 1, |b| - 1;
    n := 0;
    assert a[..i + 1] == a && b[..j + 1] == b;
    while i >= 0 && j >= 0
      invariant -1 <= i < |a| && -1 <= j < |b|
      invariant SuffixLen(a, b) == n + SuffixLen(a[..i + 1], b[..j + 1])
    {
      if a[i] != b[j] { break; }
      assert a[..i + 1][..i] == a[..i] && b[..j + 1][..j] == b[..j];
      n, i, j := n + 1, i - 1, j - 1;
    }
  }

  predicate PassesThreshold(prefix: int, suffix: int, rule: MatchRule) {
    (prefix >= rule.prefixMin && suffix >= rule.suffixMin) || prefix >= rule.singleSideMin || suffix >= rule.singleSideMin
  }

  /** The two strings agree on their first `n` characters; nothing is asked for if `n` is not positive. */
  predicate ShareStart(a: string, c: string, n: int) { n <= 0 || (n <= |a| && n <= |c| && a[..n] == c[..n]) }

  predicate ShareEnd(a: string, c: string, n: int) { n <= 0 || (n <= |a| && n <= |c| && a[|a| - n..] == c[|c| - n..]) }

  /** Two addresses that a reader of their ends may take for each other. */
  predicate Resembles(a: Address, c: Address, rule: MatchRule) {
    || (ShareStart(a, c, rule.prefixMin) && ShareEnd(a, c, rule.suffixMin))
    || ShareStart(a, c, rule.singleSideMin)
    || ShareEnd(a, c, rule.singleSideMin)
  }

  lemma LongEnough(a: string, c: string, n: int)
    ensures PrefixLen(a, c) >= n <==> ShareStart(a, c, n)
    ensures SuffixLen(a, c) >= n <==> ShareEnd(a, c, n)
  {
    if 0 <= n <= |a| && n <= |c| {
      PrefixIsLongest(a, c, n);
      SuffixIsLongest(a, c, n);
    }
  }

  /** The thresholds on the two lengths ask for exactly that. */
  lemma ThresholdMeaning(a: Address, c: Address, rule: MatchRule)
    ensures PassesThreshold(PrefixLen(a, c), SuffixLen(a, c), rule) <==> Resembles(a, c, rule)
  {
    LongEnough(a, c, rule.prefixMin);
    LongEnough(a, c, rule.suffixMin);
    LongEnough(a, c, rule.singleSideMin);
    hide ShareStart, ShareEnd, PrefixLen, SuffixLen;
  }

  function Score(a: Address, c: Address): nat { PrefixLen(a, c) + SuffixLen(a, c) }

  /** The two strings agree on their first `n` characters and no more. */
  predicate SharedStart(a: string, c: string, n: nat) {
    n <= |a| && n <= |c| && a[..n] == c[..n] && (n < |a| && n < |c| ==> a[n] != c[n])
  }

  predicate SharedEnd(a: string, c: string, n: nat) {
    n <= |a| && n <= |c| && a[|a| - n..] == c[|c| - n..] && (n < |a| && n < |c| ==> a[|a| - n - 1] != c[|c| - n - 1])
  }

  lemma SharedStartIsPrefix(a: string, c: string, n: nat)
    ensures SharedStart(a, c, n) <==> n == PrefixLen(a, c)
  {
    if n <= |a| && n <= |c| {
      PrefixIsLongest(a, c, n);
      if n < |a| && n < |c| {
        PrefixIsLongest(a, c, n + 1);
        hide PrefixLen;
        assert a[..n + 1] == a[..n] + [a[n]] && c[..n + 1] == c[..n] + [c[n]];
      }
    }
  }

  lemma SharedEndIsSuffix(a: string, c: string, n: nat)
    ensures SharedEnd(a, c, n) <==> n == SuffixLen(a, c)
  {
    if n <= |a| && n <= |c| {
      SuffixIsLongest(a, c, n);
      if n < |a| && n < |c| {
        SuffixIsLongest(a, c, n + 1);
        hide SuffixLen;
        var i, j := |a| - n - 1, |c| - n - 1;
        assert a[i..] == [a[i]] + a[i + 1..] && c[j..] == [c[j]] + c[j + 1..];
      }
    }
  }

  /** The score of two addresses adds up the characters they share at both ends. */
  lemma ScoreMeaning(a: Address, c: Address, n: nat, m: nat)
    ensures SharedStart(a, c, n) && SharedEnd(a, c, m) <==> n == PrefixLen(a, c) && m == SuffixLen(a, c)
    ensures SharedStart(a, c, n) && SharedEnd(a, c, m) ==> Score(a, c) == n + m
  {
    SharedStartIsPrefix(a, c, n);
    SharedEndIsSuffix(a, c, m);
  }

  /** `m` resembles `a` with the highest score, and is the least such address in byte order. */
  ghost predicate IsBest(a: Address, legit: set<Address>, rule: MatchRule, m: Address) {
    && m in legit && Resembles(a, m, rule)
    && forall c :: c in legit && Resembles(a, c, rule) ==>
         Score(a, c) < Score(a, m) || (Score(a, c) == Score(a, m) && LexLeq(m, c))
  }

  ghost predicate NoneResembles(a: Address, legit: set<Address>, rule: MatchRule) {
    forall c :: c in legit ==> !Resembles(a, c, rule)
  }

  lemma BestUnique(a: Address, legit: set<Address>, rule: MatchRule, m: Address, n: Address)
    requires IsBest(a, legit, rule, m) && IsBest(a, legit, rule, n)
    ensures m == n
  {
    LexAntisymmetric(m, n);
  }

  /** The chosen match, or the empty address. */
  ghost function BestMatch(a: Address, legit: set<Address>, rule: MatchRule): (m: Address)
    ensures m != "" ==> IsBest(a, legit, rule, m)
  {
    if exists m :: m != "" && IsBest(a, legit, rule, m) then
      var m :| m != "" && IsBest(a, legit, rule, m); m
    else ""
  }

  /** The state of the search after the addresses in `seen`. */
  ghost predicate Leads(a: Address, seen: set<Address>, rule: MatchRule, matched: Address, bestScore: int) {
    && (matched == "" ==> bestScore == -1 && NoneResembles(a, seen, rule))
    && (matched != "" ==> IsBest(a, seen, rule, matched) && bestScore == Score(a, matched))
  }

  lemma Overtake(a: Address, seen: set<Address>, rule: MatchRule, matched: Address, bestScore: int, c: Address)
    requires Leads(a, seen, rule, matched, bestScore) && c != "" && Resembles(a, c, rule)
    requires Score(a, c) > bestScore || (Score(a, c) == bestScore && LexLess(c, matched))
    ensures Leads(a, seen + {c}, rule, c, Score(a, c))
  {
    LexTotal(c, c);
    forall x | x in seen && Resembles(a, x, rule) && Score(a, x) == Score(a, c) ensures LexLeq(c, x) {
      LexTransitive(c, matched, x);
    }
  }

  lemma KeepLead(a: Address, seen: set<Address>, rule: MatchRule, matched: Address, bestScore: int, c: Address)
    requires Leads(a, seen, rule, matched, bestScore)
    requires Resembles(a, c, rule) ==>
               !(Score(a, c) > bestScore || (Score(a, c) == bestScore && LexLess(c, matched)))
    ensures Leads(a, seen + {c}, rule, matched, bestScore)
  {
    LexTotal(c, matched);
  }

  /** Walks the legitimate addresses in an arbitrary order, as map iteration does, and always finds the best one. */
  method FindBestLookalike(a: Address, legit: set<Address>, rule: MatchRule) returns (matched: Address)
    requires "" !in legit
    ensures matched == "" ==> NoneResembles(a, legit, rule)
    ensures matched != "" ==> IsBest(a, legit, rule, matched)
    ensures matched == BestMatch(a, legit, rule)
  {
    matched := "";
    var bestScore: int := -1;
    var todo := legit;
    while todo != {}
      invariant todo <= legit && Leads(a, legit - todo, rule, matched, bestScore)
      decreases |todo|
    {
      var c :| c in todo;
      ghost var seen := legit - todo;
      todo := todo - {c};
      assert legit - todo == seen + {c};
      var prefix := CommonPrefixLength(a, c);
      var suffix := CommonSuffixLength(a, c);
      ThresholdMeaning(a, c, rule);
      if !PassesThreshold(prefix, suffix, rule) {
        KeepLead(a, seen, rule, matched, bestScore, c);
        continue;
      }
      var score := prefix + suffix;
      if score > bestScore || (score == bestScore && LexLess(c, matched)) {
        Overtake(a, seen, rule, matched, bestScore, c);
        bestScore, matched := score, c;
      } else {
        KeepLead(a, seen, rule, matched, bestScore, c);
      }
    }
    assert legit - todo == legit;
    if matched != "" { BestUnique(a, legit, rule, matched, BestMatch(a, legit, rule)); }
  }

  lemma SelfScore(a: Address)
    ensures PrefixLen(a, a) == |a| && SuffixLen(a, a) == |a|
  {
    PrefixIsLongest(a, a, |a|);
    SuffixIsLongest(a, a, |a|);
  }

  /** What resembles anything resembles itself. */
  lemma SelfResembles(a: Address, m: Address, rule: MatchRule)
    requires Resembles(a, m, rule)
    ensures Resembles(a, a, rule)
  {
    SelfScore(a);
    ThresholdMeaning(a, m, rule);
    ThresholdMeaning(a, a, rule);
  }

  /** An address that is itself legitimate matches itself or nothing. */
  lemma SelfMatch(a: Address, legit: set<Address>, rule: MatchRule, m: Address)
    requires a in legit && IsBest(a, legit, rule, m)
    ensures m == a
  {
    SelfScore(a);
    assert Resembles(a, a, rule) by { SelfResembles(a, m, rule); }
    assert Score(a, a) == Score(a, m) && LexLeq(m, a);
    PrefixIsLongest(a, m, |a|);
    assert a == m[..|a|] by { assert a[..|a|] == a; }
    LexPrefix(a, m);
    LexAntisymmetric(a, m);
  }
}
