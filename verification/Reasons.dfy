/** Reason strings: sets of codes written down in an order that does not depend on map iteration. */
module Reasons {
  import opened Text
  import Sorting

  const GATE_PREFIX := "unknown_required_gates:"

  function Join(parts: seq<string>, sep: char): string {
    if parts == [] then ""
    else if |parts| == 1 then parts[0]
    else parts[0] + [sep] + Join(parts[1..], sep)
  }

  function Split(s: string, sep: char): (parts: seq<string>)
    ensures parts != []
  {
    if s == [] then [""]
    else
      var rest := Split(s[1..], sep);
      if s[0] == sep then [""] + rest else [[s[0]] + rest[0]] + rest[1..]
  }

  lemma {:induction false} SplitWord(w: string, s: string, sep: char)
    requires sep !in w
    ensures Split(w, sep) == [w]
    ensures Split(w + [sep] + s, sep) == [w] + Split(s, sep)
  {
    if w == [] {
      assert w + [sep] + s == [sep] + s;
    } else {
      SplitWord(w[1..], s, sep);
      assert (w + [sep] + s)[1..] == w[1..] + [sep] + s;
      assert w == [w[0]] + w[1..];
    }
  }

  /** Splitting undoes joining when no part contains the separator. */
  lemma {:induction false} SplitJoin(parts: seq<string>, sep: char)
    requires parts != [] && forall w :: w in parts ==> sep !in w
    ensures Split(Join(parts, sep), sep) == parts
  {
    if |parts| == 1 {
      SplitWord(parts[0], "", sep);
    } else {
      assert forall w :: w in parts[1..] ==> w in parts;
      SplitJoin(parts[1..], sep);
      SplitWord(parts[0], Join(parts[1..], sep), sep);
    }
  }

  /** `names` lists the set `s` in lexical order, each element once. */
  ghost predicate Arranges(names: seq<string>, s: set<string>) {
    Sorting.SortedBy(names, LexLeq) && multiset(names) == multiset(s)
  }

  lemma LexOrders(s: seq<string>)
    ensures Sorting.OrderOn(s, LexLeq) && Sorting.AntisymmetricOn(s, LexLeq)
  {
    forall x, y ensures LexLeq(x, y) || LexLeq(y, x) { LexTotal(x, y); }
    forall x, y, z | LexLeq(x, y) && LexLeq(y, z) ensures LexLeq(x, z) { LexTransitive(x, y, z); }
    forall x, y | LexLeq(x, y) && LexLeq(y, x) ensures x == y { LexAntisymmetric(x, y); }
  }

  /** There is one arrangement, so a string built from it is a function of the set. */
  lemma ArrangementUnique(a: seq<string>, b: seq<string>, s: set<string>)
    requires Arranges(a, s) && Arranges(b, s)
    ensures a == b
  {
    LexOrders(a);
    Sorting.SortedUnique(a, b, LexLeq);
  }

  lemma ArrangedMembers(names: seq<string>, s: set<string>)
    requires Arranges(names, s)
    ensures forall w :: w in names <==> w in s
    ensures |names| == |s|
  {
    assert |names| == |multiset(names)| == |multiset(s)| == |s|;
    forall w ensures w in names <==> w in s {
      assert w in names <==> w in multiset(names);
      assert w in s <==> w in multiset(s);
    }
  }

  /** Collects a map's keys in whatever order iteration yields them, sorts them and joins them. */
  method JoinSorted(s: set<string>, sep: char) returns (r: string, ghost names: seq<string>)
    ensures Arranges(names, s) && r == Join(names, sep)
  {
    var keys: seq<string> := [];
    var todo := s;
    while todo != {}
      invariant todo <= s && multiset(keys) == multiset(s - todo)
      decreases |todo|
    {
      var k :| k in todo;
      assert s - (todo - {k}) == (s - todo) + {k};
      keys, todo := keys + [k], todo - {k};
    }
    assert s - todo == s;
    LexOrders(keys);
    Sorting.SortSorts(keys, LexLeq);
    names := Sorting.SortBy(keys, LexLeq);
    r := Join(Sorting.SortBy(keys, LexLeq), sep);
  }

  // ---- Unknown gates ----

  function NonBlank(parts: seq<string>): set<string> {
    set w | w in parts && !Blank(w) :: TrimSpace(w)
  }

  predicate HasPrefix(s: string, prefix: string) {
    |prefix| <= |s| && s[..|prefix|] == prefix
  }

  /** The gate names a reason string carries. */
  function GatesOf(reason: string): set<string> {
    var trimmed := TrimSpace(reason);
    if trimmed == "" then {}
    else if HasPrefix(trimmed, GATE_PREFIX) then NonBlank(Split(trimmed[|GATE_PREFIX|..], ','))
    else {trimmed}
  }

  method CollectNonBlank(parts: seq<string>, into: set<string>) returns (out: set<string>)
    ensures out == into + NonBlank(parts)
  {
    out := into;
    for i := 0 to |parts|
      invariant out == into + NonBlank(parts[..i])
    {
      var name := TrimSpace(parts[i]);
      assert forall w :: w in parts[..i + 1] <==> w in parts[..i] || w == parts[i];
      if name != "" { out := out + {name}; }
    }
    assert parts[..|parts|] == parts;
  }

  method AddUnknownGates(known: set<string>, reason: string) returns (out: set<string>)
    ensures out == known + GatesOf(reason)
  {
    var trimmed := TrimSpace(reason);
    if trimmed == "" { return known; }
    if HasPrefix(trimmed, GATE_PREFIX) {
      out := CollectNonBlank(Split(trimmed[|GATE_PREFIX|..], ','), known);
    } else {
      out := known + {trimmed};
    }
  }

  method BuildUnknownGateReason(known: set<string>) returns (r: string, ghost names: seq<string>)
    ensures Arranges(names, known)
    ensures r == if known == {} then "" else GATE_PREFIX + Join(names, ',')
  {
    r, names := JoinSorted(known, ',');
    if known == {} { return "", names; }
    r := GATE_PREFIX + r;
  }

  /** A gate name: no separator inside, no space around. */
  predicate GateWord(w: string) { w != "" && Trimmed(w) && ',' !in w }

  lemma {:induction false} JoinTrimmed(names: seq<string>)
    requires names != [] && forall w :: w in names ==> GateWord(w)
    ensures Join(names, ',') != "" && !IsSpace(Join(names, ',')[|Join(names, ',')| - 1])
  {
    if |names| > 1 {
      assert forall w :: w in names[1..] ==> w in names;
      JoinTrimmed(names[1..]);
    } else {
      assert names[0] in names;
    }
  }

  /** Reading back a reason gives the gate names that were written. */
  lemma ReasonRoundTrip(names: seq<string>)
    requires names != [] && forall w :: w in names ==> GateWord(w)
    ensures GatesOf(GATE_PREFIX + Join(names, ',')) == set w | w in names
    ensures !Blank(GATE_PREFIX + Join(names, ','))
  {
    var body := Join(names, ',');
    var reason := GATE_PREFIX + body;
    JoinTrimmed(names);
    SplitJoin(names, ',');
    assert reason[0] == 'u' && reason[|reason| - 1] == body[|body| - 1];
    assert TrimSpace(reason) == reason && reason[|GATE_PREFIX|..] == body;
    assert forall w :: w in names ==> TrimSpace(w) == w && !Blank(w);
  }

  // ---- Merged reasons ----

  lemma {:induction false} Arrangeable(s: set<string>)
    ensures exists names :: Arranges(names, s)
  {
    if s == {} {
      assert Arranges([], s);
    } else {
      var x :| x in s;
      Arrangeable(s - {x});
      var names :| Arranges(names, s - {x});
      assert multiset(names + [x]) == multiset(s);
      LexOrders(names + [x]);
      Sorting.SortSorts(names + [x], LexLeq);
      assert Arranges(Sorting.SortBy(names + [x], LexLeq), s);
    }
  }

  /** The merged reason: the distinct non-blank reasons in lexical order. */
  ghost function Merged(reasons: seq<string>): string {
    Arrangeable(NonBlank(reasons));
    var names :| Arranges(names, NonBlank(reasons));
    Join(names, ';')
  }

  /** Merges reasons: duplicates and blanks vanish, and the order of the arguments does not matter. */
  method MergeReasons(reasons: seq<string>) returns (r: string)
    ensures r == Merged(reasons)
  {
    var uniq := CollectNonBlank(reasons, {});
    ghost var names;
    r, names := JoinSorted(uniq, ';');
    ghost var all :| Arranges(all, NonBlank(reasons)) && Merged(reasons) == Join(all, ';');
    ArrangementUnique(names, all, uniq);
  }

  /** Which reasons are merged is all that matters, and the result is blank only if all of them are. */
  lemma MergedMeaning(reasons: seq<string>, others: seq<string>)
    ensures Blank(Merged(reasons)) <==> forall w :: w in reasons ==> Blank(w)
    ensures NonBlank(reasons) == NonBlank(others) ==> Merged(reasons) == Merged(others)
  {
    Arrangeable(NonBlank(reasons));
    var names :| Arranges(names, NonBlank(reasons)) && Merged(reasons) == Join(names, ';');
    MergedBlank(names, reasons);
    if NonBlank(reasons) == NonBlank(others) {
      var all :| Arranges(all, NonBlank(others)) && Merged(others) == Join(all, ';');
      ArrangementUnique(names, all, NonBlank(reasons));
    }
  }

  /** Reading back a merged reason gives the reasons that were merged. */
  lemma MergedParts(reasons: seq<string>)
    requires NonBlank(reasons) != {} && forall w :: w in reasons ==> ';' !in TrimSpace(w)
    ensures (set w | w in Split(Merged(reasons), ';')) == NonBlank(reasons)
  {
    Arrangeable(NonBlank(reasons));
    var names :| Arranges(names, NonBlank(reasons)) && Merged(reasons) == Join(names, ';');
    ArrangedMembers(names, NonBlank(reasons));
    var w :| w in NonBlank(reasons);
    assert w in names;
    SplitJoin(names, ';');
  }

  lemma MergedBlank(names: seq<string>, reasons: seq<string>)
    requires Arranges(names, NonBlank(reasons))
    ensures Blank(Join(names, ';')) <==> forall w :: w in reasons ==> Blank(w)
  {
    var uniq := NonBlank(reasons);
    ArrangedMembers(names, uniq);
    assert forall w :: w in reasons && !Blank(w) ==> TrimSpace(w) in uniq;
    if names != [] {
      assert names[0] in names && names[0] in uniq;
      var w :| w in reasons && !Blank(w) && TrimSpace(w) == names[0];
      JoinHead(names, ';');
    }
  }

  lemma JoinHead(names: seq<string>, sep: char)
    requires names != [] && names[0] != "" && Trimmed(names[0])
    ensures !Blank(Join(names, sep))
  {
    var s := Join(names, sep);
    assert s != [] && s[0] == names[0][0];
    NotBlank(s);
  }

  lemma {:induction false} NotBlank(s: string)
    requires s != [] && !IsSpace(s[0])
    ensures !Blank(s)
    decreases |s|
  {
    if IsSpace(s[|s| - 1]) {
      NotBlank(s[..|s| - 1]);
    }
  }
}
