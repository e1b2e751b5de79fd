/** Effective-dated dust thresholds: loading, validation and classification. */
module DustRules {
  import opened Text
  import opened Wrappers
  import opened Transfers
  import opened Decimal
  import Sorting

  /** A row of asset_thresholds; the rule is active on [activeFrom, activeTo). */
  datatype ThresholdRow = ThresholdRow(assetKey: string, amountRaw: string, activeFrom: int, activeTo: Option<int>)

  datatype DustRule = DustRule(from: int, to: Option<int>, threshold: nat)

  datatype RuleError = EmptyAssetKey | InvalidThreshold | InvalidWindow | OverlappingWindows

  predicate ValidRow(r: ThresholdRow) {
    && !Blank(r.assetKey)
    && ParseInt(TrimSpace(r.amountRaw)).Some? && ParseInt(TrimSpace(r.amountRaw)).value >= 0
    && (r.activeTo.Some? ==> r.activeFrom < r.activeTo.value)
  }

  /** What is wrong with a single row, the first objection. */
  ghost predicate Faulty(r: ThresholdRow, e: RuleError) {
    var text := TrimSpace(r.amountRaw);
    var amount := ParseInt(text);
    match e
    case EmptyAssetKey => TrimSpace(r.assetKey) == ""
    case InvalidThreshold => TrimSpace(r.assetKey) != "" && (amount.None? || amount.value < 0)
    case InvalidWindow =>
      TrimSpace(r.assetKey) != "" && amount.Some? && amount.value >= 0 && r.activeTo.Some? && r.activeTo.value <= r.activeFrom
    case OverlappingWindows => false
  }

  /** A row is valid exactly when nothing is wrong with it. */
  lemma ValidRowMeaning(r: ThresholdRow)
    ensures ValidRow(r) <==> !Faulty(r, EmptyAssetKey) && !Faulty(r, InvalidThreshold) && !Faulty(r, InvalidWindow)
  {
    BlankMeaning(r.assetKey);
  }

  /** `e` names what is wrong with the first row that is not valid. */
  ghost predicate FirstFault(rows: seq<ThresholdRow>, e: RuleError) {
    exists i :: 0 <= i < |rows| && ValidRows(rows[..i]) && Faulty(rows[i], e)
  }

  function RuleOf(r: ThresholdRow): DustRule
    requires ValidRow(r)
  {
    DustRule(r.activeFrom, r.activeTo, ParseInt(TrimSpace(r.amountRaw)).value)
  }

  predicate ValidRule(r: DustRule) { r.to.Some? ==> r.from < r.to.value }

  predicate ActiveAt(r: DustRule, at: int) {
    r.from <= at && (r.to.Some? ==> at < r.to.value)
  }

  ghost predicate Overlap(a: DustRule, b: DustRule) { exists at :: ActiveAt(a, at) && ActiveAt(b, at) }

  predicate StartsNoLater(a: DustRule, b: DustRule) { a.from <= b.from }

  /** Individually valid rows. */
  ghost predicate ValidRows(rows: seq<ThresholdRow>) { forall r :: r in rows ==> ValidRow(r) }

  /** The rules of one asset, in row order. */
  ghost function RulesFor(rows: seq<ThresholdRow>, asset: string): seq<DustRule>
    requires ValidRows(rows)
  {
    if rows == [] then []
    else
      var r, before := rows[|rows| - 1], RulesFor(rows[..|rows| - 1], asset);
      if TrimSpace(r.assetKey) == asset then before + [RuleOf(r)] else before
  }

  lemma RulesForStep(rows: seq<ThresholdRow>, i: nat, asset: string)
    requires i < |rows| && ValidRows(rows[..i + 1])
    ensures ValidRows(rows[..i])
    ensures RulesFor(rows[..i + 1], asset) ==
              if TrimSpace(rows[i].assetKey) == asset then RulesFor(rows[..i], asset) + [RuleOf(rows[i])] else RulesFor(rows[..i], asset)
  {
    assert rows[..i + 1][..i] == rows[..i];
    assert forall r :: r in rows[..i] ==> r in rows[..i + 1];
  }

  /** The rules of an asset are those of its rows. */
  lemma {:induction false} RulesForMembers(rows: seq<ThresholdRow>, asset: string, x: DustRule)
    requires ValidRows(rows)
    ensures x in RulesFor(rows, asset) <==> exists r :: r in rows && TrimSpace(r.assetKey) == asset && RuleOf(r) == x
  {
    if rows != [] {
      var init, last := rows[..|rows| - 1], rows[|rows| - 1];
      assert rows == init + [last];
      assert forall r :: r in rows <==> r in init || r == last;
      RulesForMembers(init, asset, x);
    }
  }

  lemma RulesForValid(rows: seq<ThresholdRow>, asset: string)
    requires ValidRows(rows)
    ensures forall x :: x in RulesFor(rows, asset) ==> ValidRule(x)
  {
    forall x | x in RulesFor(rows, asset) ensures ValidRule(x) { RulesForMembers(rows, asset, x); }
  }

  /** No two windows of one asset share an instant. */
  ghost predicate Disjoint(rules: seq<DustRule>) {
    forall i, j :: 0 <= i < j < |rules| ==> !Overlap(rules[i], rules[j])
  }

  predicate AdjacentApart(prev: DustRule, curr: DustRule) { prev.to.Some? && prev.to.value <= curr.from }

  /** The scan of neighbours after sorting. */
  method CheckAdjacent(rules: seq<DustRule>) returns (ok: bool)
    ensures ok <==> forall i :: 1 <= i < |rules| ==> AdjacentApart(rules[i - 1], rules[i])
  {
    var i := 1;
    while i < |rules|
      invariant i >= 1 && forall k :: 1 <= k < i && k < |rules| ==> AdjacentApart(rules[k - 1], rules[k])
    {
      if rules[i - 1].to.None? || rules[i].from < rules[i - 1].to.value {
        assert !AdjacentApart(rules[i - 1], rules[i]);
        return false;
      }
      i := i + 1;
    }
    return true;
  }

  /** In a chain of separated neighbours, every earlier rule has ended when a later one starts. */
  lemma {:induction false} ApartChain(rules: seq<DustRule>, i: nat, j: nat)
    requires i < j < |rules| && forall r :: r in rules ==> ValidRule(r)
    requires forall k :: 1 <= k < |rules| ==> AdjacentApart(rules[k - 1], rules[k])
    ensures AdjacentApart(rules[i], rules[j])
    decreases j
  {
    if i < j - 1 {
      ApartChain(rules, i, j - 1);
      assert ValidRule(rules[j - 1]) && AdjacentApart(rules[j - 1], rules[j]);
    }
  }

  /** On rules sorted by start, comparing neighbours finds an overlap exactly when any two rules overlap. */
  lemma AdjacentCheckIsExact(rules: seq<DustRule>)
    requires forall r :: r in rules ==> ValidRule(r)
    requires Sorting.SortedBy(rules, StartsNoLater)
    ensures Disjoint(rules) <==> forall i :: 1 <= i < |rules| ==> AdjacentApart(rules[i - 1], rules[i])
  {
    if forall i :: 1 <= i < |rules| ==> AdjacentApart(rules[i - 1], rules[i]) {
      forall i, j | 0 <= i < j < |rules| ensures !Overlap(rules[i], rules[j]) {
        ApartChain(rules, i, j);
      }
    } else {
      var i :| 1 <= i < |rules| && !AdjacentApart(rules[i - 1], rules[i]);
      assert StartsNoLater(rules[i - 1], rules[i]) && ValidRule(rules[i]);
      assert ActiveAt(rules[i - 1], rules[i].from) && ActiveAt(rules[i], rules[i].from);
      assert Overlap(rules[i - 1], rules[i]);
    }
  }

  /** Disjointness does not depend on the order of the rules. */
  lemma DisjointPermutation(s: seq<DustRule>, t: seq<DustRule>)
    requires multiset(s) == multiset(t) && Disjoint(s) && forall r :: r in s ==> ValidRule(r)
    ensures Disjoint(t)
  {
    forall i, j | 0 <= i < j < |t| ensures !Overlap(t[i], t[j]) {
      TwoOccurrences(s, t, i, j);
      var a, b :| 0 <= a < |s| && 0 <= b < |s| && a != b && s[a] == t[i] && s[b] == t[j];
      if b < a { assert !Overlap(s[b], s[a]); }
    }
  }

  /** Two positions of a permutation come from two positions of the original. */
  lemma TwoOccurrences<T>(s: seq<T>, t: seq<T>, i: nat, j: nat)
    requires multiset(s) == multiset(t) && i < j < |t|
    ensures exists a, b :: 0 <= a < |s| && 0 <= b < |s| && a != b && s[a] == t[i] && s[b] == t[j]
  {
    assert t[i] in multiset(t);
    assert t[i] in multiset(s);
    var a :| 0 <= a < |s| && s[a] == t[i];
    assert t == t[..i] + [t[i]] + t[i + 1..];
    assert t[i + 1..][j - i - 1] == t[j];
    assert t[j] in multiset(t) - multiset{t[i]};
    assert s == s[..a] + [s[a]] + s[a + 1..];
    assert t[j] in multiset(s[..a] + s[a + 1..]);
    var k :| 0 <= k < |s[..a] + s[a + 1..]| && (s[..a] + s[a + 1..])[k] == t[j];
    assert s[if k < a then k else k + 1] == t[j];
  }

  /** No two rows of one asset have windows that share an instant. */
  ghost predicate RowsDisjoint(rows: seq<ThresholdRow>)
    requires ValidRows(rows)
  {
    forall i, j :: 0 <= i < j < |rows| ==> !Conflict(rows[i], rows[j])
  }

  ghost predicate Conflict(a: ThresholdRow, b: ThresholdRow)
    requires ValidRow(a) && ValidRow(b)
  {
    TrimSpace(a.assetKey) == TrimSpace(b.assetKey) && Overlap(RuleOf(a), RuleOf(b))
  }

  ghost predicate DisjointIn(rows: seq<ThresholdRow>, asset: string)
    requires ValidRows(rows)
  {
    Disjoint(RulesFor(rows, asset))
  }

  lemma DisjointAppend(s: seq<DustRule>, x: DustRule)
    ensures Disjoint(s + [x]) <==> Disjoint(s) && forall r :: r in s ==> !Overlap(r, x)
  {
    var t := s + [x];
    if Disjoint(t) {
      forall i, j | 0 <= i < j < |s| ensures !Overlap(s[i], s[j]) { assert s[i] == t[i] && s[j] == t[j]; }
      forall r | r in s ensures !Overlap(r, x) {
        var i :| 0 <= i < |s| && s[i] == r;
        assert t[i] == r && t[|s|] == x;
      }
    }
  }

  ghost predicate NoneConflicts(rows: seq<ThresholdRow>, last: ThresholdRow)
    requires ValidRows(rows) && ValidRow(last)
  {
    forall r :: r in rows ==> !Conflict(r, last)
  }

  lemma ConflictsByRule(rows: seq<ThresholdRow>, last: ThresholdRow)
    requires ValidRows(rows) && ValidRow(last)
    ensures NoneConflicts(rows, last) <==> forall x :: x in RulesFor(rows, TrimSpace(last.assetKey)) ==> !Overlap(x, RuleOf(last))
  {
    var own := TrimSpace(last.assetKey);
    forall x ensures x in RulesFor(rows, own) <==> exists r :: r in rows && TrimSpace(r.assetKey) == own && RuleOf(r) == x {
      RulesForMembers(rows, own, x);
    }
  }

  /** The tables are disjoint asset by asset exactly when no two rows conflict. */
  lemma {:induction false} RowsDisjointByAsset(rows: seq<ThresholdRow>)
    requires ValidRows(rows)
    ensures RowsDisjoint(rows) <==> forall asset :: DisjointIn(rows, asset)
  {
    if rows != [] {
      var init, last := rows[..|rows| - 1], rows[|rows| - 1];
      RowsDisjointByAsset(init);
      assert rows == init + [last];
      var own := TrimSpace(last.assetKey);
      DisjointAppend(RulesFor(init, own), RuleOf(last));
      forall asset ensures DisjointIn(rows, asset) <==> DisjointIn(init, asset) && (asset == own ==> NoneConflicts(init, last)) {
        if asset == own { ConflictsByRule(init, last); }
      }
      RowsDisjointAppend(init, last);
      assert DisjointIn(rows, own) ==> NoneConflicts(init, last);
    }
  }

  lemma RowsDisjointAppend(rows: seq<ThresholdRow>, last: ThresholdRow)
    requires ValidRows(rows) && ValidRows(rows + [last])
    ensures RowsDisjoint(rows + [last]) <==> RowsDisjoint(rows) && NoneConflicts(rows, last)
  {
    var all := rows + [last];
    if RowsDisjoint(all) {
      forall i, j | 0 <= i < j < |rows| ensures !Conflict(rows[i], rows[j]) { assert rows[i] == all[i] && rows[j] == all[j]; }
      forall r | r in rows ensures !Conflict(r, last) {
        var i :| 0 <= i < |rows| && rows[i] == r;
        assert all[i] == r && all[|rows|] == last;
      }
    }
  }

  // ---- Loading ----

  function RulesAt(index: map<string, seq<DustRule>>, asset: string): seq<DustRule> {
    if asset in index then index[asset] else []
  }

  /** The index holds, per asset, exactly the rules of its rows. */
  ghost predicate Collects(index: map<string, seq<DustRule>>, rows: seq<ThresholdRow>) {
    ValidRows(rows) && forall asset :: RulesAt(index, asset) == RulesFor(rows, asset)
  }

  /** The index holds, per asset, the rules of its rows sorted by start and pairwise disjoint. */
  ghost predicate Indexes(index: map<string, seq<DustRule>>, rows: seq<ThresholdRow>) {
    && ValidRows(rows)
    && forall asset :: multiset(RulesAt(index, asset)) == multiset(RulesFor(rows, asset)) && Disjoint(RulesAt(index, asset))
  }

  method CollectRules(rows: seq<ThresholdRow>) returns (r: Result<map<string, seq<DustRule>>, RuleError>)
    ensures r.Success? <==> ValidRows(rows)
    ensures r.Success? ==> Collects(r.value, rows)
    ensures r.Failure? ==> r.error != OverlappingWindows && FirstFault(rows, r.error)
  {
    var index: map<string, seq<DustRule>> := map[];
    for i := 0 to |rows|
      invariant Collects(index, rows[..i])
    {
      var row := rows[i];
      assert row in rows;
      var asset := TrimSpace(row.assetKey);
      if asset == "" { return Failure(EmptyAssetKey); }
      var v := ParseInt(TrimSpace(row.amountRaw));
      if v.None? || v.value < 0 { return Failure(InvalidThreshold); }
      if row.activeTo.Some? && row.activeTo.value <= row.activeFrom { return Failure(InvalidWindow); }
      assert forall x :: x in rows[..i + 1] ==> x in rows[..i] || x == row;
      var rule := DustRule(row.activeFrom, row.activeTo, v.value);
      assert ValidRow(row) && rule == RuleOf(row);
      var updated := index[asset := RulesAt(index, asset) + [rule]];
      forall key ensures RulesAt(updated, key) == RulesFor(rows[..i + 1], key) {
        RulesForStep(rows, i, key);
        assert RulesAt(index, key) == RulesFor(rows[..i], key);
      }
      index := updated;
    }
    assert rows[..|rows|] == rows;
    return Success(index);
  }

  lemma StartsOrder(s: seq<DustRule>)
    ensures Sorting.OrderOn(s, StartsNoLater)
  {
  }

  /** Sorting and then checking neighbours decides whether the rules of an asset are disjoint. */
  method SortAndCheck(rules: seq<DustRule>) returns (sorted: seq<DustRule>, ok: bool)
    requires forall r :: r in rules ==> ValidRule(r)
    ensures multiset(sorted) == multiset(rules)
    ensures ok <==> Disjoint(rules)
    ensures ok ==> Disjoint(sorted)
  {
    sorted := Sorting.SortBy(rules, StartsNoLater);
    StartsOrder(rules);
    Sorting.SortSorts(rules, StartsNoLater);
    Sorting.SameElements(sorted, rules);
    ok := CheckAdjacent(sorted);
    AdjacentCheckIsExact(sorted);
    if Disjoint(rules) { DisjointPermutation(rules, sorted); }
    if Disjoint(sorted) { DisjointPermutation(sorted, rules); }
  }

  /** The assets outside `todo` are sorted and disjoint; the others are as collected. */
  ghost predicate SortedBut(index: map<string, seq<DustRule>>, rows: seq<ThresholdRow>, todo: set<string>) {
    && ValidRows(rows) && (forall asset :: asset in todo ==> asset in index && index[asset] == RulesFor(rows, asset))
    && (forall asset :: asset !in todo ==>
         multiset(RulesAt(index, asset)) == multiset(RulesFor(rows, asset)) && Disjoint(RulesAt(index, asset)) && DisjointIn(rows, asset))
  }

  lemma SortedStep(index: map<string, seq<DustRule>>, rows: seq<ThresholdRow>, todo: set<string>, asset: string, sorted: seq<DustRule>)
    requires SortedBut(index, rows, todo) && asset in todo
    requires multiset(sorted) == multiset(index[asset]) && Disjoint(sorted) && Disjoint(index[asset])
    ensures SortedBut(index[asset := sorted], rows, todo - {asset})
  {
    hide Disjoint, RulesFor;
  }

  /** Loading accepts a table exactly when its rows are valid and no two windows of one asset overlap. */
  method BuildDustClassifier(rows: seq<ThresholdRow>) returns (r: Result<map<string, seq<DustRule>>, RuleError>)
    ensures r.Success? <==> ValidRows(rows) && RowsDisjoint(rows)
    ensures r.Success? ==> Indexes(r.value, rows)
    ensures r == Failure(OverlappingWindows) <==> ValidRows(rows) && !RowsDisjoint(rows)
    ensures r.Failure? && r.error != OverlappingWindows ==> FirstFault(rows, r.error)
  {
    r := CollectRules(rows);
    if r.Failure? { return; }
    var index := r.value;
    RowsDisjointByAsset(rows);
    var todo := index.Keys;
    assert SortedBut(index, rows, todo);
    hide SortedBut, RowsDisjoint, Disjoint, ValidRows, RulesFor;
    while todo != {}
      invariant SortedBut(index, rows, todo) && ValidRows(rows)
      decreases |todo|
    {
      var asset :| asset in todo;
      TodoRules(index, rows, todo, asset);
      var sorted, ok := SortAndCheck(index[asset]);
      if !ok {
        assert !DisjointIn(rows, asset);
        return Failure(OverlappingWindows);
      }
      SortedStep(index, rows, todo, asset, sorted);
      index, todo := index[asset := sorted], todo - {asset};
    }
    AllSorted(index, rows);
    return Success(index);
  }

  lemma TodoRules(index: map<string, seq<DustRule>>, rows: seq<ThresholdRow>, todo: set<string>, asset: string)
    requires SortedBut(index, rows, todo) && asset in todo
    ensures asset in index && index[asset] == RulesFor(rows, asset) && forall x :: x in index[asset] ==> ValidRule(x)
  {
    RulesForValid(rows, asset);
  }

  lemma AllSorted(index: map<string, seq<DustRule>>, rows: seq<ThresholdRow>)
    requires SortedBut(index, rows, {})
    ensures Indexes(index, rows) && RowsDisjoint(rows)
  {
    RowsDisjointByAsset(rows);
  }

  // ---- Classification ----

  /** `d` is the verdict of `rules` on a positive amount at a time. */
  ghost predicate IsVerdict(rules: seq<DustRule>, amount: nat, at: int, d: DustStatus) {
    match d
    case DustTrue => exists r :: r in rules && ActiveAt(r, at) && amount <= r.threshold
    case DustFalse => exists r :: r in rules && ActiveAt(r, at) && amount > r.threshold
    case DustUnknown => forall r :: r in rules ==> !ActiveAt(r, at)
  }

  /** `d` is the verdict of the table on a transfer. */
  ghost predicate IsDustVerdict(rows: seq<ThresholdRow>, tr: NormalizedTransfer, d: DustStatus)
    requires ValidRows(rows)
  {
    var amount := ParseInt(TrimSpace(tr.amountRaw));
    if amount.None? || amount.value < 0 then d == DustUnknown
    else if amount.value == 0 then d == DustTrue
    else IsVerdict(RulesFor(rows, TrimSpace(tr.assetKey)), amount.value, tr.blockTime, d)
  }

  /** Row `r` is in force for the asset at the time. */
  predicate RowApplies(r: ThresholdRow, asset: string, at: int) {
    TrimSpace(r.assetKey) == TrimSpace(asset) && r.activeFrom <= at && (r.activeTo.None? || at < r.activeTo.value)
  }

  /** Two rows conflict when they are in force for one asset at one time. */
  lemma ConflictMeaning(a: ThresholdRow, b: ThresholdRow)
    requires ValidRow(a) && ValidRow(b)
    ensures Conflict(a, b) <==> exists at :: RowApplies(a, b.assetKey, at) && RowApplies(b, a.assetKey, at)
  {
    forall at ensures ActiveAt(RuleOf(a), at) && ActiveAt(RuleOf(b), at) && TrimSpace(a.assetKey) == TrimSpace(b.assetKey)
                      <==> RowApplies(a, b.assetKey, at) && RowApplies(b, a.assetKey, at) {}
    if Conflict(a, b) {
      var at :| ActiveAt(RuleOf(a), at) && ActiveAt(RuleOf(b), at);
      assert RowApplies(a, b.assetKey, at) && RowApplies(b, a.assetKey, at);
    }
  }

  /** Verdicts in terms of the rows: below, at or above the threshold of a row in force; or none is in force. */
  lemma VerdictMeaning(rows: seq<ThresholdRow>, tr: NormalizedTransfer, d: DustStatus)
    requires ValidRows(rows)
    ensures var amount := ParseInt(TrimSpace(tr.amountRaw));
            if amount.None? || amount.value < 0 then IsDustVerdict(rows, tr, d) <==> d == DustUnknown
            else if amount.value == 0 then IsDustVerdict(rows, tr, d) <==> d == DustTrue
            else
              && (IsDustVerdict(rows, tr, DustTrue) <==>
                    exists r :: r in rows && RowApplies(r, tr.assetKey, tr.blockTime) && amount.value <= ParseInt(TrimSpace(r.amountRaw)).value)
              && (IsDustVerdict(rows, tr, DustFalse) <==>
                    exists r :: r in rows && RowApplies(r, tr.assetKey, tr.blockTime) && amount.value > ParseInt(TrimSpace(r.amountRaw)).value)
              && (IsDustVerdict(rows, tr, DustUnknown) <==> forall r :: r in rows ==> !RowApplies(r, tr.assetKey, tr.blockTime))
  {
    hide ParseInt;
    var asset := TrimSpace(tr.assetKey);
    forall x ensures x in RulesFor(rows, asset) <==> exists r :: r in rows && TrimSpace(r.assetKey) == asset && RuleOf(r) == x {
      RulesForMembers(rows, asset, x);
    }
    forall r | r in rows && RowApplies(r, tr.assetKey, tr.blockTime) ensures RuleOf(r) in RulesFor(rows, asset) && ActiveAt(RuleOf(r), tr.blockTime) {}
    hide RulesFor;
  }

  /** The verdict of the last of the first `n` rules that is active. */
  function LastVerdict(rules: seq<DustRule>, n: nat, amount: nat, at: int): DustStatus
    requires n <= |rules|
  {
    if n == 0 then DustUnknown
    else if !ActiveAt(rules[n - 1], at) then LastVerdict(rules, n - 1, amount, at)
    else if amount <= rules[n - 1].threshold then DustTrue else DustFalse
  }

  /** The classifier an index stands for. */
  function DustVerdict(index: map<string, seq<DustRule>>, tr: NormalizedTransfer): DustStatus {
    var amount, rules := ParseInt(TrimSpace(tr.amountRaw)), RulesAt(index, TrimSpace(tr.assetKey));
    if amount.None? || amount.value < 0 then DustUnknown
    else if amount.value == 0 then DustTrue
    else LastVerdict(rules, |rules|, amount.value, tr.blockTime)
  }

  /** The closure the loader returns, scanning an asset's rules backwards. */
  method ClassifyDust(index: map<string, seq<DustRule>>, tr: NormalizedTransfer) returns (d: DustStatus)
    ensures d == DustVerdict(index, tr)
  {
    var amount := ParseInt(TrimSpace(tr.amountRaw));
    if amount.None? || amount.value < 0 { return DustUnknown; }
    if amount.value == 0 { return DustTrue; }
    var rules := RulesAt(index, TrimSpace(tr.assetKey));
    if |rules| == 0 { return DustUnknown; }
    var i := |rules| - 1;
    while i >= 0
      invariant -1 <= i < |rules|
      invariant DustVerdict(index, tr) == LastVerdict(rules, i + 1, amount.value, tr.blockTime)
    {
      var rule := rules[i];
      if tr.blockTime < rule.from { i := i - 1; continue; }
      if rule.to.Some? && tr.blockTime >= rule.to.value { i := i - 1; continue; }
      if amount.value <= rule.threshold { return DustTrue; }
      return DustFalse;
    }
    return DustUnknown;
  }

  lemma {:induction false} LastVerdictMeaning(rules: seq<DustRule>, n: nat, amount: nat, at: int)
    requires n <= |rules|
    ensures IsVerdict(rules[..n], amount, at, LastVerdict(rules, n, amount, at))
  {
    if n > 0 {
      LastVerdictMeaning(rules, n - 1, amount, at);
      assert forall r :: r in rules[..n] <==> r in rules[..n - 1] || r == rules[n - 1];
    }
  }

  /** The backward scan returns the verdict of the table the index was built from. */
  lemma DustVerdictIsExact(index: map<string, seq<DustRule>>, rows: seq<ThresholdRow>, tr: NormalizedTransfer)
    requires Indexes(index, rows)
    ensures IsDustVerdict(rows, tr, DustVerdict(index, tr))
  {
    var asset, amount := TrimSpace(tr.assetKey), ParseInt(TrimSpace(tr.amountRaw));
    var rules := RulesAt(index, asset);
    Sorting.SameElements(rules, RulesFor(rows, asset));
    assert rules[..|rules|] == rules;
    if amount.Some? && amount.value > 0 { LastVerdictMeaning(rules, |rules|, amount.value, tr.blockTime); }
  }

  lemma {:induction false} OneActiveRule(rules: seq<DustRule>, at: int, a: DustRule, b: DustRule)
    requires Disjoint(rules) && a in rules && b in rules && ActiveAt(a, at) && ActiveAt(b, at)
    ensures a == b
  {
    var i :| 0 <= i < |rules| && rules[i] == a;
    var j :| 0 <= j < |rules| && rules[j] == b;
    if i < j {
      assert Overlap(rules[i], rules[j]);
    } else if j < i {
      assert Overlap(rules[j], rules[i]);
    }
  }

  /** A transfer has one verdict: that of the only active rule. */
  lemma VerdictUnique(rows: seq<ThresholdRow>, tr: NormalizedTransfer, d: DustStatus, e: DustStatus)
    requires ValidRows(rows) && RowsDisjoint(rows)
    requires IsDustVerdict(rows, tr, d) && IsDustVerdict(rows, tr, e)
    ensures d == e
  {
    RowsDisjointByAsset(rows);
    var rules := RulesFor(rows, TrimSpace(tr.assetKey));
    assert DisjointIn(rows, TrimSpace(tr.assetKey));
    forall a, b | a in rules && b in rules && ActiveAt(a, tr.blockTime) && ActiveAt(b, tr.blockTime) ensures a == b {
      OneActiveRule(rules, tr.blockTime, a, b);
    }
  }

  /** Verdicts only look at which rows exist and are active at the transfer's time. */
  lemma VerdictBySelection(rows: seq<ThresholdRow>, others: seq<ThresholdRow>, tr: NormalizedTransfer, d: DustStatus)
    requires ValidRows(rows) && ValidRows(others)
    requires forall r :: ValidRow(r) && ActiveAt(RuleOf(r), tr.blockTime) ==> (r in rows <==> r in others)
    ensures IsDustVerdict(rows, tr, d) <==> IsDustVerdict(others, tr, d)
  {
    var asset := TrimSpace(tr.assetKey);
    forall x | ActiveAt(x, tr.blockTime) ensures x in RulesFor(rows, asset) <==> x in RulesFor(others, asset) {
      RulesForMembers(rows, asset, x);
      RulesForMembers(others, asset, x);
    }
  }

  /** Row order changes neither acceptance nor any verdict. */
  lemma RowOrderIsIrrelevant(rows: seq<ThresholdRow>, others: seq<ThresholdRow>, tr: NormalizedTransfer, d: DustStatus)
    requires multiset(rows) == multiset(others) && ValidRows(rows)
    ensures ValidRows(others) && (RowsDisjoint(rows) <==> RowsDisjoint(others))
    ensures IsDustVerdict(rows, tr, d) <==> IsDustVerdict(others, tr, d)
  {
    Sorting.SameElements(rows, others);
    if RowsDisjoint(rows) { ConflictsPermute(rows, others); }
    if RowsDisjoint(others) { ConflictsPermute(others, rows); }
    VerdictBySelection(rows, others, tr, d);
  }

  lemma ConflictsPermute(rows: seq<ThresholdRow>, others: seq<ThresholdRow>)
    requires multiset(rows) == multiset(others) && ValidRows(rows) && ValidRows(others) && RowsDisjoint(rows)
    ensures RowsDisjoint(others)
  {
    forall i, j | 0 <= i < j < |others| ensures !Conflict(others[i], others[j]) {
      TwoOccurrences(rows, others, i, j);
      var a, b :| 0 <= a < |rows| && 0 <= b < |rows| && a != b && rows[a] == others[i] && rows[b] == others[j];
      if b < a { assert !Conflict(rows[b], rows[a]); }
    }
  }

  /** A smaller positive amount of the same asset at the same time is dust whenever a larger one is. */
  lemma VerdictMonotone(rows: seq<ThresholdRow>, small: NormalizedTransfer, large: NormalizedTransfer, d: DustStatus, e: DustStatus)
    requires ValidRows(rows) && RowsDisjoint(rows)
    requires small.blockTime == large.blockTime && TrimSpace(small.assetKey) == TrimSpace(large.assetKey)
    requires var x, y := ParseInt(TrimSpace(small.amountRaw)), ParseInt(TrimSpace(large.amountRaw));
             x.Some? && y.Some? && 0 < x.value <= y.value
    requires IsDustVerdict(rows, small, d) && IsDustVerdict(rows, large, e)
    ensures e == DustTrue ==> d == DustTrue
    ensures d == DustFalse ==> e == DustFalse
    ensures d == DustUnknown <==> e == DustUnknown
  {
    RowsDisjointByAsset(rows);
    var rules := RulesFor(rows, TrimSpace(small.assetKey));
    assert DisjointIn(rows, TrimSpace(small.assetKey));
    forall a, b | a in rules && b in rules && ActiveAt(a, small.blockTime) && ActiveAt(b, small.blockTime) ensures a == b {
      OneActiveRule(rules, small.blockTime, a, b);
    }
  }

  // ---- The SQL pre-filter ----

  /** The rows whose window meets [start, end). */
  function ListDustThresholds(table: seq<ThresholdRow>, start: int, end: int): (rows: seq<ThresholdRow>)
    ensures forall r :: r in rows <==> r in table && r.activeFrom < end && (r.activeTo.None? || r.activeTo.value > start)
  {
    if table == [] then []
    else
      var r, rest := table[0], ListDustThresholds(table[1..], start, end);
      assert forall x :: x in table <==> x == r || x in table[1..];
      if r.activeFrom < end && (r.activeTo.None? || r.activeTo.value > start) then [r] + rest else rest
  }

  lemma {:induction false} FilterKeepsDisjoint(table: seq<ThresholdRow>, start: int, end: int)
    requires ValidRows(table) && RowsDisjoint(table)
    ensures ValidRows(ListDustThresholds(table, start, end)) && RowsDisjoint(ListDustThresholds(table, start, end))
  {
    if table != [] {
      var rest := table[1..];
      forall i, j | 0 <= i < j < |rest| ensures !Conflict(rest[i], rest[j]) { assert rest[i] == table[i + 1] && rest[j] == table[j + 1]; }
      FilterKeepsDisjoint(rest, start, end);
      var kept := ListDustThresholds(rest, start, end);
      forall x | x in kept ensures !Conflict(table[0], x) {
        var k :| 0 <= k < |rest| && rest[k] == x;
        assert table[k + 1] == x;
      }
    }
  }

  /** With a valid table, the pre-filter is accepted and gives the full table's verdict at every time of the window. */
  lemma PreFilterIsExact(table: seq<ThresholdRow>, start: int, end: int, tr: NormalizedTransfer, d: DustStatus)
    requires ValidRows(table) && RowsDisjoint(table) && start <= tr.blockTime < end
    ensures var rows := ListDustThresholds(table, start, end);
            ValidRows(rows) && RowsDisjoint(rows) && (IsDustVerdict(rows, tr, d) <==> IsDustVerdict(table, tr, d))
  {
    FilterKeepsDisjoint(table, start, end);
    VerdictBySelection(table, ListDustThresholds(table, start, end), tr, d);
  }

  // ---- The sourcing heuristic ----

  /** Dust by fixed thresholds: an amount that is not a number is never within one. */
  function SourceDust(tr: NormalizedTransfer, thresholds: map<string, nat>): DustStatus {
    var known := WellFormedAmount(tr.amountRaw);
    if known && Value(TrimSpace(tr.amountRaw)) == 0 then DustTrue
    else if tr.assetType == OtherAsset || tr.assetKey !in thresholds then DustUnknown
    else if known && Value(TrimSpace(tr.amountRaw)) <= thresholds[tr.assetKey] then DustTrue
    else DustFalse
  }

  /** The same verdict by comparing digit strings. */
  method SourceDustStatus(tr: NormalizedTransfer, thresholds: map<string, nat>) returns (d: DustStatus)
    ensures d == SourceDust(tr, thresholds)
  {
    var isZero := AmountRawIsZero(tr.amountRaw);
    if isZero { return DustTrue; }
    if tr.assetType == OtherAsset { return DustUnknown; }
    if tr.assetKey !in thresholds { return DustUnknown; }
    var within := AmountRawLTE(tr.amountRaw, thresholds[tr.assetKey]);
    return if within then DustTrue else DustFalse;
  }

  /** Thresholds `thresholds` are the rules in force at time `at`. */
  ghost predicate InForce(thresholds: map<string, nat>, rows: seq<ThresholdRow>, at: int)
    requires ValidRows(rows)
  {
    forall asset, r :: r in RulesFor(rows, asset) && ActiveAt(r, at) ==> asset in thresholds && r.threshold == thresholds[asset]
  }

  ghost predicate Covers(rows: seq<ThresholdRow>, thresholds: map<string, nat>, at: int)
    requires ValidRows(rows)
  {
    forall asset :: asset in thresholds ==> exists r :: r in RulesFor(rows, asset) && ActiveAt(r, at)
  }

  /** The string heuristic and the big-integer classifier agree under the same thresholds. */
  lemma SourceAgreesWithClassifier(rows: seq<ThresholdRow>, thresholds: map<string, nat>, tr: NormalizedTransfer, d: DustStatus)
    requires ValidRows(rows) && InForce(thresholds, rows, tr.blockTime) && Covers(rows, thresholds, tr.blockTime)
    requires WellFormedAmount(tr.amountRaw) && tr.assetType != OtherAsset && Trimmed(tr.assetKey)
    requires IsDustVerdict(rows, tr, d)
    ensures d == SourceDust(tr, thresholds)
  {
  }
}
