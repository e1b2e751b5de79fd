/** Summing up a run: counters, notes and status from the outcomes of its wallets. */
module Orchestrator {
  import opened Wrappers
  import opened Text
  import opened Counting
  import Sorting
  import WorkerPool

  datatype WalletStatus = Running | Succeeded | Partial | Failed | TimedOut

  /** The counters one wallet reports. */
  datatype WalletCounters = WalletCounters(
    fetched: nat, inserted: nat, linked: nat, failedNormalize: nat, ownerUnresolved: nat, unsupportedAsset: nat,
    decimalsUnresolved: nat, unknownGateBlocks: nat, candidateBlocks: nat, counterpartiesCreated: nat,
    counterpartiesUpdated: nat, candidatesInserted: nat, retryExhausted: nat)

  const ZERO_COUNTERS := WalletCounters(0, 0, 0, 0, 0, 0, 0, 0, 0, 0, 0, 0, 0)

  datatype WalletRunReport = WalletRunReport(
    status: WalletStatus, incompleteWindow: bool, truncationObserved: bool, counters: WalletCounters)

  /** `locked` says whether the error is the one for a wallet held elsewhere. */
  datatype WalletError = WalletError(locked: bool, text: string)

  datatype WalletOutcome = WalletOutcome(address: string, report: WalletRunReport, err: Option<WalletError>)

  datatype RunTotals = RunTotals(
    processed: nat, failed: nat, skipped: nat, partialWallets: nat, timeouts: nat, truncated: nat,
    sums: WalletCounters, notes: seq<string>)

  const ZERO_TOTALS := RunTotals(0, 0, 0, 0, 0, 0, ZERO_COUNTERS, [])

  function Plus(a: WalletCounters, b: WalletCounters): WalletCounters {
    WalletCounters(
      a.fetched + b.fetched, a.inserted + b.inserted, a.linked + b.linked, a.failedNormalize + b.failedNormalize,
      a.ownerUnresolved + b.ownerUnresolved, a.unsupportedAsset + b.unsupportedAsset,
      a.decimalsUnresolved + b.decimalsUnresolved, a.unknownGateBlocks + b.unknownGateBlocks,
      a.candidateBlocks + b.candidateBlocks, a.counterpartiesCreated + b.counterpartiesCreated,
      a.counterpartiesUpdated + b.counterpartiesUpdated, a.candidatesInserted + b.candidatesInserted,
      a.retryExhausted + b.retryExhausted)
  }

  /** The counters by name. */
  datatype CounterName =
    | Fetched | Inserted | Linked | FailedNormalize | OwnerUnresolved | UnsupportedAsset | DecimalsUnresolved | UnknownGateBlocks
    | CandidateBlocks | CounterpartiesCreated | CounterpartiesUpdated | CandidatesInserted | RetryExhausted

  function Counter(c: WalletCounters, name: CounterName): nat {
    match name
    case Fetched => c.fetched
    case Inserted => c.inserted
    case Linked => c.linked
    case FailedNormalize => c.failedNormalize
    case OwnerUnresolved => c.ownerUnresolved
    case UnsupportedAsset => c.unsupportedAsset
    case DecimalsUnresolved => c.decimalsUnresolved
    case UnknownGateBlocks => c.unknownGateBlocks
    case CandidateBlocks => c.candidateBlocks
    case CounterpartiesCreated => c.counterpartiesCreated
    case CounterpartiesUpdated => c.counterpartiesUpdated
    case CandidatesInserted => c.candidatesInserted
    case RetryExhausted => c.retryExhausted
  }

  /** One counter over all wallets. */
  function Total(s: seq<WalletOutcome>, name: CounterName): nat {
    if s == [] then 0 else Total(s[..|s| - 1], name) + Counter(s[|s| - 1].report.counters, name)
  }

  function ErrString(o: WalletOutcome): string { if o.err.None? then "" else o.err.value.text }

  function Note(o: WalletOutcome): string { "wallet " + o.address + ": " + ErrString(o) }

  /** A note gives the address and the error text. */
  lemma NoteMeaning(o: WalletOutcome)
    ensures var note, n := Note(o), |o.address|;
            |note| >= 9 + n && note[..7] == "wallet " && note[7..7 + n] == o.address && note[7 + n..9 + n] == ": "
            && note[9 + n..] == if o.err.Some? then o.err.value.text else ""
  {
  }

  /** The order outcomes are summed in: by address, then by error text. */
  predicate ComesFirst(a: WalletOutcome, b: WalletOutcome) {
    if a.address == b.address then LexLeq(ErrString(a), ErrString(b)) else LexLeq(a.address, b.address)
  }

  // ---- What the totals mean ----

  function IsProcessed(): WalletOutcome -> bool { (o: WalletOutcome) => o.err.None? }
  function IsSkipped(): WalletOutcome -> bool { (o: WalletOutcome) => o.err.Some? && o.err.value.locked }
  function IsFailed(): WalletOutcome -> bool { (o: WalletOutcome) => o.err.Some? && !o.err.value.locked }
  function IsPartial(): WalletOutcome -> bool { (o: WalletOutcome) => o.err.None? && o.report.status == Partial }
  function IsTimedOut(): WalletOutcome -> bool { (o: WalletOutcome) => o.report.status == TimedOut }
  function IsTruncated(): WalletOutcome -> bool { (o: WalletOutcome) => o.report.truncationObserved }

  function Sums(s: seq<WalletOutcome>): WalletCounters {
    if s == [] then ZERO_COUNTERS else Plus(Sums(s[..|s| - 1]), s[|s| - 1].report.counters)
  }

  /** Every counter of a run is the sum of that counter over its wallets. */
  lemma {:induction false} SumsAreTotals(s: seq<WalletOutcome>, name: CounterName)
    ensures Counter(Sums(s), name) == Total(s, name)
  {
    if s != [] { SumsAreTotals(s[..|s| - 1], name); }
  }

  lemma {:induction false} TotalAppend(s: seq<WalletOutcome>, t: seq<WalletOutcome>, name: CounterName)
    ensures Total(s + t, name) == Total(s, name) + Total(t, name)
  {
    if t == [] {
      assert s + t == s;
    } else {
      assert (s + t)[..|s + t| - 1] == s + t[..|t| - 1];
      TotalAppend(s, t[..|t| - 1], name);
    }
  }

  /** ... in whatever order they are summed. */
  lemma {:induction false} TotalPermutes(s: seq<WalletOutcome>, t: seq<WalletOutcome>, name: CounterName)
    requires multiset(s) == multiset(t)
    ensures Total(s, name) == Total(t, name)
  {
    if s == [] {
      assert |t| == |multiset(t)| == 0;
    } else {
      hide Counter;
      var last := |s| - 1;
      var i := SameWithoutLast(s, t);
      TotalPermutes(s[..last], t[..i] + t[i + 1..], name);
      TotalRemove(t, i, name);
    }
  }

  lemma SameWithoutLast(s: seq<WalletOutcome>, t: seq<WalletOutcome>) returns (i: nat)
    requires multiset(s) == multiset(t) && s != []
    ensures i < |t| && t[i] == s[|s| - 1] && multiset(s[..|s| - 1]) == multiset(t[..i] + t[i + 1..])
  {
    var last := |s| - 1;
    assert s[last] in multiset(t);
    i :| i < |t| && t[i] == s[last];
    RemoveMultiset(t, i);
    RemoveMultiset(s, last);
    assert s[..last] + s[last + 1..] == s[..last];
  }

  lemma TotalRemove(t: seq<WalletOutcome>, i: nat, name: CounterName)
    requires i < |t|
    ensures Total(t, name) == Total(t[..i] + t[i + 1..], name) + Counter(t[i].report.counters, name)
  {
    hide Counter;
    assert t == t[..i + 1] + t[i + 1..] && t[..i + 1][..i] == t[..i];
    TotalAppend(t[..i + 1], t[i + 1..], name);
    TotalAppend(t[..i], t[i + 1..], name);
  }

  function Notes(s: seq<WalletOutcome>): seq<string> {
    if s == [] then []
    else
      var before, o := Notes(s[..|s| - 1]), s[|s| - 1];
      if o.err.Some? then before + [Note(o)] else before
  }

  function TotalsOf(s: seq<WalletOutcome>): RunTotals {
    RunTotals(Count(s, IsProcessed()), Count(s, IsFailed()), Count(s, IsSkipped()), Count(s, IsPartial()),
              Count(s, IsTimedOut()), Count(s, IsTruncated()), Sums(s), Notes(s))
  }

  /** Adds one outcome. */
  method AddOutcome(t: RunTotals, o: WalletOutcome) returns (r: RunTotals)
    ensures r == RunTotals(
      if IsProcessed()(o) then t.processed + 1 else t.processed, if IsFailed()(o) then t.failed + 1 else t.failed,
      if IsSkipped()(o) then t.skipped + 1 else t.skipped, if IsPartial()(o) then t.partialWallets + 1 else t.partialWallets,
      if IsTimedOut()(o) then t.timeouts + 1 else t.timeouts, if IsTruncated()(o) then t.truncated + 1 else t.truncated,
      Plus(t.sums, o.report.counters), if o.err.Some? then t.notes + [Note(o)] else t.notes)
  {
    r := t;
    if o.report.truncationObserved { r := r.(truncated := r.truncated + 1); }
    r := r.(sums := Plus(r.sums, o.report.counters));
    if o.report.status == TimedOut { r := r.(timeouts := r.timeouts + 1); }
    match o.err {
      case None =>
        r := r.(processed := r.processed + 1);
        if o.report.status == Partial { r := r.(partialWallets := r.partialWallets + 1); }
      case Some(e) =>
        if e.locked { r := r.(skipped := r.skipped + 1); } else { r := r.(failed := r.failed + 1); }
        r := r.(notes := r.notes + [Note(o)]);
    }
  }

  /** Sorts the collected outcomes and sums them up. */
  method Aggregate(outcomes: seq<WalletOutcome>) returns (t: RunTotals)
    ensures t == TotalsOf(Sorting.SortBy(outcomes, ComesFirst))
    ensures t.processed + t.failed + t.skipped == |outcomes|
    ensures |t.notes| == t.failed + t.skipped
    ensures forall name: CounterName :: Counter(t.sums, name) == Total(outcomes, name)
  {
    var sorted := Sorting.SortBy(outcomes, ComesFirst);
    t := ZERO_TOTALS;
    for i := 0 to |sorted|
      invariant t == TotalsOf(sorted[..i])
      invariant t.processed + t.failed + t.skipped == i && |t.notes| == t.failed + t.skipped
    {
      TotalsStep(sorted, i);
      t := AddOutcome(t, sorted[i]);
    }
    assert sorted[..|sorted|] == sorted;
    forall name: CounterName ensures Counter(t.sums, name) == Total(outcomes, name) {
      SumsAreTotals(sorted, name);
      TotalPermutes(outcomes, sorted, name);
    }
  }

  lemma TotalsStep(s: seq<WalletOutcome>, i: nat)
    requires i < |s|
    ensures var t, o := TotalsOf(s[..i]), s[i];
            TotalsOf(s[..i + 1]) == RunTotals(
              if IsProcessed()(o) then t.processed + 1 else t.processed, if IsFailed()(o) then t.failed + 1 else t.failed,
              if IsSkipped()(o) then t.skipped + 1 else t.skipped, if IsPartial()(o) then t.partialWallets + 1 else t.partialWallets,
              if IsTimedOut()(o) then t.timeouts + 1 else t.timeouts, if IsTruncated()(o) then t.truncated + 1 else t.truncated,
              Plus(t.sums, o.report.counters), if o.err.Some? then t.notes + [Note(o)] else t.notes)
  {
    assert s[..i + 1][..i] == s[..i];
    CountStep(s, i, IsProcessed());
    CountStep(s, i, IsFailed());
    CountStep(s, i, IsSkipped());
    CountStep(s, i, IsPartial());
    CountStep(s, i, IsTimedOut());
    CountStep(s, i, IsTruncated());
  }

  // ---- Independence of the schedule ----

  ghost predicate DistinctAddresses(s: seq<WalletOutcome>) {
    forall i, j :: 0 <= i < j < |s| ==> s[i].address != s[j].address
  }

  lemma ComesFirstOrders(s: seq<WalletOutcome>)
    ensures Sorting.OrderOn(s, ComesFirst)
  {
    forall a: WalletOutcome, b: WalletOutcome ensures ComesFirst(a, b) || ComesFirst(b, a) {
      LexTotal(a.address, b.address);
      LexTotal(ErrString(a), ErrString(b));
    }
    forall a: WalletOutcome, b: WalletOutcome, c: WalletOutcome | ComesFirst(a, b) && ComesFirst(b, c) ensures ComesFirst(a, c) {
      if a.address == b.address == c.address {
        LexTransitive(ErrString(a), ErrString(b), ErrString(c));
      } else if a.address != b.address && b.address != c.address {
        LexTransitive(a.address, b.address, c.address);
        if a.address == c.address { LexAntisymmetric(a.address, b.address); }
      }
    }
  }

  lemma NoTies(s: seq<WalletOutcome>)
    requires DistinctAddresses(s)
    ensures Sorting.AntisymmetricOn(s, ComesFirst)
  {
    forall a, b | a in s && b in s && ComesFirst(a, b) && ComesFirst(b, a) ensures a == b {
      if a.address != b.address { LexAntisymmetric(a.address, b.address); }
    }
  }

  /** The order in which wallets finished leaves no trace in the totals or the notes. */
  lemma TotalsIgnoreOrder(s: seq<WalletOutcome>, t: seq<WalletOutcome>)
    requires multiset(s) == multiset(t) && DistinctAddresses(s)
    ensures TotalsOf(Sorting.SortBy(s, ComesFirst)) == TotalsOf(Sorting.SortBy(t, ComesFirst))
  {
    ComesFirstOrders(s);
    NoTies(s);
    Sorting.SortIgnoresOrder(s, t, ComesFirst);
  }

  /** Positions of outcomes. */
  function ProcessedAt(s: seq<WalletOutcome>): set<nat> { set i: nat | i < |s| && s[i].err == None }
  function SkippedAt(s: seq<WalletOutcome>): set<nat> { set i: nat | i < |s| && s[i].err.Some? && s[i].err.value.locked }
  function FailedAt(s: seq<WalletOutcome>): set<nat> { set i: nat | i < |s| && s[i].err.Some? && !s[i].err.value.locked }
  function PartialAt(s: seq<WalletOutcome>): set<nat> { set i: nat | i < |s| && s[i].err == None && s[i].report.status == Partial }
  function TimedOutAt(s: seq<WalletOutcome>): set<nat> { set i: nat | i < |s| && s[i].report.status == TimedOut }
  function TruncatedAt(s: seq<WalletOutcome>): set<nat> { set i: nat | i < |s| && s[i].report.truncationObserved }

  /** The tallies are numbers of wallets: without error, held elsewhere, with another error, partial, timed out, truncated. */
  lemma TotalsMeaning(s: seq<WalletOutcome>)
    ensures var t := TotalsOf(Sorting.SortBy(s, ComesFirst));
            && t.processed == |ProcessedAt(s)| && t.skipped == |SkippedAt(s)| && t.failed == |FailedAt(s)|
            && t.partialWallets == |PartialAt(s)| && t.timeouts == |TimedOutAt(s)| && t.truncated == |TruncatedAt(s)|
  {
    TotalsCount(s);
    hide Count, TotalsOf;
    CountMeaning(s, IsProcessed());
    CountMeaning(s, IsSkipped());
    CountMeaning(s, IsFailed());
    CountMeaning(s, IsPartial());
    CountMeaning(s, IsTimedOut());
    CountMeaning(s, IsTruncated());
    assert ProcessedAt(s) == Positions(s, IsProcessed());
    assert SkippedAt(s) == Positions(s, IsSkipped());
    assert FailedAt(s) == Positions(s, IsFailed());
    assert PartialAt(s) == Positions(s, IsPartial());
    assert TimedOutAt(s) == Positions(s, IsTimedOut());
    assert TruncatedAt(s) == Positions(s, IsTruncated());
  }

  lemma ComesFirstMeaning(a: WalletOutcome, b: WalletOutcome)
    ensures ComesFirst(a, b) <==>
              LexLeq(a.address, b.address) && (a.address == b.address ==>
                LexLeq(if a.err.Some? then a.err.value.text else "", if b.err.Some? then b.err.value.text else ""))
  {
    LexTotal(a.address, a.address);
  }

  /** The counters are those of the outcomes as they were collected. */
  lemma TotalsCount(s: seq<WalletOutcome>)
    ensures var t := TotalsOf(Sorting.SortBy(s, ComesFirst));
            && t.processed == Count(s, IsProcessed()) && t.failed == Count(s, IsFailed()) && t.skipped == Count(s, IsSkipped())
            && t.partialWallets == Count(s, IsPartial()) && t.timeouts == Count(s, IsTimedOut()) && t.truncated == Count(s, IsTruncated())
  {
    var sorted := Sorting.SortBy(s, ComesFirst);
    CountPermutation(s, sorted, IsProcessed());
    CountPermutation(s, sorted, IsFailed());
    CountPermutation(s, sorted, IsSkipped());
    CountPermutation(s, sorted, IsPartial());
    CountPermutation(s, sorted, IsTimedOut());
    CountPermutation(s, sorted, IsTruncated());
  }

  type Result = (WalletRunReport, Option<WalletError>)

  /** The outcomes as read from the closed channel. */
  function Collected(channel: seq<(string, Result)>): seq<WalletOutcome> {
    seq(|channel|, i requires 0 <= i < |channel| => WalletOutcome(channel[i].0, channel[i].1.0, channel[i].1.1))
  }

  /** Each wallet's outcome in a channel. */
  ghost predicate Yields(channel: seq<(string, Result)>, results: map<string, Result>) {
    && (forall a :: a in WorkerPool.Addresses(channel) <==> a in results)
    && (forall i :: 0 <= i < |channel| ==> channel[i].0 in results && channel[i].1 == results[channel[i].0])
  }

  lemma CollectedAgree(c: seq<(string, Result)>, d: seq<(string, Result)>, results: map<string, Result>)
    requires Sorting.Distinct(WorkerPool.Addresses(c)) && Sorting.Distinct(WorkerPool.Addresses(d))
    requires Yields(c, results) && Yields(d, results)
    ensures multiset(Collected(c)) == multiset(Collected(d)) && DistinctAddresses(Collected(c))
  {
    DistinctOutcomes(c);
    DistinctOutcomes(d);
    forall o ensures o in Collected(c) <==> o in Collected(d) {
      SameOutcome(c, d, results, o);
      SameOutcome(d, c, results, o);
    }
    Sorting.DistinctMultiset(Collected(c), Collected(d));
  }

  lemma DistinctOutcomes(c: seq<(string, Result)>)
    requires Sorting.Distinct(WorkerPool.Addresses(c))
    ensures DistinctAddresses(Collected(c)) && Sorting.Distinct(Collected(c))
  {
    forall i, j | 0 <= i < j < |c| ensures Collected(c)[i].address != Collected(c)[j].address {
      assert WorkerPool.Addresses(c)[i] != WorkerPool.Addresses(c)[j];
    }
  }

  lemma SameOutcome(c: seq<(string, Result)>, d: seq<(string, Result)>, results: map<string, Result>, o: WalletOutcome)
    requires Yields(c, results) && Yields(d, results)
    ensures o in Collected(c) ==> o in Collected(d)
  {
    if o !in Collected(c) { return; }
    var i :| 0 <= i < |c| && Collected(c)[i] == o;
    assert c[i].0 in WorkerPool.Addresses(d);
    var j :| 0 <= j < |d| && WorkerPool.Addresses(d)[j] == c[i].0;
    assert Collected(d)[j] == o;
  }

  /** Two completed runs in which every wallet fared the same report the same, whatever their schedules. */
  lemma ScheduleIndependence(wallets: set<string>, slots: nat, slots': nat, steps: seq<WorkerPool.PoolStep<Result>>,
                             steps': seq<WorkerPool.PoolStep<Result>>, results: map<string, Result>)
    requires var r := WorkerPool.Execute(wallets, slots, steps); r.Some? && WorkerPool.Over(r.value) && Yields(r.value.channel, results)
    requires var r := WorkerPool.Execute(wallets, slots', steps'); r.Some? && WorkerPool.Over(r.value) && Yields(r.value.channel, results)
    ensures TotalsOf(Sorting.SortBy(Collected(WorkerPool.Execute(wallets, slots, steps).value.channel), ComesFirst))
         == TotalsOf(Sorting.SortBy(Collected(WorkerPool.Execute(wallets, slots', steps').value.channel), ComesFirst))
    ensures |Collected(WorkerPool.Execute(wallets, slots, steps).value.channel)| == |wallets|
  {
    hide Yields, WorkerPool.Over;
    WorkerPool.OneOutcomeEach(wallets, slots, steps);
    WorkerPool.OneOutcomeEach(wallets, slots', steps');
    var c, d := WorkerPool.Execute(wallets, slots, steps).value.channel, WorkerPool.Execute(wallets, slots', steps').value.channel;
    CollectedAgree(c, d, results);
    TotalsIgnoreOrder(Collected(c), Collected(d));
  }

  // ---- Status ----

  datatype ContextError = DeadlineExceeded | Cancelled

  datatype RunStatus = RunSucceeded | RunPartiallySucceeded | RunFailed | RunTimedOut | RunCancelled

  function DeriveRunStatus(runErr: Option<ContextError>, processed: nat, skipped: nat, errorCount: nat, partialCount: nat): RunStatus {
    if runErr == Some(DeadlineExceeded) then RunTimedOut
    else if runErr == Some(Cancelled) then RunCancelled
    else if errorCount == 0 then (if partialCount > 0 then RunPartiallySucceeded else RunSucceeded)
    else if processed > 0 || skipped > 0 then RunPartiallySucceeded
    else RunFailed
  }

  /** Every wallet ran without error and saw its whole window. */
  ghost predicate EveryWalletClean(s: seq<WalletOutcome>) {
    forall o :: o in s ==> o.err.None? && o.report.status != Partial
  }

  ghost predicate EveryWalletFailed(s: seq<WalletOutcome>) { forall o :: o in s ==> o.err.Some? && !o.err.value.locked }

  /** What the status of a run over at least one wallet means for its wallets. */
  lemma StatusMeaning(outcomes: seq<WalletOutcome>, runErr: Option<ContextError>)
    requires outcomes != []
    ensures var t := TotalsOf(Sorting.SortBy(outcomes, ComesFirst));
            var status := DeriveRunStatus(runErr, t.processed, t.skipped, |t.notes|, t.partialWallets);
            && (status == RunSucceeded <==> runErr.None? && EveryWalletClean(outcomes))
            && (status == RunFailed <==> runErr.None? && EveryWalletFailed(outcomes))
            && (status == RunTimedOut <==> runErr == Some(DeadlineExceeded))
            && (status == RunCancelled <==> runErr == Some(Cancelled))
  {
    TotalsCount(outcomes);
    NotesCount(Sorting.SortBy(outcomes, ComesFirst));
    AllWell(outcomes);
    AllFailed(outcomes);
    assert runErr.None? || runErr.value == DeadlineExceeded || runErr.value == Cancelled;
  }

  lemma AllWell(s: seq<WalletOutcome>)
    ensures Count(s, IsFailed()) + Count(s, IsSkipped()) == 0 && Count(s, IsPartial()) == 0
       <==> EveryWalletClean(s)
  {
    CountPositive(s, IsFailed());
    CountPositive(s, IsSkipped());
    CountPositive(s, IsPartial());
    assert forall o: WalletOutcome :: !IsFailed()(o) && !IsSkipped()(o) <==> o.err.None?;
  }

  lemma AllFailed(s: seq<WalletOutcome>)
    requires s != []
    ensures Count(s, IsProcessed()) == 0 && Count(s, IsSkipped()) == 0 <==> EveryWalletFailed(s)
    ensures Count(s, IsProcessed()) + Count(s, IsFailed()) + Count(s, IsSkipped()) > 0
  {
    EveryOutcomeCounted(s);
    CountPositive(s, IsProcessed());
    CountPositive(s, IsSkipped());
    assert forall o: WalletOutcome :: IsFailed()(o) <==> !IsProcessed()(o) && !IsSkipped()(o);
  }

  lemma {:induction false} NotesCount(s: seq<WalletOutcome>)
    ensures |Notes(s)| == Count(s, IsFailed()) + Count(s, IsSkipped())
  {
    if s != [] { NotesCount(s[..|s| - 1]); }
  }

  lemma {:induction false} EveryOutcomeCounted(s: seq<WalletOutcome>)
    ensures Count(s, IsProcessed()) + Count(s, IsFailed()) + Count(s, IsSkipped()) == |s|
  {
    if s != [] { EveryOutcomeCounted(s[..|s| - 1]); }
  }
}
