/** The candidate table: what a run adds, and that everything in it is evidenced by a provider's history. */
module CandidateRows {
  import opened Text
  import opened Wrappers
  import opened Transfers
  import opened Materialize
  import opened CoreSync
  import opened Store
  import opened Execution
  import opened Persistence
  import DustRules
  import Fetch
  import Lookalike
  import Orchestrator
  import Poisoning
  import RunHistory
  import SyncRows
  import WalletRunner

  /** `after` keeps every row of `before`; a new row is of run `run` and wallet `w` and holds one of `cs`. */
  ghost predicate Extends(after: map<CandidateKey, CandidateRow>, before: map<CandidateKey, CandidateRow>, run: SyncRunId, w: WalletId, cs: seq<PoisoningCandidate>) {
    && (forall k :: k in before ==> k in after && after[k] == before[k])
    && (forall k :: k in after && k !in before ==> k.run == run && after[k].wallet == w && after[k].candidate in cs
                                                   && k == CandidateKey(run, after[k].candidate.signature, after[k].candidate.index))
  }

  lemma {:induction false} InsertAllExtends(rows: map<CandidateKey, CandidateRow>, run: SyncRunId, w: WalletId, cs: seq<PoisoningCandidate>)
    ensures Extends(InsertAll(rows, run, w, cs), rows, run, w, cs)
    ensures forall c :: c in cs ==> CandidateKey(run, c.signature, c.index) in InsertAll(rows, run, w, cs)
  {
    if cs != [] {
      var init, last := cs[..|cs| - 1], cs[|cs| - 1];
      assert cs == init + [last];
      InsertAllExtends(rows, run, w, init);
      assert forall c :: c in cs <==> c in init || c == last;
    }
  }

  lemma EndingCandidates(s: Stage, w: WalletId, run: SyncRunId, scanEnd: int, res: CoreSyncResult, faults: StoreCall -> bool)
    ensures var after := StoreCandidates(s, w, run, scanEnd, res, faults);
            && (after.tables.candidates == s.tables.candidates || after.tables.candidates == InsertAll(s.tables.candidates, run, w, res.candidates))
            && (after.ok && !s.ok ==> after.tables.candidates == InsertAll(s.tables.candidates, run, w, res.candidates))
  {
    hide Spoiled, FinalProgress, InsertAll, Reasoned;
  }

  lemma PersistCandidates(t: Tables, w: WalletId, run: SyncRunId, scanEnd: int, res: CoreSyncResult, faults: StoreCall -> bool)
    ensures var p := Persist(t, w, run, scanEnd, res, faults);
            && (p.tables.candidates == t.candidates || p.tables.candidates == InsertAll(t.candidates, run, w, res.candidates))
            && (p.ok ==> p.tables.candidates == InsertAll(t.candidates, run, w, res.candidates))
  {
    hide Spoiled, StoreCandidates, LinkAll, UpsertAll, Deduped, InsertAll;
    var rows, obs := UpsertAll(t.transfers, Deduped(res.baselineTransfers + res.scanTransfers)), Observations(res);
    var s := LinkAll(t.(transfers := rows), w, obs, |obs|, faults);
    LinkAllFrame(t.(transfers := rows), w, obs, |obs|, faults);
    if s.failed.None? {
      var counters := CoreCounters(res).(
        inserted := Grown(t.transfers, rows), linked := s.linked, counterpartiesCreated := s.created, counterpartiesUpdated := s.updated);
      var stage := Stage(s.tables, [Entry(UpsertTransfers, true)] + s.log, Orchestrator.Partial, NO_PROGRESS, counters, false, s.postings, s.lost);
      EndingCandidates(stage, w, run, scanEnd, res, faults);
    }
  }

  lemma BodyCandidates(t: Tables, w: WalletId, run: SyncRunId, r: WalletRun)
    ensures var b := Body(t, w, run, r);
            if r.core.CoreDone? then
              && (b.tables.candidates == t.candidates || b.tables.candidates == InsertAll(t.candidates, run, w, r.core.result.candidates))
              && (b.ok ==> b.tables.candidates == InsertAll(t.candidates, run, w, r.core.result.candidates))
            else b.tables.candidates == t.candidates && !b.ok
  {
    hide Spoiled, Persist, InsertAll;
    if r.core.CoreDone? { PersistCandidates(t, w, run, r.scanEnd, r.core.result, r.faults); }
  }

  lemma FinishCandidates(s: Stage, run: SyncRunId, faults: StoreCall -> bool)
    ensures Finish(s, run, faults).tables.candidates == s.tables.candidates
    ensures Finish(s, run, faults).ok ==> s.ok
  {
    hide Reasoned, RecordedReason;
  }

  lemma NothingAdded(rows: map<CandidateKey, CandidateRow>, run: SyncRunId, w: WalletId, cs: seq<PoisoningCandidate>)
    ensures Extends(rows, rows, run, w, cs)
  {
  }

  /** A run adds candidates of its own core result to its own sync run, in full if it ends without error, and
      touches no other row. */
  lemma RunExtendsCandidates(t: Tables, r: WalletRun)
    ensures var e, found := Execute(t, r), if r.core.CoreDone? then r.core.result.candidates else [];
            && Extends(e.tables.candidates, t.candidates, SyncRows.RunOf(t, r), WalletOf(t, r), found)
            && (e.ok ==> forall c :: c in found ==> CandidateKey(SyncRows.RunOf(t, r), c.signature, c.index) in e.tables.candidates)
  {
    hide Body, Finish, InsertAll, Extends;
    NothingAdded(t.candidates, SyncRows.RunOf(t, r), WalletOf(t, r), if r.core.CoreDone? then r.core.result.candidates else []);
    var found := if r.core.CoreDone? then r.core.result.candidates else [];
    InsertAllExtends(t.candidates, SyncRows.RunOf(t, r), WalletOf(t, r), found);
    if Opens(r) {
      var t1 := WithWallet(t, r.address);
      BodyCandidates(WithSyncRun(t1), WalletOf(t, r), t1.nextRun, r);
      FinishCandidates(Body(WithSyncRun(t1), WalletOf(t, r), t1.nextRun, r), t1.nextRun, r.faults);
    }
  }

  // ---- How many ----

  lemma {:induction false} InsertAllGrows(rows: map<CandidateKey, CandidateRow>, run: SyncRunId, w: WalletId, cs: seq<PoisoningCandidate>)
    ensures |rows| <= |InsertAll(rows, run, w, cs)|
  {
    if cs != [] {
      var last, before := cs[|cs| - 1], InsertAll(rows, run, w, cs[..|cs| - 1]);
      InsertAllGrows(rows, run, w, cs[..|cs| - 1]);
      RunHistory.KeysGrow(before, CandidateKey(run, last.signature, last.index), CandidateRow(w, last));
    }
  }

  /** The counter of stored candidates is the growth of the table `before`. */
  predicate CountsCandidates(s: Stage, before: map<CandidateKey, CandidateRow>) {
    s.counters.candidatesInserted == |s.tables.candidates| - |before|
  }

  lemma EndingCounts(s: Stage, w: WalletId, run: SyncRunId, scanEnd: int, res: CoreSyncResult, faults: StoreCall -> bool)
    requires s.counters.candidatesInserted == 0
    ensures CountsCandidates(StoreCandidates(s, w, run, scanEnd, res, faults), s.tables.candidates)
  {
    hide Spoiled, FinalProgress, InsertAll, Reasoned, WithProgress, WithLastSynced;
    InsertAllGrows(s.tables.candidates, run, w, res.candidates);
    assert forall u: Tables, at: int :: WithLastSynced(u, w, at).candidates == u.candidates by { LaterTables(w); }
    assert forall u: Tables, g :: run in u.syncRows ==> WithProgress(u, run, g).candidates == u.candidates by { LaterRows(run); }
  }

  lemma LaterTables(w: WalletId)
    ensures forall u: Tables, at: int :: WithLastSynced(u, w, at).candidates == u.candidates
  {
  }

  lemma LaterRows(run: SyncRunId)
    ensures forall u: Tables, g :: run in u.syncRows ==> WithProgress(u, run, g).candidates == u.candidates
  {
  }

  lemma PersistCountsCandidates(t: Tables, w: WalletId, run: SyncRunId, scanEnd: int, res: CoreSyncResult, faults: StoreCall -> bool)
    ensures CountsCandidates(Persist(t, w, run, scanEnd, res, faults), t.candidates)
  {
    hide Spoiled, StoreCandidates, LinkAll, UpsertAll, Deduped;
    var rows, obs := UpsertAll(t.transfers, Deduped(res.baselineTransfers + res.scanTransfers)), Observations(res);
    var s := LinkAll(t.(transfers := rows), w, obs, |obs|, faults);
    LinkAllFrame(t.(transfers := rows), w, obs, |obs|, faults);
    if s.failed.None? {
      var counters := CoreCounters(res).(
        inserted := Grown(t.transfers, rows), linked := s.linked, counterpartiesCreated := s.created, counterpartiesUpdated := s.updated);
      var stage := Stage(s.tables, [Entry(UpsertTransfers, true)] + s.log, Orchestrator.Partial, NO_PROGRESS, counters, false, s.postings, s.lost);
      EndingCounts(stage, w, run, scanEnd, res, faults);
    }
  }

  /** The candidates a run reports as stored are the growth of the table. */
  lemma ReportCountsCandidates(t: Tables, r: WalletRun)
    ensures Execute(t, r).report.counters.candidatesInserted == |Execute(t, r).tables.candidates| - |t.candidates|
  {
    RunHistory.ReportIsBodys(t, r);
    if Opens(r) {
      var t1 := WithWallet(t, r.address);
      if r.core.CoreDone? { PersistCountsCandidates(WithSyncRun(t1), WalletOf(t, r), t1.nextRun, r.scanEnd, r.core.result, r.faults); }
      hide Persist, Finish;
      FinishCandidates(Body(WithSyncRun(t1), WalletOf(t, r), t1.nextRun, r), t1.nextRun, r.faults);
    }
  }

  // ---- Evidence in the provider's history ----

  /** In the look-back days before the scan nothing moved between the wallet and `a`. */
  ghost predicate NewTo(history: seq<EnhancedTransaction>, c: WalletRunner.RunnerConfig, address: Address, a: Address) {
    forall tx, i: nat :: tx in history && 0 < c.scanStart - tx.time <= c.baselineLookbackDays * 86400 && i < TransferCount(tx) ==>
      !Moves(tx, i, TrimSpace(address), a) && !Moves(tx, i, a, TrimSpace(address))
  }

  /** Transfer `i` pays `a` from the wallet, and the classifier finds it above dust. */
  ghost predicate Pays(tx: EnhancedTransaction, i: nat, address: Address, a: Address, classify: DustClassifier)
    requires i < TransferCount(tx)
  {
    Moves(tx, i, TrimSpace(address), a) && Counts(tx, i) && classify(Rows(tx)[i]) == DustFalse
  }

  /** In the look-back days the wallet paid `a`, last at time `t`. */
  ghost predicate PaidLast(history: seq<EnhancedTransaction>, c: WalletRunner.RunnerConfig, address: Address, a: Address, classify: DustClassifier, t: int) {
    && (exists tx, i: nat :: tx in history && 0 < c.scanStart - tx.time <= c.baselineLookbackDays * 86400 && i < TransferCount(tx)
                          && Pays(tx, i, address, a, classify) && tx.time == t)
    && (forall tx, i: nat :: tx in history && 0 < c.scanStart - tx.time <= c.baselineLookbackDays * 86400 && i < TransferCount(tx) ==>
         (Pays(tx, i, address, a, classify) ==> tx.time <= t))
  }

  /** A transfer of the scan window is the poisoning that `x` records. */
  ghost predicate RecordsPoisoning(history: seq<EnhancedTransaction>, c: WalletRunner.RunnerConfig, address: Address, classify: DustClassifier, x: PoisoningCandidate) {
    exists tx, i: nat :: tx in history && c.scanStart <= tx.time < c.scanEnd && i < TransferCount(tx)
                      && Poisoning.Poisons(WalletRunner.CoreParams(address, c, classify), history, tx, i, x)
  }

  /** The candidate is new to the wallet and resembles another address that the wallet paid, last when the candidate says.
      It records a poisoning, or would with the count of the whole scan window. */
  ghost predicate EvidencedBy(history: seq<EnhancedTransaction>, c: WalletRunner.RunnerConfig, address: Address, classify: DustClassifier, x: PoisoningCandidate) {
    && NewTo(history, c, address, x.suspicious)
    && PaidLast(history, c, address, x.matchedLegit, classify, x.legitLastSeenAt)
    && x.suspicious != x.matchedLegit && Lookalike.Resembles(x.suspicious, x.matchedLegit, c.rule)
    && 0 < x.blockTime - x.legitLastSeenAt <= c.recencyDays * 86400
    && exists n: nat :: n >= x.repeatInjectionCount && RecordsPoisoning(history, c, address, classify, x.(repeatInjectionCount := n))
  }

  /** ... under the classifier that gives the verdicts of the threshold rows in force. */
  ghost predicate Evidenced(history: seq<EnhancedTransaction>, table: seq<DustRules.ThresholdRow>, c: WalletRunner.RunnerConfig, address: Address, x: PoisoningCandidate) {
    exists classify :: WalletRunner.ClassifiesBy(table, c, classify) && EvidencedBy(history, c, address, classify, x)
  }

  lemma NewAndPaid(history: seq<EnhancedTransaction>, c: WalletRunner.RunnerConfig, address: Address, classify: DustClassifier, x: PoisoningCandidate)
    requires Genuine(WalletRunner.CoreParams(address, c, classify), history, x)
    ensures NewTo(history, c, address, x.suspicious)
    ensures PaidLast(history, c, address, x.matchedLegit, classify, x.legitLastSeenAt)
    ensures x.suspicious != x.matchedLegit && Lookalike.Resembles(x.suspicious, x.matchedLegit, c.rule)
    ensures 0 < x.blockTime - x.legitLastSeenAt <= c.recencyDays * 86400
  {
    hide Moves, Counts, Rows, Lookalike.Resembles, Pays, IsPayment;
    var p := WalletRunner.CoreParams(address, c, classify);
    forall tx, i: nat | i < TransferCount(tx) ensures Pays(tx, i, address, x.matchedLegit, classify) <==> IsPayment(p, tx, i, x.matchedLegit) {
      SamePayment(tx, i, address, x.matchedLegit, c, classify);
    }
    var tx, i: nat :| tx in history && p.baselineStart <= tx.time < p.baselineEnd && i < TransferCount(tx)
                   && IsPayment(p, tx, i, x.matchedLegit) && tx.time == x.legitLastSeenAt;
    assert Pays(tx, i, address, x.matchedLegit, classify) && 0 < c.scanStart - tx.time <= c.baselineLookbackDays * 86400;
  }

  lemma SamePayment(tx: EnhancedTransaction, i: nat, address: Address, a: Address, c: WalletRunner.RunnerConfig, classify: DustClassifier)
    requires i < TransferCount(tx)
    ensures Pays(tx, i, address, a, classify) <==> IsPayment(WalletRunner.CoreParams(address, c, classify), tx, i, a)
  {
  }

  lemma TrueMeansPoisoning(history: seq<EnhancedTransaction>, c: WalletRunner.RunnerConfig, address: Address, classify: DustClassifier, x: PoisoningCandidate)
    requires ValidCoreParams(WalletRunner.CoreParams(address, c, classify))
    ensures x in TrueCandidates(WalletRunner.CoreParams(address, c, classify), history) <==> RecordsPoisoning(history, c, address, classify, x)
  {
    hide Poisoning.Poisons, TrueCandidates;
    Poisoning.CandidatesArePoisonings(WalletRunner.CoreParams(address, c, classify), history, x);
  }

  lemma OneIsTrustworthy(p: CoreSyncParams, history: seq<EnhancedTransaction>, res: CoreSyncResult, x: PoisoningCandidate)
    requires Trustworthy(p, history, res) && x in res.candidates
    ensures Genuine(p, history, x) && FoundAgain(x, TrueCandidates(p, history))
  {
  }

  lemma TrustedCandidate(history: seq<EnhancedTransaction>, c: WalletRunner.RunnerConfig, address: Address, classify: DustClassifier,
                         res: CoreSyncResult, x: PoisoningCandidate)
    requires ValidCoreParams(WalletRunner.CoreParams(address, c, classify)) && x in res.candidates
    requires Trustworthy(WalletRunner.CoreParams(address, c, classify), history, res)
    ensures EvidencedBy(history, c, address, classify, x)
  {
    OneIsTrustworthy(WalletRunner.CoreParams(address, c, classify), history, res, x);
    hide Genuine, FoundAgain, TrueCandidates, NewTo, PaidLast, RecordsPoisoning, ValidCoreParams, Lookalike.Resembles, Trustworthy, WalletRunner.CoreParams;
    NewAndPaid(history, c, address, classify, x);
    FoundIsRecorded(history, c, address, classify, x);
  }

  lemma FoundIsRecorded(history: seq<EnhancedTransaction>, c: WalletRunner.RunnerConfig, address: Address, classify: DustClassifier, x: PoisoningCandidate)
    requires ValidCoreParams(WalletRunner.CoreParams(address, c, classify))
    requires FoundAgain(x, TrueCandidates(WalletRunner.CoreParams(address, c, classify), history))
    ensures exists n: nat :: n >= x.repeatInjectionCount && RecordsPoisoning(history, c, address, classify, x.(repeatInjectionCount := n))
  {
    hide TrueCandidates, RecordsPoisoning, ValidCoreParams, WalletRunner.CoreParams;
    var all := TrueCandidates(WalletRunner.CoreParams(address, c, classify), history);
    var d :| d in all && d.repeatInjectionCount >= x.repeatInjectionCount && d == x.(repeatInjectionCount := d.repeatInjectionCount);
    TrueMeansPoisoning(history, c, address, classify, d);
    assert RecordsPoisoning(history, c, address, classify, x.(repeatInjectionCount := d.repeatInjectionCount));
  }

  /** From the provider's history to the database: a run stores only evidenced candidates. */
  lemma StoredCandidatesAreEvidenced(t: Tables, r: WalletRun, history: seq<EnhancedTransaction>, table: seq<DustRules.ThresholdRow>,
                                     c: WalletRunner.RunnerConfig, k: CandidateKey)
    requires r.core.CoreDone? ==> WalletRunner.Grounded(history, table, c, r.address, r.core.result)
    requires k in Execute(t, r).tables.candidates && k !in t.candidates
    ensures Evidenced(history, table, c, r.address, Execute(t, r).tables.candidates[k].candidate)
  {
    RunExtendsCandidates(t, r);
    hide Execute, WalletRunner.ClassifiesBy, ValidCoreParams, Consistent, Trustworthy, EvidencedBy, WalletRunner.CoreParams;
    var x := Execute(t, r).tables.candidates[k].candidate;
    assert r.core.CoreDone? && x in r.core.result.candidates;
    var classify :| WalletRunner.GroundedBy(history, table, c, r.address, r.core.result, classify);
    TrustedCandidate(history, c, r.address, classify, r.core.result, x);
  }

  // ---- A run that nothing disturbs ----

  /** Both windows lie inside the caps of a provider that answers every request. */
  ghost predicate Undisturbed(client: Fetch.Client, c: WalletRunner.RunnerConfig, address: Address) {
    && Fetch.Responds(client)
    && Fetch.Fits(client, client.History(address), WalletRunner.BaselineParams(c))
    && Fetch.Fits(client, client.History(address), WalletRunner.ScanParams(c))
  }

  /** Then the core sync is done and saw both windows whole. */
  lemma UndisturbedCore(client: Fetch.Client, table: seq<DustRules.ThresholdRow>, c: WalletRunner.RunnerConfig, expired: bool, r: WalletRun, from: nat, to: nat)
    requires WalletRunner.Met(client, table, c, expired, r, from, to)
    requires Undisturbed(client, c, r.address) && WalletRunner.ValidConfig(r.address, c) && r.rulesAccepted
    ensures r.core.CoreDone? && r.core.result.baselineTruncation.None? && r.core.result.scanTruncation.None?
  {
    hide Fetch.Fits, Fetch.Explained, Fetch.ErrorExplained, WalletRunner.Grounded, WalletRunner.RulesAccepted;
    var h := client.History(r.address);
    Fetch.NothingExplains(client, h, WalletRunner.BaselineParams(c), from, to);
    Fetch.NothingExplains(client, h, WalletRunner.ScanParams(c), from, to);
  }

  lemma WholeCoreIsTrue(history: seq<EnhancedTransaction>, table: seq<DustRules.ThresholdRow>, c: WalletRunner.RunnerConfig, address: Address,
                        res: CoreSyncResult, classify: DustClassifier)
    requires WalletRunner.GroundedBy(history, table, c, address, res, classify)
    requires res.baselineTruncation.None? && res.scanTruncation.None?
    ensures forall x :: x in res.candidates <==> RecordsPoisoning(history, c, address, classify, x)
    ensures forall x :: x in res.candidates ==> EvidencedBy(history, c, address, classify, x)
    ensures SyncRows.WindowIncomplete(res) <==> res.unknownGateBlocks > 0
  {
    hide TrueCandidates, Genuine, FoundAgain, FetchedFrom, FetchedAs, TransfersCounted, BlocksCounted, ReasonGiven, WalletRunner.ClassifiesBy,
         ValidCoreParams, RecordsPoisoning, EvidencedBy, WalletRunner.CoreParams;
    forall x ensures x in res.candidates <==> RecordsPoisoning(history, c, address, classify, x) { TrueMeansPoisoning(history, c, address, classify, x); }
    forall x | x in res.candidates ensures EvidencedBy(history, c, address, classify, x) { TrustedCandidate(history, c, address, classify, res, x); }
  }

  /** From circumstances a caller can check: with a provider that answers, windows inside the caps, valid rules in force,
      a valid configuration and a database that refuses nothing, a run ends without error, stores exactly the
      poisonings of the provider's history under the rules in force, and is recorded as succeeded unless a gate was undecided. */
  lemma UndisturbedRunStoresTheTruth(t: Tables, client: Fetch.Client, table: seq<DustRules.ThresholdRow>, c: WalletRunner.RunnerConfig, expired: bool,
                                     r: WalletRun, from: nat, to: nat)
      returns (classify: DustClassifier)
    requires Serial(t) && SyncRows.RowsSound(t) && Opens(r) && SyncRows.Quiet(r.faults)
    requires WalletRunner.Met(client, table, c, expired, r, from, to)
    requires Undisturbed(client, c, r.address) && WalletRunner.ValidConfig(r.address, c) && WalletRunner.RulesAccepted(table, c)
    ensures WalletRunner.ClassifiesBy(table, c, classify) && Execute(t, r).ok && r.core.CoreDone?
    ensures forall x :: x in r.core.result.candidates <==> RecordsPoisoning(client.History(r.address), c, r.address, classify, x)
    ensures forall x :: x in r.core.result.candidates ==> EvidencedBy(client.History(r.address), c, r.address, classify, x)
    ensures forall x :: x in r.core.result.candidates ==>
              CandidateKey(SyncRows.RunOf(t, r), x.signature, x.index) in Execute(t, r).tables.candidates
    ensures SyncRows.RunOf(t, r) in Execute(t, r).tables.syncRows
    ensures Execute(t, r).tables.syncRows[SyncRows.RunOf(t, r)].status == Orchestrator.Succeeded <==> r.core.result.unknownGateBlocks == 0
  {
    assert !r.faults(ListThresholds);
    UndisturbedCore(client, table, c, expired, r, from, to);
    RunHistory.GroundedIsPlausible(client.History(r.address), table, c, r);
    SyncRows.QuietRunSucceeds(t, r);
    RunExtendsCandidates(t, r);
    SyncRows.StatusIsExact(t, r);
    hide Execute, RecordsPoisoning, EvidencedBy, WalletRunner.RulesAccepted, WalletRunner.ClassifiesBy, Undisturbed, SyncRows.RowsSound, Extends, SyncRows.WindowIncomplete;
    classify :| WalletRunner.GroundedBy(client.History(r.address), table, c, r.address, r.core.result, classify);
    WholeCoreIsTrue(client.History(r.address), table, c, r.address, r.core.result, classify);
  }
}
