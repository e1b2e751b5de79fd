/** The wallet runner: one wallet from threshold rows to a finalized sync row. */
module WalletRunner {
  import opened Wrappers
  import opened Text
  import opened Transfers
  import opened Counterparties
  import opened Reasons
  import opened Materialize
  import opened CoreSync
  import opened Store
  import opened Execution
  import DustRules
  import Fetch
  import Lookalike
  import Orchestrator

  /** Keeps the first transfer of every identity. */
  method DedupeTransfers(transfers: seq<NormalizedTransfer>) returns (out: seq<NormalizedTransfer>)
    ensures out == Deduped(transfers)
  {
    out := [];
    var seen: set<TxKey> := {};
    for i := 0 to |transfers|
      invariant out == Deduped(transfers[..i])
      invariant forall k :: k in seen <==> exists x :: x in out && KeyOf(x) == k
    {
      assert transfers[..i + 1][..i] == transfers[..i];
      var key := KeyOf(transfers[i]);
      if key in seen { continue; }
      seen := seen + {key};
      assert forall x :: x in out + [transfers[i]] <==> x in out || x == transfers[i];
      out := out + [transfers[i]];
    }
    assert transfers[..|transfers|] == transfers;
  }

  lemma {:induction false} FailureStopsTheLoop(t: Tables, w: WalletId, obs: seq<Observation>, n: nat, m: nat, faults: StoreCall -> bool)
    requires n <= m <= |obs| && LinkAll(t, w, obs, n, faults).failed.Some?
    ensures LinkAll(t, w, obs, m, faults) == LinkAll(t, w, obs, n, faults)
  {
    hide LinkOne;
    if n < m { FailureStopsTheLoop(t, w, obs, n, m - 1, faults); }
  }

  /** Links one observation and, when the link is new, counts its event. */
  method LinkObservation(store: PostgresStore, w: WalletId, o: Observation, i: nat, faults: StoreCall -> bool, ghost base: seq<Entry>, ghost s: LinkState)
    returns (isNew: bool, isCreated: bool, failed: Option<FailurePoint>)
    requires store.tables == s.tables && store.log == base + s.log && s.failed.None?
    modifies store
    ensures var next := LinkOne(s, w, o, i, faults);
            && store.tables == next.tables && store.log == base + next.log && failed == next.failed
            && next.linked == s.linked + (if isNew then 1 else 0)
            && next.created == s.created + (if isNew && failed.None? && isCreated then 1 else 0)
            && next.updated == s.updated + (if isNew && failed.None? && !isCreated then 1 else 0)
  {
    isNew, isCreated, failed := false, false, None;
    var link := store.LinkWalletTransfer(w, o.relation, o.transfer, i, faults(LinkTransfer(i)));
    if link.Failure? {
      failed := Some(AtLink);
      return;
    }
    if !link.value {
      assert store.tables.links == s.tables.links;
      return;
    }
    isNew := true;
    var counted := store.UpsertCounterpartyEvent(w, Event(o.counterparty, o.relation, o.transfer.blockTime), i, faults(UpsertCounterparty(i)));
    if counted.Failure? {
      failed := Some(AtCounterparty);
      return;
    }
    isCreated := counted.value;
  }

  /** Links every observation and counts the events of new links, until a call fails. */
  method LinkObservations(store: PostgresStore, w: WalletId, obs: seq<Observation>, faults: StoreCall -> bool)
    returns (linked: nat, created: nat, updated: nat, failed: Option<FailurePoint>)
    modifies store
    ensures var s := LinkAll(old(store.tables), w, obs, |obs|, faults);
            && store.tables == s.tables && store.log == old(store.log) + s.log
            && linked == s.linked && created == s.created && updated == s.updated && failed == s.failed
  {
    hide LinkOne;
    linked, created, updated, failed := 0, 0, 0, None;
    ghost var t, base := store.tables, store.log;
    for i := 0 to |obs|
      invariant var s := LinkAll(t, w, obs, i, faults);
                && store.tables == s.tables && store.log == base + s.log && s.failed.None? && failed.None?
                && linked == s.linked && created == s.created && updated == s.updated
    {
      ghost var s := LinkAll(t, w, obs, i, faults);
      assert LinkAll(t, w, obs, i + 1, faults) == LinkOne(s, w, obs[i], i, faults);
      var isNew, isCreated, failure := LinkObservation(store, w, obs[i], i, faults, base, s);
      if isNew { linked := linked + 1; }
      if failure.Some? {
        failed := failure;
        FailureStopsTheLoop(t, w, obs, i + 1, |obs|, faults);
        return;
      }
      if isNew {
        if isCreated { created := created + 1; } else { updated := updated + 1; }
      }
    }
  }

  /** Marks the window incomplete for a failure. */
  method Spoil(g: WalletSyncProgress, f: FailurePoint) returns (out: WalletSyncProgress)
    ensures out == Spoiled(g, f)
  {
    var reason := MergeReasons([g.unknownGateReason, FailureReason(f)]);
    out := g.(incompleteWindow := true, unknownGateReason := reason);
  }

  /** The progress of a run whose writes all succeeded. */
  method DeriveProgress(res: CoreSyncResult, counters: WalletCounters) returns (g: WalletSyncProgress)
    ensures g == FinalProgress(res, counters)
  {
    var baseline, scan := TruncationReason("baseline", res.baselineTruncation), TruncationReason("scan", res.scanTruncation);
    var truncation := MergedTruncation(res.baselineTruncation, res.scanTruncation);
    g := WalletSyncProgress(
      res.baselineComplete, res.incompleteWindow, res.unknownGateReason, truncation,
      SyncCounts(res.transactionsFetched, counters.inserted, counters.linked, res.failedNormalize, counters.counterpartiesCreated,
                 counters.counterpartiesUpdated, res.unsupportedAsset, res.unknownGateBlocks, res.candidateBlocks, counters.candidatesInserted));
    if truncation != "" {
      var reason := MergeReasons([g.unknownGateReason, baseline, scan]);
      g := g.(incompleteWindow := true, unknownGateReason := reason);
    }
    if g.incompleteWindow && Blank(g.unknownGateReason) {
      g := g.(unknownGateReason := INCOMPLETE_WINDOW);
    }
  }

  /** Stores the progress row and the synchronization time. */
  method RecordProgress(store: PostgresStore, w: WalletId, run: SyncRunId, scanEnd: int, g: WalletSyncProgress, faults: StoreCall -> bool,
                        ghost base: seq<Entry>, ghost stage: Stage)
    returns (status: WalletStatus, progress: WalletSyncProgress, ok: bool)
    requires store.tables == stage.tables && store.log == base + stage.log && stage.progress == g && !stage.ok
    modifies store
    ensures var s := Record(stage, w, run, scanEnd, faults);
            && store.tables == s.tables && store.log == base + s.log && status == s.status && progress == s.progress && ok == s.ok
            && s.counters == stage.counters
  {
    hide Spoiled, WithProgress, WithLastSynced;
    progress, ok := g, false;
    var err := store.UpdateWalletSyncProgress(run, g, faults(UpdateProgress));
    if err.Some? {
      status := Orchestrator.Partial;
      progress := Spoil(progress, AtProgress);
      return;
    }
    err := store.UpdateWalletLastSyncedAt(w, scanEnd, faults(UpdateLastSynced));
    if err.Some? {
      status := Orchestrator.Partial;
      progress := Spoil(progress, AtMetadata);
      return;
    }
    status := if progress.incompleteWindow then Orchestrator.Partial else Orchestrator.Succeeded;
    ok := true;
  }

  /** Stores the candidates, then the progress. */
  method RecordCandidates(store: PostgresStore, w: WalletId, run: SyncRunId, scanEnd: int, res: CoreSyncResult, counters: WalletCounters,
                          faults: StoreCall -> bool, ghost base: seq<Entry>, ghost stage: Stage)
    returns (status: WalletStatus, progress: WalletSyncProgress, out: WalletCounters, ok: bool)
    requires store.tables == stage.tables && store.log == base + stage.log && stage.counters == counters && !stage.ok
    modifies store
    ensures var s := StoreCandidates(stage, w, run, scanEnd, res, faults);
            && store.tables == s.tables && store.log == base + s.log
            && status == s.status && progress == s.progress && out == s.counters && ok == s.ok
  {
    hide Spoiled, FinalProgress, InsertAll, Record;
    out, ok := counters, false;
    var inserted := store.InsertPoisoningCandidates(run, w, res.candidates, faults(InsertCandidates));
    if inserted.Failure? {
      status := Orchestrator.Partial;
      progress := Spoil(NO_PROGRESS, AtCandidates);
      return;
    }
    out := out.(candidatesInserted := inserted.value);
    var g := DeriveProgress(res, out);
    status, progress, ok := RecordProgress(store, w, run, scanEnd, g, faults, base,
      stage.(tables := store.tables, log := stage.log + [Entry(InsertCandidates, true)], counters := out, progress := g));
  }

  /** Persists a core result, in the order transfers, links, counterparties, candidates, progress. */
  method PersistResult(store: PostgresStore, w: WalletId, run: SyncRunId, scanEnd: int, res: CoreSyncResult, faults: StoreCall -> bool)
    returns (status: WalletStatus, progress: WalletSyncProgress, counters: WalletCounters, ok: bool)
    modifies store
    ensures var s := Persist(old(store.tables), w, run, scanEnd, res, faults);
            && store.tables == s.tables && store.log == old(store.log) + s.log
            && status == s.status && progress == s.progress && counters == s.counters && ok == s.ok
  {
    hide Spoiled, StoreCandidates, LinkAll, UpsertAll, Deduped;
    progress, counters, ok := NO_PROGRESS, CoreCounters(res), false;
    ghost var base, t := store.log, store.tables;
    var transfers := DedupeTransfers(res.baselineTransfers + res.scanTransfers);
    var upserted := store.UpsertNormalizedTransfers(transfers, faults(UpsertTransfers));
    if upserted.Failure? {
      status := Orchestrator.Failed;
      return;
    }
    counters := counters.(inserted := upserted.value.0);
    var obs := res.baselineObservations + res.scanObservations;
    ghost var s := LinkAll(store.tables, w, obs, |obs|, faults);
    var linked, created, updated, failed := LinkObservations(store, w, obs, faults);
    counters := counters.(linked := linked, counterpartiesCreated := created, counterpartiesUpdated := updated);
    if failed.Some? {
      status := Orchestrator.Partial;
      progress := Spoil(progress, failed.value);
      return;
    }
    ghost var stage := Stage(s.tables, [Entry(UpsertTransfers, true)] + s.log, Orchestrator.Partial, NO_PROGRESS, counters, false, s.postings, s.lost);
    status, progress, counters, ok := RecordCandidates(store, w, run, scanEnd, res, counters, faults, base, stage);
  }

  // ---- The run ----

  /** The limits and detection settings of a run; its windows follow from `scanStart`, `scanEnd` and the look-back. */
  datatype RunnerConfig = RunnerConfig(
    scanStart: int, scanEnd: int, baselineLookbackDays: int, maxTxPages: int, maxTx: int, maxRetries: int, requestDelay: int,
    recencyDays: int, rule: Lookalike.MatchRule, minInjectionCount: int)

  function BaselineStart(c: RunnerConfig): int { c.scanStart - c.baselineLookbackDays * SECONDS_PER_DAY }

  function CoreParams(address: Address, c: RunnerConfig, classify: DustClassifier): CoreSyncParams {
    CoreSyncParams(
      address, BaselineStart(c), c.scanStart, c.scanStart, c.scanEnd, c.maxTxPages, c.maxTx, c.maxRetries, c.requestDelay,
      c.recencyDays, c.rule, c.minInjectionCount, classify)
  }

  /** The windows in seconds before the scan: the baseline reaches back the look-back days and ends where the scan starts.
      The rest of the configuration goes through as it is. */
  lemma WindowsMeaning(address: Address, c: RunnerConfig, classify: DustClassifier, at: int)
    ensures var p := CoreParams(address, c, classify);
            && (p.baselineStart <= at < p.baselineEnd <==> 0 < c.scanStart - at <= c.baselineLookbackDays * 86400)
            && (p.scanStart <= at < p.scanEnd <==> c.scanStart <= at < c.scanEnd)
            && p.focal == address && p.classify == classify && p.rule == c.rule
            && p.recencyDays == c.recencyDays && p.minInjectionCount == c.minInjectionCount
            && p.maxTxPages == c.maxTxPages && p.maxTx == c.maxTx && p.maxRetries == c.maxRetries && p.requestDelay == c.requestDelay
  {
  }

  function ClassifierOf(index: map<string, seq<DustRules.DustRule>>): DustClassifier {
    (tr: NormalizedTransfer) => DustRules.DustVerdict(index, tr)
  }

  /** The threshold rows that a run lists: those whose window meets one of its own. */
  function RowsInForce(table: seq<DustRules.ThresholdRow>, c: RunnerConfig): seq<DustRules.ThresholdRow> {
    DustRules.ListDustThresholds(table, BaselineStart(c), c.scanEnd)
  }

  /** These rows by their own times. */
  lemma RowsInForceMeaning(table: seq<DustRules.ThresholdRow>, c: RunnerConfig, r: DustRules.ThresholdRow)
    ensures r in RowsInForce(table, c) <==>
              && r in table && r.activeFrom < c.scanEnd
              && (r.activeTo.None? || c.scanStart - r.activeTo.value < c.baselineLookbackDays * 86400)
  {
  }

  /** The rows in force are valid and disjoint. */
  ghost predicate RulesAccepted(table: seq<DustRules.ThresholdRow>, c: RunnerConfig) {
    DustRules.ValidRows(RowsInForce(table, c)) && DustRules.RowsDisjoint(RowsInForce(table, c))
  }

  /** `classify` gives, for every transfer, the verdict of the rows in force. */
  ghost predicate ClassifiesBy(table: seq<DustRules.ThresholdRow>, c: RunnerConfig, classify: DustClassifier) {
    RulesAccepted(table, c) && forall tr: NormalizedTransfer :: DustRules.IsDustVerdict(RowsInForce(table, c), tr, classify(tr))
  }

  lemma LoadedClassifier(table: seq<DustRules.ThresholdRow>, c: RunnerConfig, index: map<string, seq<DustRules.DustRule>>)
    requires RulesAccepted(table, c) && DustRules.Indexes(index, RowsInForce(table, c))
    ensures ClassifiesBy(table, c, ClassifierOf(index))
  {
    forall tr: NormalizedTransfer ensures DustRules.IsDustVerdict(RowsInForce(table, c), tr, ClassifierOf(index)(tr)) {
      DustRules.DustVerdictIsExact(index, RowsInForce(table, c), tr);
    }
  }

  /** When the whole table is valid, these are the whole table's verdicts at every time of both windows. */
  lemma WholeTableVerdicts(table: seq<DustRules.ThresholdRow>, c: RunnerConfig, classify: DustClassifier, tr: NormalizedTransfer)
    requires DustRules.ValidRows(table) && DustRules.RowsDisjoint(table) && ClassifiesBy(table, c, classify)
    requires BaselineStart(c) <= tr.blockTime < c.scanEnd
    ensures DustRules.IsDustVerdict(table, tr, classify(tr))
  {
    DustRules.PreFilterIsExact(table, BaselineStart(c), c.scanEnd, tr, classify(tr));
  }

  /** There is one such classifier. */
  lemma ClassifierIsUnique(table: seq<DustRules.ThresholdRow>, c: RunnerConfig, f: DustClassifier, g: DustClassifier, tr: NormalizedTransfer)
    requires ClassifiesBy(table, c, f) && ClassifiesBy(table, c, g)
    ensures f(tr) == g(tr)
  {
    DustRules.VerdictUnique(RowsInForce(table, c), tr, f(tr), g(tr));
  }

  /** Loads the rules in force over both windows; `accepted` says whether they were read and found valid. */
  method LoadClassifier(store: PostgresStore, table: seq<DustRules.ThresholdRow>, c: RunnerConfig, faults: StoreCall -> bool)
    returns (r: Option<DustClassifier>, ghost accepted: bool)
    modifies store`log
    ensures store.log == old(store.log) + [Entry(ListThresholds, !faults(ListThresholds))]
    ensures accepted <==> !faults(ListThresholds) && RulesAccepted(table, c)
    ensures r.Some? <==> accepted
    ensures r.Some? ==> ClassifiesBy(table, c, r.value)
  {
    accepted := false;
    var rows := store.ListDustThresholds(table, BaselineStart(c), c.scanEnd, faults(ListThresholds));
    if rows.Failure? { return None, accepted; }
    var index := DustRules.BuildDustClassifier(rows.value);
    if index.Failure? { return None, accepted; }
    accepted := true;
    LoadedClassifier(table, c, index.value);
    r := Some(ClassifierOf(index.value));
  }

  /** The core result is what the detector makes of the provider's history under the threshold table. */
  ghost predicate Grounded(history: seq<EnhancedTransaction>, table: seq<DustRules.ThresholdRow>, c: RunnerConfig, address: Address, res: CoreSyncResult) {
    exists classify :: GroundedBy(history, table, c, address, res, classify)
  }

  ghost predicate GroundedBy(history: seq<EnhancedTransaction>, table: seq<DustRules.ThresholdRow>, c: RunnerConfig, address: Address,
                             res: CoreSyncResult, classify: DustClassifier) {
    && ClassifiesBy(table, c, classify) && ValidCoreParams(CoreParams(address, c, classify))
    && Trustworthy(CoreParams(address, c, classify), history, res)
    && Consistent(CoreParams(address, c, classify), history, res)
  }

  /** Configurations the core sync accepts; the classifier plays no part. */
  predicate ValidConfig(address: Address, c: RunnerConfig) { ValidCoreParams(CoreParams(address, c, ClassifierOf(map[]))) }

  function WindowParams(c: RunnerConfig, start: int, end: int): Fetch.FetchWindowParams {
    Fetch.FetchWindowParams(start, end, c.maxTxPages, c.maxTx, c.maxRetries, c.requestDelay)
  }

  function BaselineParams(c: RunnerConfig): Fetch.FetchWindowParams { WindowParams(c, BaselineStart(c), c.scanStart) }

  function ScanParams(c: RunnerConfig): Fetch.FetchWindowParams { WindowParams(c, c.scanStart, c.scanEnd) }

  /** A core sync that made the attempts `(from, to]` fails only on its configuration or on what the provider did. */
  ghost predicate FailureExplained(client: Fetch.Client, c: RunnerConfig, address: Address, from: nat, to: nat) {
    ValidConfig(address, c) ==>
      exists e :: Fetch.ErrorExplained(client, BaselineParams(c), e, from, to) || Fetch.ErrorExplained(client, ScanParams(c), e, from, to)
  }

  /** A truncated window is truncated for what the provider did. */
  ghost predicate TruncationExplained(client: Fetch.Client, c: RunnerConfig, address: Address, res: CoreSyncResult, from: nat, to: nat) {
    var h := client.History(address);
    && (res.baselineTruncation.Some? ==> Fetch.Explained(client, h, BaselineParams(c), res.baselineTruncation.value, from, to))
    && (res.scanTruncation.Some? ==> Fetch.Explained(client, h, ScanParams(c), res.scanTruncation.value, from, to))
  }

  /** The run `r` is what its circumstances make it: the rules are those of the table, the core result is grounded in the
      history, and a failed or truncated core sync is explained by the provider. */
  ghost predicate Met(client: Fetch.Client, table: seq<DustRules.ThresholdRow>, c: RunnerConfig, expired: bool, r: WalletRun, from: nat, to: nat) {
    && (r.rulesAccepted <==> !r.faults(ListThresholds) && RulesAccepted(table, c))
    && (r.rulesAccepted && r.core.CoreFailed? ==> r.core.deadline == expired && FailureExplained(client, c, r.address, from, to))
    && (r.core.CoreDone? ==> Grounded(client.History(r.address), table, c, r.address, r.core.result)
                             && TruncationExplained(client, c, r.address, r.core.result, from, to))
  }

  predicate IsPartial(progressPersisted: bool, hardFailure: bool) { progressPersisted && hardFailure }

  /** The core sync under a loaded classifier. */
  method SyncCore(client: Fetch.Client, table: seq<DustRules.ThresholdRow>, address: Address, c: RunnerConfig, classify: DustClassifier)
    returns (core: Result<CoreSyncResult, CoreError>)
    requires Fetch.NewestFirst(client.History(address)) && ClassifiesBy(table, c, classify)
    modifies client`attempts
    ensures core.Success? ==> Grounded(client.History(address), table, c, address, core.value)
                              && TruncationExplained(client, c, address, core.value, old(client.attempts), client.attempts)
    ensures core.Failure? ==> FailureExplained(client, c, address, old(client.attempts), client.attempts)
    ensures old(client.attempts) <= client.attempts <= old(client.attempts) + 2 * PagesCost(c)
  {
    hide ClassifiesBy, Trustworthy, Consistent, Fetch.Explained, Fetch.ErrorExplained;
    var p := CoreParams(address, c, classify);
    core := RunWalletCoreSync(client, p);
    assert FetchParams(p, p.baselineStart, p.baselineEnd) == BaselineParams(c) && FetchParams(p, p.scanStart, p.scanEnd) == ScanParams(c);
    if core.Success? { assert GroundedBy(client.History(address), table, c, address, core.value, classify); }
  }

  /** From the threshold rows to the last write before finalization. `expired` says whether the wallet's context
      is past its deadline if the core sync fails. */
  method RunBody(client: Fetch.Client, store: PostgresStore, table: seq<DustRules.ThresholdRow>, address: Address, w: WalletId, run: SyncRunId,
                 c: RunnerConfig, faults: StoreCall -> bool, expired: bool, ghost ingestionRun: nat)
    returns (status: WalletStatus, progress: WalletSyncProgress, counters: WalletCounters, ok: bool, ghost r: WalletRun)
    requires Fetch.NewestFirst(client.History(address))
    modifies store, client`attempts
    ensures r.address == address && r.ingestionRun == ingestionRun && r.scanEnd == c.scanEnd && r.faults == faults
    ensures Met(client, table, c, expired, r, old(client.attempts), client.attempts)
    ensures var s := Body(old(store.tables), w, run, r);
            && store.tables == s.tables && store.log == old(store.log) + s.log
            && status == s.status && progress == s.progress && counters == s.counters && ok == s.ok
    ensures old(client.attempts) <= client.attempts <= old(client.attempts) + 2 * PagesCost(c)
  {
    hide Spoiled, Persist, Grounded, ClassifiesBy, PagesCost, RulesAccepted, FailureExplained, TruncationExplained;
    progress, counters, ok, status := NO_PROGRESS, Orchestrator.ZERO_COUNTERS, false, Orchestrator.Failed;
    var progressPersisted := false;
    var classify, accepted := LoadClassifier(store, table, c, faults);
    r := WalletRun(address, ingestionRun, c.scanEnd, faults, accepted, CoreFailed(false));
    if classify.None? { return; }
    var core := SyncCore(client, table, address, c, classify.value);
    if core.Failure? {
      r := r.(core := CoreFailed(expired));
      if expired {
        status := Orchestrator.TimedOut;
        progress := Spoil(progress, AtTimeout);
      } else if IsPartial(progressPersisted, true) {
        assert false;
      }
      return;
    }
    r := r.(core := CoreDone(core.value));
    status, progress, counters, ok := PersistResult(store, w, run, c.scanEnd, core.value, faults);
  }

  /** Page requests one window of a run may cost. */
  function PagesCost(c: RunnerConfig): nat {
    if c.maxTxPages >= 1 && c.maxRetries >= 0 then WindowCost(c.maxTxPages, c.maxRetries) else 0
  }

  /** The deferred finalization, with the reason a window marked incomplete must have. */
  method FinalizeRun(store: PostgresStore, run: SyncRunId, status: WalletStatus, progress: WalletSyncProgress, faults: StoreCall -> bool)
    returns (ok: bool)
    modifies store
    ensures var g, reason := progress, RecordedReason(progress);
            var fails := faults(Finalize) || run !in old(store.tables).syncRows || !Reasoned(g.incompleteWindow, reason);
            && store.tables == (if fails then old(store.tables) else WithFinal(old(store.tables), run, status, g.incompleteWindow, reason))
            && store.log == old(store.log) + [Entry(Finalize, !fails)] && ok == !fails
  {
    var incomplete, reason := progress.incompleteWindow, progress.unknownGateReason;
    if incomplete && Blank(reason) { reason := INCOMPLETE_WITHOUT_REASON; }
    var err := store.FinalizeWalletSyncRun(run, status, incomplete, reason, faults(Finalize));
    ok := err.None?;
  }

  /** One wallet, end to end. The tables, the calls and the report are those of `Execute`, for the failures met. */
  method RunWallet(client: Fetch.Client, store: PostgresStore, table: seq<DustRules.ThresholdRow>, address: Address, ingestionRun: nat,
                   c: RunnerConfig, faults: StoreCall -> bool, expired: bool)
    returns (report: WalletRunReport, ok: bool, ghost r: WalletRun)
    requires Fetch.NewestFirst(client.History(address))
    modifies store, client`attempts
    ensures r.address == address && r.ingestionRun == ingestionRun && r.scanEnd == c.scanEnd && r.faults == faults
    ensures if Opens(r) then Met(client, table, c, expired, r, old(client.attempts), client.attempts) else r.core.CoreFailed?
    ensures var e := Execute(old(store.tables), r);
            && store.tables == e.tables && store.log == old(store.log) + e.log && report == e.report && ok == e.ok
    ensures old(client.attempts) <= client.attempts <= old(client.attempts) + 2 * PagesCost(c)
  {
    hide Body, WithFinal, Reasoned, Met;
    report, ok := FAILED_REPORT, false;
    r := WalletRun(address, ingestionRun, c.scanEnd, faults, false, CoreFailed(false));
    if Blank(address) { return; }
    if ingestionRun == 0 { return; }
    var w := store.EnsureWallet(address, faults(StoreCall.EnsureWallet));
    if w.Failure? { return; }
    var run := store.CreateWalletSyncRun(faults(CreateSyncRun));
    if run.Failure? { return; }
    var status, progress, counters, bodyOk, body := RunBody(client, store, table, address, w.value, run.value, c, faults, expired, ingestionRun);
    r := body;
    var finalized := FinalizeRun(store, run.value, status, progress, faults);
    report := Orchestrator.WalletRunReport(status, progress.incompleteWindow, !Blank(progress.truncationReason), counters);
    ok := bodyOk && finalized;
  }
}
