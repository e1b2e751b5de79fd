/** What one wallet run does to the tables, call by call, for any pattern of failing calls. */
module Execution {
  import opened Wrappers
  import opened Text
  import opened Transfers
  import opened Counterparties
  import opened Reasons
  import opened Materialize
  import opened CoreSync
  import opened Store
  import Fetch
  import Orchestrator

  type WalletStatus = Orchestrator.WalletStatus
  type WalletCounters = Orchestrator.WalletCounters
  type WalletRunReport = Orchestrator.WalletRunReport

  /** Where a run broke off with something to record about its window. */
  datatype FailurePoint = AtLink | AtCounterparty | AtCandidates | AtProgress | AtMetadata | AtTimeout

  function FailureReason(f: FailurePoint): string {
    match f
    case AtLink => GATE_PREFIX + "wallet_link_persistence_failed"
    case AtCounterparty => GATE_PREFIX + "counterparty_persistence_failed"
    case AtCandidates => GATE_PREFIX + "candidate_persistence_failed"
    case AtProgress => GATE_PREFIX + "wallet_progress_persistence_failed"
    case AtMetadata => GATE_PREFIX + "wallet_metadata_update_failed"
    case AtTimeout => GATE_PREFIX + "wallet_runner_timeout"
  }

  const INCOMPLETE_WINDOW := GATE_PREFIX + "incomplete_window"
  const INCOMPLETE_WITHOUT_REASON := GATE_PREFIX + "runner_incomplete_without_reason"

  lemma PrefixedIsNotBlank(s: string)
    ensures !Blank(GATE_PREFIX + s)
  {
    assert (GATE_PREFIX + s)[0] == 'u';
    NotBlank(GATE_PREFIX + s);
  }

  lemma ReasonsAreNotBlank()
    ensures forall f: FailurePoint :: !Blank(FailureReason(f))
    ensures !Blank(INCOMPLETE_WINDOW) && !Blank(INCOMPLETE_WITHOUT_REASON)
  {
    forall f: FailurePoint ensures !Blank(FailureReason(f)) {
      match f {
        case AtLink => PrefixedIsNotBlank("wallet_link_persistence_failed");
        case AtCounterparty => PrefixedIsNotBlank("counterparty_persistence_failed");
        case AtCandidates => PrefixedIsNotBlank("candidate_persistence_failed");
        case AtProgress => PrefixedIsNotBlank("wallet_progress_persistence_failed");
        case AtMetadata => PrefixedIsNotBlank("wallet_metadata_update_failed");
        case AtTimeout => PrefixedIsNotBlank("wallet_runner_timeout");
      }
    }
    PrefixedIsNotBlank("incomplete_window");
    PrefixedIsNotBlank("runner_incomplete_without_reason");
  }

  /** How the core sync of a run ended; `deadline` says whether the wallet's context had expired. */
  datatype CoreOutcome = CoreDone(result: CoreSyncResult) | CoreFailed(deadline: bool)

  /** One run: which calls fail, whether the threshold rows are accepted, and what the core sync yields. */
  datatype WalletRun = WalletRun(
    address: Address, ingestionRun: nat, scanEnd: int, faults: StoreCall -> bool, rulesAccepted: bool, core: CoreOutcome)

  /** The run creates its sync row. */
  predicate Opens(r: WalletRun) {
    !Blank(r.address) && r.ingestionRun != 0 && !r.faults(EnsureWallet) && !r.faults(CreateSyncRun)
  }

  // ---- Transfers ----

  /** The first transfer of every identity. */
  function Deduped(transfers: seq<NormalizedTransfer>): seq<NormalizedTransfer> {
    if transfers == [] then []
    else
      var before, tr := Deduped(transfers[..|transfers| - 1]), transfers[|transfers| - 1];
      if exists x :: x in before && KeyOf(x) == KeyOf(tr) then before else before + [tr]
  }

  /** Transfer `i` is the first of its identity. */
  predicate FirstAt(transfers: seq<NormalizedTransfer>, i: nat)
    requires i < |transfers|
  {
    forall j :: 0 <= j < i ==> KeyOf(transfers[j]) != KeyOf(transfers[i])
  }

  lemma {:induction false} DedupedKey(transfers: seq<NormalizedTransfer>, k: TxKey)
    ensures (exists x :: x in Deduped(transfers) && KeyOf(x) == k) <==> exists y :: y in transfers && KeyOf(y) == k
  {
    if transfers != [] {
      var init, last := transfers[..|transfers| - 1], transfers[|transfers| - 1];
      assert transfers == init + [last];
      DedupedKey(init, k);
      assert forall y :: y in transfers <==> y in init || y == last;
      assert forall x :: x in Deduped(init) + [last] <==> x in Deduped(init) || x == last;
    }
  }

  lemma FirstAtEnd(transfers: seq<NormalizedTransfer>, n: nat)
    requires n == |transfers| - 1
    ensures FirstAt(transfers, n) <==> !exists x :: x in Deduped(transfers[..n]) && KeyOf(x) == KeyOf(transfers[n])
  {
    DedupedKey(transfers[..n], KeyOf(transfers[n]));
    hide Deduped;
    if y :| y in transfers[..n] && KeyOf(y) == KeyOf(transfers[n]) {
      var j :| 0 <= j < n && transfers[..n][j] == y;
      assert KeyOf(transfers[j]) == KeyOf(transfers[n]);
    } else {
      assert forall j :: 0 <= j < n ==> transfers[j] in transfers[..n];
    }
  }

  /** `at` tells, in order, where the first transfer of each identity stands, and `kept` are these transfers. */
  ghost predicate FirstPlaces(transfers: seq<NormalizedTransfer>, at: seq<nat>, kept: seq<NormalizedTransfer>) {
    && |at| == |kept|
    && (forall k :: 0 <= k < |at| ==> at[k] < |transfers| && transfers[at[k]] == kept[k])
    && (forall k, l :: 0 <= k < l < |at| ==> at[k] < at[l])
    && (forall i: nat :: i < |transfers| ==> (i in at <==> FirstAt(transfers, i)))
  }

  lemma OneMorePlace(transfers: seq<NormalizedTransfer>, n: nat, at: seq<nat>, kept: seq<NormalizedTransfer>)
    requires n == |transfers| - 1 && FirstPlaces(transfers[..n], at, kept)
    ensures FirstAt(transfers, n) ==> FirstPlaces(transfers, at + [n], kept + [transfers[n]])
    ensures !FirstAt(transfers, n) ==> FirstPlaces(transfers, at, kept)
  {
    var init := transfers[..n];
    forall i: nat | i < n ensures FirstAt(transfers, i) <==> FirstAt(init, i) {}
    hide FirstAt;
    forall i | i in at ensures i < n {
      var k :| 0 <= k < |at| && at[k] == i;
    }
    assert forall i: nat :: i in at + [n] <==> i in at || i == n;
  }

  /** The kept transfers are the first of their identities, in the order they came in. */
  lemma {:induction false} DedupedMeaning(transfers: seq<NormalizedTransfer>) returns (at: seq<nat>)
    ensures FirstPlaces(transfers, at, Deduped(transfers))
  {
    at := [];
    if transfers != [] {
      var n := |transfers| - 1;
      at := DedupedMeaning(transfers[..n]);
      FirstAtEnd(transfers, n);
      OneMorePlace(transfers, n, at, Deduped(transfers[..n]));
      hide FirstPlaces;
      if FirstAt(transfers, n) { at := at + [n]; }
    }
  }

  // ---- Links and counterparties ----

  function LinkOf(w: WalletId, o: Observation): Link { Link(w, KeyOf(o.transfer), o.relation) }

  function EventOf(o: Observation): Event { Event(o.counterparty, o.relation, o.transfer.blockTime) }

  /** A counterparty upsert that took effect, and the new link it was made for. */
  datatype Posting = Posting(link: Link, event: Event)

  /** The loop over the observations; `lost` holds the links whose counterparty upsert failed. */
  datatype LinkState = LinkState(
    tables: Tables, log: seq<Entry>, linked: nat, created: nat, updated: nat,
    postings: seq<Posting>, lost: set<Link>, failed: Option<FailurePoint>)

  function UpsertOne(s: LinkState, w: WalletId, o: Observation, i: nat, faults: StoreCall -> bool): LinkState {
    var call := UpsertCounterparty(i);
    if faults(call) || w == 0 || o.counterparty == "" then
      s.(log := s.log + [Entry(call, false)], lost := s.lost + {LinkOf(w, o)}, failed := Some(AtCounterparty))
    else
      var k := CounterpartyKey(w, o.counterparty);
      var isNew := k !in s.tables.counterparties;
      s.(tables := s.tables.(counterparties := Upsert(s.tables.counterparties, k, EventOf(o))),
         log := s.log + [Entry(call, true)], postings := s.postings + [Posting(LinkOf(w, o), EventOf(o))],
         created := if isNew then s.created + 1 else s.created, updated := if isNew then s.updated else s.updated + 1)
  }

  function LinkOne(s: LinkState, w: WalletId, o: Observation, i: nat, faults: StoreCall -> bool): LinkState {
    var call := LinkTransfer(i);
    if faults(call) || KeyOf(o.transfer) !in s.tables.transfers then
      s.(log := s.log + [Entry(call, false)], failed := Some(AtLink))
    else
      var linked := s.(log := s.log + [Entry(call, true)]);
      if LinkOf(w, o) in s.tables.links then linked
      else UpsertOne(linked.(tables := s.tables.(links := s.tables.links + {LinkOf(w, o)}), linked := s.linked + 1), w, o, i, faults)
  }

  /** The first `n` observations, stopping at the first failure. */
  function LinkAll(t: Tables, w: WalletId, obs: seq<Observation>, n: nat, faults: StoreCall -> bool): LinkState
    requires n <= |obs|
  {
    if n == 0 then LinkState(t, [], 0, 0, 0, [], {}, None)
    else
      var s := LinkAll(t, w, obs, n - 1, faults);
      if s.failed.Some? then s else LinkOne(s, w, obs[n - 1], n - 1, faults)
  }

  // ---- Progress ----

  const NO_PROGRESS := WalletSyncProgress(false, false, "", "", NO_COUNTS)

  /** Marks a window incomplete and adds why. */
  ghost function Spoiled(g: WalletSyncProgress, f: FailurePoint): WalletSyncProgress {
    g.(incompleteWindow := true, unknownGateReason := Merged([g.unknownGateReason, FailureReason(f)]))
  }

  function MergedTruncation(baseline: Option<Fetch.TruncationCode>, scan: Option<Fetch.TruncationCode>): string {
    if baseline.None? then TruncationReason("scan", scan)
    else if scan.None? then TruncationReason("baseline", baseline)
    else TruncationReason("baseline", baseline) + ";" + TruncationReason("scan", scan)
  }

  /** The reason a run without failures records. */
  ghost function FinalReason(res: CoreSyncResult, incomplete: bool): string {
    var reason := if MergedTruncation(res.baselineTruncation, res.scanTruncation) == "" then res.unknownGateReason
                  else Merged([res.unknownGateReason, TruncationReason("baseline", res.baselineTruncation), TruncationReason("scan", res.scanTruncation)]);
    if incomplete && Blank(reason) then INCOMPLETE_WINDOW else reason
  }

  ghost function FinalProgress(res: CoreSyncResult, c: WalletCounters): WalletSyncProgress {
    var truncation := MergedTruncation(res.baselineTruncation, res.scanTruncation);
    var incomplete := res.incompleteWindow || truncation != "";
    WalletSyncProgress(
      res.baselineComplete, incomplete, FinalReason(res, incomplete), truncation,
      SyncCounts(res.transactionsFetched, c.inserted, c.linked, res.failedNormalize, c.counterpartiesCreated, c.counterpartiesUpdated,
                 res.unsupportedAsset, res.unknownGateBlocks, res.candidateBlocks, c.candidatesInserted))
  }

  function CoreCounters(res: CoreSyncResult): WalletCounters {
    Orchestrator.ZERO_COUNTERS.(
      fetched := res.transactionsFetched, failedNormalize := res.failedNormalize, ownerUnresolved := res.ownerUnresolved,
      unsupportedAsset := res.unsupportedAsset, decimalsUnresolved := res.decimalsUnresolved,
      unknownGateBlocks := res.unknownGateBlocks, candidateBlocks := res.candidateBlocks,
      retryExhausted := if res.retryExhausted then 1 else 0)
  }

  // ---- The body of a run, up to its finalization ----

  datatype Stage = Stage(
    tables: Tables, log: seq<Entry>, status: WalletStatus, progress: WalletSyncProgress, counters: WalletCounters, ok: bool,
    postings: seq<Posting>, lost: set<Link>)

  /** After progress is stored: the wallet's synchronization time. */
  ghost function Touch(s: Stage, w: WalletId, scanEnd: int, faults: StoreCall -> bool): Stage {
    if faults(UpdateLastSynced) || w !in s.tables.wallets.Values then
      s.(log := s.log + [Entry(UpdateLastSynced, false)], status := Orchestrator.Partial, progress := Spoiled(s.progress, AtMetadata))
    else
      s.(tables := WithLastSynced(s.tables, w, scanEnd), log := s.log + [Entry(UpdateLastSynced, true)],
         status := if s.progress.incompleteWindow then Orchestrator.Partial else Orchestrator.Succeeded, ok := true)
  }

  /** After the candidates are stored: the progress row. */
  ghost function Record(s: Stage, w: WalletId, run: SyncRunId, scanEnd: int, faults: StoreCall -> bool): Stage {
    var g := s.progress;
    if faults(UpdateProgress) || run !in s.tables.syncRows || !Reasoned(g.incompleteWindow, g.unknownGateReason) then
      s.(log := s.log + [Entry(UpdateProgress, false)], status := Orchestrator.Partial, progress := Spoiled(g, AtProgress))
    else
      Touch(s.(tables := WithProgress(s.tables, run, g), log := s.log + [Entry(UpdateProgress, true)]), w, scanEnd, faults)
  }

  /** After the links and counterparties: the candidates. */
  ghost function StoreCandidates(s: Stage, w: WalletId, run: SyncRunId, scanEnd: int, res: CoreSyncResult, faults: StoreCall -> bool): Stage {
    if faults(InsertCandidates) && res.candidates != [] then
      s.(log := s.log + [Entry(InsertCandidates, false)], status := Orchestrator.Partial, progress := Spoiled(NO_PROGRESS, AtCandidates))
    else
      var rows := InsertAll(s.tables.candidates, run, w, res.candidates);
      var counters := s.counters.(candidatesInserted := Grown(s.tables.candidates, rows));
      Record(s.(tables := s.tables.(candidates := rows), log := s.log + [Entry(InsertCandidates, true)], counters := counters,
                progress := FinalProgress(res, counters)), w, run, scanEnd, faults)
  }

  function Grown<K, V>(before: map<K, V>, after: map<K, V>): nat {
    if |before| <= |after| then |after| - |before| else 0
  }

  function Observations(res: CoreSyncResult): seq<Observation> { res.baselineObservations + res.scanObservations }

  /** Baseline observations are linked before those of the scan. */
  lemma BaselineFirst(res: CoreSyncResult)
    ensures var n := |res.baselineObservations|;
            |Observations(res)| == n + |res.scanObservations|
            && Observations(res)[..n] == res.baselineObservations && Observations(res)[n..] == res.scanObservations
  {
  }

  /** Persists a core result: transfers, links and counterparties, candidates, progress, synchronization time. */
  ghost function Persist(t: Tables, w: WalletId, run: SyncRunId, scanEnd: int, res: CoreSyncResult, faults: StoreCall -> bool): Stage {
    var transfers := Deduped(res.baselineTransfers + res.scanTransfers);
    if faults(UpsertTransfers) && transfers != [] then
      Stage(t, [Entry(UpsertTransfers, false)], Orchestrator.Failed, NO_PROGRESS, CoreCounters(res), false, [], {})
    else
      var rows := UpsertAll(t.transfers, transfers);
      var s := LinkAll(t.(transfers := rows), w, Observations(res), |Observations(res)|, faults);
      var counters := CoreCounters(res).(
        inserted := Grown(t.transfers, rows), linked := s.linked, counterpartiesCreated := s.created, counterpartiesUpdated := s.updated);
      var stage := Stage(s.tables, [Entry(UpsertTransfers, true)] + s.log, Orchestrator.Partial,
                         if s.failed.Some? then Spoiled(NO_PROGRESS, s.failed.value) else NO_PROGRESS, counters, false, s.postings, s.lost);
      if s.failed.Some? then stage else StoreCandidates(stage, w, run, scanEnd, res, faults)
  }

  ghost function Body(t: Tables, w: WalletId, run: SyncRunId, r: WalletRun): Stage {
    var listed := !r.faults(ListThresholds);
    var stopped := Stage(t, [Entry(ListThresholds, listed)], Orchestrator.Failed, NO_PROGRESS, Orchestrator.ZERO_COUNTERS, false, [], {});
    if !listed || !r.rulesAccepted then stopped
    else match r.core
         case CoreFailed(deadline) =>
           if deadline then stopped.(status := Orchestrator.TimedOut, progress := Spoiled(NO_PROGRESS, AtTimeout)) else stopped
         case CoreDone(res) =>
           var s := Persist(t, w, run, r.scanEnd, res, r.faults);
           s.(log := [Entry(ListThresholds, true)] + s.log)
  }

  // ---- The whole run ----

  datatype Execution = Execution(
    tables: Tables, log: seq<Entry>, report: WalletRunReport, ok: bool, postings: seq<Posting>, lost: set<Link>)

  const FAILED_REPORT := Orchestrator.WalletRunReport(Orchestrator.Failed, false, false, Orchestrator.ZERO_COUNTERS)

  function RecordedReason(g: WalletSyncProgress): string {
    if g.incompleteWindow && Blank(g.unknownGateReason) then INCOMPLETE_WITHOUT_REASON else g.unknownGateReason
  }

  /** The deferred finalization. */
  ghost function Finish(s: Stage, run: SyncRunId, faults: StoreCall -> bool): Execution {
    var g, reason := s.progress, RecordedReason(s.progress);
    var fails := faults(Finalize) || run !in s.tables.syncRows || !Reasoned(g.incompleteWindow, reason);
    Execution(
      if fails then s.tables else WithFinal(s.tables, run, s.status, g.incompleteWindow, reason),
      s.log + [Entry(Finalize, !fails)],
      Orchestrator.WalletRunReport(s.status, g.incompleteWindow, !Blank(g.truncationReason), s.counters),
      s.ok && !fails, s.postings, s.lost)
  }

  /** The tables, calls and report of a run that starts from `t`. */
  ghost function Execute(t: Tables, r: WalletRun): Execution {
    if Blank(r.address) || r.ingestionRun == 0 then Execution(t, [], FAILED_REPORT, false, [], {})
    else if r.faults(EnsureWallet) then Execution(t, [Entry(EnsureWallet, false)], FAILED_REPORT, false, [], {})
    else
      var t1 := WithWallet(t, r.address);
      if r.faults(CreateSyncRun) then Execution(t1, [Entry(EnsureWallet, true), Entry(CreateSyncRun, false)], FAILED_REPORT, false, [], {})
      else
        var e := Finish(Body(WithSyncRun(t1), t1.wallets[r.address], t1.nextRun, r), t1.nextRun, r.faults);
        e.(log := [Entry(EnsureWallet, true), Entry(CreateSyncRun, true)] + e.log)
  }
}
