/** The sync row of every run: never incomplete without a reason, finalized once, and honest about success. */
module SyncRows {
  import opened Wrappers
  import opened Text
  import opened Reasons
  import opened Transfers
  import opened CoreSync
  import opened Materialize
  import opened Store
  import opened Execution
  import opened Persistence
  import RunHistory
  import Orchestrator

  /** A window is marked incomplete exactly when a reason is stored, and the reason is not blank. */
  predicate RowSound(row: SyncRow) {
    && (row.incompleteWindow <==> row.unknownGateReason.Some?)
    && (row.unknownGateReason.Some? ==> !Blank(row.unknownGateReason.value))
  }

  ghost predicate RowsSound(t: Tables) { forall run :: run in t.syncRows ==> RowSound(t.syncRows[run]) }

  /** Progress that may be written: an incomplete window has a reason. */
  predicate ProgressSound(g: WalletSyncProgress) { g.incompleteWindow ==> !Blank(g.unknownGateReason) }

  lemma SpoiledIsSound(g: WalletSyncProgress, f: FailurePoint)
    ensures ProgressSound(Spoiled(g, f)) && Spoiled(g, f).incompleteWindow
  {
    ReasonsAreNotBlank();
    hide FailureReason, Blank;
    var parts := [g.unknownGateReason, FailureReason(f)];
    MergedMeaning(parts, parts);
    assert parts[1] in parts;
  }

  lemma FinalProgressIsSound(res: CoreSyncResult, c: WalletCounters)
    ensures ProgressSound(FinalProgress(res, c))
  {
    hide MergedTruncation, Blank, Merged;
    ReasonsAreNotBlank();
  }

  /** A row written with a sound reason is sound, and the table's CHECK accepts it. */
  lemma SoundReasonIsStored(incomplete: bool, reason: string)
    requires incomplete ==> !Blank(reason)
    ensures Reasoned(incomplete, reason)
    ensures StoredReason(incomplete, reason).Some? <==> incomplete
    ensures incomplete ==> StoredReason(incomplete, reason) == Some(reason)
  {
    if incomplete { NonBlankIsReasoned(reason); }
  }

  // ---- The rows a run writes ----

  /** The run's row is still open, and every row is sound. */
  ghost predicate OpenAt(t: Tables, run: SyncRunId) {
    run in t.syncRows && RowsSound(t) && t.syncRows[run].status == Orchestrator.Running && !t.syncRows[run].completed
  }

  /** Between the creation of a row and its finalization only progress is written, and it is sound. */
  lemma RecordKeepsOpen(s: Stage, w: WalletId, run: SyncRunId, scanEnd: int, faults: StoreCall -> bool)
    requires OpenAt(s.tables, run) && ProgressSound(s.progress)
    ensures var after := Record(s, w, run, scanEnd, faults);
            OpenAt(after.tables, run) && ProgressSound(after.progress)
  {
    hide Spoiled, Blank, Reasoned, StoredReason;
    var g := s.progress;
    SoundReasonIsStored(g.incompleteWindow, g.unknownGateReason);
    SpoiledIsSound(g, AtProgress);
    SpoiledIsSound(g, AtMetadata);
  }

  lemma CandidatesKeepOpen(s: Stage, w: WalletId, run: SyncRunId, scanEnd: int, res: CoreSyncResult, faults: StoreCall -> bool)
    requires OpenAt(s.tables, run)
    ensures var after := StoreCandidates(s, w, run, scanEnd, res, faults);
            OpenAt(after.tables, run) && ProgressSound(after.progress)
  {
    hide Spoiled, Blank, InsertAll, Record, FinalProgress;
    SpoiledIsSound(NO_PROGRESS, AtCandidates);
    var rows := InsertAll(s.tables.candidates, run, w, res.candidates);
    var counters := s.counters.(candidatesInserted := Grown(s.tables.candidates, rows));
    FinalProgressIsSound(res, counters);
    RecordKeepsOpen(s.(tables := s.tables.(candidates := rows), log := s.log + [Entry(InsertCandidates, true)], counters := counters,
                       progress := FinalProgress(res, counters)), w, run, scanEnd, faults);
  }

  lemma PersistKeepsOpen(t: Tables, w: WalletId, run: SyncRunId, scanEnd: int, res: CoreSyncResult, faults: StoreCall -> bool)
    requires OpenAt(t, run)
    ensures var s := Persist(t, w, run, scanEnd, res, faults);
            OpenAt(s.tables, run) && ProgressSound(s.progress)
  {
    hide Spoiled, Blank, LinkAll, UpsertAll, Deduped, StoreCandidates;
    var rows, obs := UpsertAll(t.transfers, Deduped(res.baselineTransfers + res.scanTransfers)), Observations(res);
    var s := LinkAll(t.(transfers := rows), w, obs, |obs|, faults);
    LinkAllFrame(t.(transfers := rows), w, obs, |obs|, faults);
    if s.failed.Some? {
      SpoiledIsSound(NO_PROGRESS, s.failed.value);
    } else {
      var counters := CoreCounters(res).(
        inserted := Grown(t.transfers, rows), linked := s.linked, counterpartiesCreated := s.created, counterpartiesUpdated := s.updated);
      var stage := Stage(s.tables, [Entry(UpsertTransfers, true)] + s.log, Orchestrator.Partial, NO_PROGRESS, counters, false, s.postings, s.lost);
      CandidatesKeepOpen(stage, w, run, scanEnd, res, faults);
    }
  }

  lemma BodyKeepsOpen(t: Tables, w: WalletId, run: SyncRunId, r: WalletRun)
    requires OpenAt(t, run)
    ensures var s := Body(t, w, run, r); OpenAt(s.tables, run) && ProgressSound(s.progress)
  {
    hide Spoiled, Blank, Persist;
    SpoiledIsSound(NO_PROGRESS, AtTimeout);
    if r.core.CoreDone? { PersistKeepsOpen(t, w, run, r.scanEnd, r.core.result, r.faults); }
  }

  /** The row of a run that opening one. */
  function RunOf(t: Tables, r: WalletRun): SyncRunId { WithWallet(t, r.address).nextRun }

  /** A run's row after a finalization that the database accepted, or refused. */
  predicate Settled(row: SyncRow, report: WalletRunReport, refused: bool) {
    if refused then row.status == Orchestrator.Running && !row.completed
    else row.status == report.status && row.completed && row.incompleteWindow == report.incompleteWindow
  }

  /** Finalization depends on nothing but the database, and settles the row. */
  lemma FinishSettles(s: Stage, run: SyncRunId, faults: StoreCall -> bool)
    requires OpenAt(s.tables, run) && ProgressSound(s.progress)
    ensures var e := Finish(s, run, faults);
            && RowsSound(e.tables) && run in e.tables.syncRows
            && Settled(e.tables.syncRows[run], e.report, faults(Finalize))
            && e.log == s.log + [Entry(Finalize, !faults(Finalize))]
            && e.ok == (s.ok && !faults(Finalize))
            && e.report.status == s.status && e.report.incompleteWindow == s.progress.incompleteWindow
  {
    hide Blank, Reasoned, StoredReason;
    SoundReasonIsStored(s.progress.incompleteWindow, s.progress.unknownGateReason);
  }

  lemma FreshRowIsOpen(t: Tables)
    requires RowsSound(t)
    ensures OpenAt(WithSyncRun(t), t.nextRun)
  {
  }

  /** Whatever fails, a run leaves every sync row sound and its own row settled. */
  lemma RunSettlesItsRow(t: Tables, r: WalletRun)
    requires RowsSound(t)
    ensures var e := Execute(t, r);
            && RowsSound(e.tables)
            && (Opens(r) ==> RunOf(t, r) in e.tables.syncRows && Settled(e.tables.syncRows[RunOf(t, r)], e.report, r.faults(Finalize)))
            && (!Opens(r) ==> e.tables.syncRows == t.syncRows)
  {
    hide Body, Finish, RowSound, Settled;
    if Opens(r) {
      var t1 := WithWallet(t, r.address);
      FreshRowIsOpen(t1);
      BodyKeepsOpen(WithSyncRun(t1), t1.wallets[r.address], t1.nextRun, r);
      FinishSettles(Body(WithSyncRun(t1), t1.wallets[r.address], t1.nextRun, r), t1.nextRun, r.faults);
    }
  }

  /** The condition under which the API refuses to list sync rows. */
  predicate ApiRefuses(row: SyncRow) {
    row.incompleteWindow && Blank(if row.unknownGateReason.Some? then row.unknownGateReason.value else "")
  }

  /** After any runs with any failures every sync row is sound, so the API never refuses one. */
  lemma {:induction false} HistoryRowsSound(runs: seq<WalletRun>)
    ensures var t := RunHistory.RunAll(runs).tables;
            RowsSound(t) && forall run :: run in t.syncRows ==> !ApiRefuses(t.syncRows[run])
  {
    hide Execute, Blank;
    if runs != [] {
      HistoryRowsSound(runs[..|runs| - 1]);
      RunSettlesItsRow(RunHistory.RunAll(runs[..|runs| - 1]).tables, runs[|runs| - 1]);
    }
  }

  // ---- What the status says about the calls ----

  ghost predicate AllOk(log: seq<Entry>) { forall e :: e in log ==> e.ok }

  ghost predicate NoFinalize(log: seq<Entry>) { forall e :: e in log ==> e.call != Finalize }

  lemma LogAppend(a: seq<Entry>, b: seq<Entry>)
    ensures AllOk(a + b) <==> AllOk(a) && AllOk(b)
    ensures NoFinalize(a + b) <==> NoFinalize(a) && NoFinalize(b)
  {
    assert forall e :: e in a + b <==> e in a || e in b;
  }

  lemma {:induction false} LoopLog(t: Tables, w: WalletId, obs: seq<Observation>, n: nat, faults: StoreCall -> bool)
    requires n <= |obs|
    ensures var s := LinkAll(t, w, obs, n, faults);
            NoFinalize(s.log) && (s.failed.None? <==> AllOk(s.log))
  {
    hide AllOk, NoFinalize, LinkOne;
    if n == 0 {
      EmptyLog();
    } else {
      LoopLog(t, w, obs, n - 1, faults);
      var s := LinkAll(t, w, obs, n - 1, faults);
      if s.failed.None? { LinkOneLog(s, w, obs[n - 1], n - 1, faults); }
    }
  }

  lemma EmptyLog()
    ensures AllOk([]) && NoFinalize([])
  {
  }

  lemma LinkOneLog(s: LinkState, w: WalletId, o: Observation, i: nat, faults: StoreCall -> bool)
    requires s.failed.None? && NoFinalize(s.log) && AllOk(s.log)
    ensures var next := LinkOne(s, w, o, i, faults);
            NoFinalize(next.log) && (next.failed.None? <==> AllOk(next.log))
  {
    var ok, call := LinkTransfer(i), UpsertCounterparty(i);
    LogAppend(s.log, [Entry(ok, true)]);
    LogAppend(s.log, [Entry(ok, false)]);
    LogAppend(s.log + [Entry(ok, true)], [Entry(call, true)]);
    LogAppend(s.log + [Entry(ok, true)], [Entry(call, false)]);
    assert Entry(ok, false) in [Entry(ok, false)] && Entry(call, false) in [Entry(call, false)];
  }

  /** Every call so far succeeded, and the run is not over. */
  ghost predicate Pending(s: Stage) { NoFinalize(s.log) && AllOk(s.log) && !s.ok }

  predicate WindowIncomplete(res: CoreSyncResult) {
    res.incompleteWindow || res.baselineTruncation.Some? || res.scanTruncation.Some?
  }

  /** The stage is over: it is fine exactly when every call succeeded, and succeeded exactly when the window is whole too. */
  ghost predicate Honest(s: Stage, res: CoreSyncResult) {
    && NoFinalize(s.log) && (s.ok <==> AllOk(s.log)) && s.status != Orchestrator.TimedOut
    && (s.status == Orchestrator.Succeeded <==> s.ok && !WindowIncomplete(res))
    && (s.ok ==> (s.progress.incompleteWindow <==> WindowIncomplete(res)))
  }

  lemma CallLog(log: seq<Entry>, call: StoreCall)
    requires NoFinalize(log) && AllOk(log) && call != Finalize
    ensures NoFinalize(log + [Entry(call, true)]) && AllOk(log + [Entry(call, true)])
    ensures NoFinalize(log + [Entry(call, false)]) && !AllOk(log + [Entry(call, false)])
  {
    LogAppend(log, [Entry(call, true)]);
    LogAppend(log, [Entry(call, false)]);
    assert Entry(call, false) in [Entry(call, false)];
  }

  lemma RecordIsHonest(s: Stage, w: WalletId, run: SyncRunId, scanEnd: int, res: CoreSyncResult, faults: StoreCall -> bool)
    requires Pending(s) && (s.progress.incompleteWindow <==> WindowIncomplete(res))
    ensures Honest(Record(s, w, run, scanEnd, faults), res)
  {
    hide AllOk, NoFinalize, Spoiled, Reasoned, StoredReason, WindowIncomplete;
    CallLog(s.log, UpdateProgress);
    CallLog(s.log + [Entry(UpdateProgress, true)], UpdateLastSynced);
  }

  lemma TruncationShows(res: CoreSyncResult)
    ensures MergedTruncation(res.baselineTruncation, res.scanTruncation) != "" <==> res.baselineTruncation.Some? || res.scanTruncation.Some?
  {
    assert Blank("");
  }

  lemma CandidatesAreHonest(s: Stage, w: WalletId, run: SyncRunId, scanEnd: int, res: CoreSyncResult, faults: StoreCall -> bool)
    requires Pending(s)
    ensures Honest(StoreCandidates(s, w, run, scanEnd, res, faults), res)
  {
    hide AllOk, NoFinalize, Spoiled, InsertAll, Record, MergedTruncation, FinalReason;
    CallLog(s.log, InsertCandidates);
    TruncationShows(res);
    var rows := InsertAll(s.tables.candidates, run, w, res.candidates);
    var counters := s.counters.(candidatesInserted := Grown(s.tables.candidates, rows));
    RecordIsHonest(s.(tables := s.tables.(candidates := rows), log := s.log + [Entry(InsertCandidates, true)], counters := counters,
                      progress := FinalProgress(res, counters)), w, run, scanEnd, res, faults);
  }

  lemma PersistIsHonest(t: Tables, w: WalletId, run: SyncRunId, scanEnd: int, res: CoreSyncResult, faults: StoreCall -> bool)
    ensures Honest(Persist(t, w, run, scanEnd, res, faults), res)
  {
    hide AllOk, NoFinalize, Spoiled, LinkAll, UpsertAll, Deduped, StoreCandidates;
    EmptyLog();
    CallLog([], UpsertTransfers);
    assert [] + [Entry(UpsertTransfers, true)] == [Entry(UpsertTransfers, true)] && [] + [Entry(UpsertTransfers, false)] == [Entry(UpsertTransfers, false)];
    var rows, obs := UpsertAll(t.transfers, Deduped(res.baselineTransfers + res.scanTransfers)), Observations(res);
    var s := LinkAll(t.(transfers := rows), w, obs, |obs|, faults);
    LoopLog(t.(transfers := rows), w, obs, |obs|, faults);
    LogAppend([Entry(UpsertTransfers, true)], s.log);
    if s.failed.None? {
      var counters := CoreCounters(res).(
        inserted := Grown(t.transfers, rows), linked := s.linked, counterpartiesCreated := s.created, counterpartiesUpdated := s.updated);
      var stage := Stage(s.tables, [Entry(UpsertTransfers, true)] + s.log, Orchestrator.Partial, NO_PROGRESS, counters, false, s.postings, s.lost);
      CandidatesAreHonest(stage, w, run, scanEnd, res, faults);
    }
  }

  /** How a body ends, for every outcome of the core. */
  ghost predicate BodyHonest(s: Stage, r: WalletRun) {
    && NoFinalize(s.log)
    && (s.ok <==> AllOk(s.log) && r.rulesAccepted && r.core.CoreDone?)
    && (s.status == Orchestrator.Succeeded <==> s.ok && !WindowIncomplete(r.core.result))
    && (s.status == Orchestrator.TimedOut <==> !r.faults(ListThresholds) && r.rulesAccepted && r.core == CoreFailed(true))
    && (s.ok ==> (s.progress.incompleteWindow <==> WindowIncomplete(r.core.result)))
  }

  lemma BodyIsHonest(t: Tables, w: WalletId, run: SyncRunId, r: WalletRun)
    ensures BodyHonest(Body(t, w, run, r), r)
  {
    hide AllOk, NoFinalize, Spoiled, Persist, WindowIncomplete;
    EmptyLog();
    CallLog([], ListThresholds);
    var listed, refused := [Entry(ListThresholds, true)], [Entry(ListThresholds, false)];
    assert [] + listed == listed && [] + refused == refused;
    if r.core.CoreDone? {
      var s := Persist(t, w, run, r.scanEnd, r.core.result, r.faults);
      PersistIsHonest(t, w, run, r.scanEnd, r.core.result, r.faults);
      LogAppend(listed, s.log);
    }
  }

  /** How the whole run reads: its body between two opening calls and one finalization. */
  lemma RunReads(t: Tables, r: WalletRun)
    requires RowsSound(t) && Opens(r)
    ensures var t1 := WithWallet(t, r.address);
            var s, e := Body(WithSyncRun(t1), WalletOf(t, r), RunOf(t, r), r), Execute(t, r);
            && e.log == [Entry(EnsureWallet, true), Entry(CreateSyncRun, true)] + s.log + [Entry(Finalize, !r.faults(Finalize))]
            && e.ok == (s.ok && !r.faults(Finalize)) && e.report.status == s.status
            && e.report.incompleteWindow == s.progress.incompleteWindow && BodyHonest(s, r)
  {
    var t1 := WithWallet(t, r.address);
    FreshRowIsOpen(t1);
    hide Body, Finish, RowsSound, OpenAt, BodyHonest, RowSound;
    var s := Body(WithSyncRun(t1), WalletOf(t, r), RunOf(t, r), r);
    BodyKeepsOpen(WithSyncRun(t1), WalletOf(t, r), RunOf(t, r), r);
    BodyIsHonest(WithSyncRun(t1), WalletOf(t, r), RunOf(t, r), r);
    FinishSettles(s, RunOf(t, r), r.faults);
  }

  /** Once a run has a row, finalization is its last call, is attempted once, and fails only if the database refuses it.
      The run is fine exactly when every call succeeded on an accepted threshold table and a finished core sync. */
  lemma FinalizedOnce(t: Tables, r: WalletRun)
    requires RowsSound(t) && Opens(r)
    ensures var e := Execute(t, r);
            && e.log != [] && e.log[|e.log| - 1] == Entry(Finalize, !r.faults(Finalize)) && NoFinalize(e.log[..|e.log| - 1])
            && (e.ok <==> AllOk(e.log) && r.rulesAccepted && r.core.CoreDone?)
  {
    RunReads(t, r);
    hide AllOk, NoFinalize, Body, Execute, RowsSound, WindowIncomplete;
    var s := Body(WithSyncRun(WithWallet(t, r.address)), WalletOf(t, r), RunOf(t, r), r);
    var opening, final := [Entry(EnsureWallet, true), Entry(CreateSyncRun, true)], [Entry(Finalize, !r.faults(Finalize))];
    OpeningLog();
    LogAppend(opening, s.log);
    LogAppend(opening + s.log, final);
    FinalLog(!r.faults(Finalize));
    assert (opening + s.log + final)[..|opening + s.log|] == opening + s.log;
  }

  /** The row says succeeded exactly when the run was fine and its window whole, and timed out exactly when the
      deadline stopped the core. */
  lemma StatusIsExact(t: Tables, r: WalletRun)
    requires RowsSound(t) && Opens(r)
    ensures RunOf(t, r) in Execute(t, r).tables.syncRows
    ensures var e, row := Execute(t, r), Execute(t, r).tables.syncRows[RunOf(t, r)];
            && (row.status == Orchestrator.Succeeded <==> e.ok && !WindowIncomplete(r.core.result))
            && (row.status == Orchestrator.TimedOut <==>
                  !r.faults(Finalize) && !r.faults(ListThresholds) && r.rulesAccepted && r.core == CoreFailed(true))
            && (e.ok ==> row.completed && (row.incompleteWindow <==> WindowIncomplete(r.core.result)))
  {
    RunSettlesItsRow(t, r);
    RunReads(t, r);
    hide AllOk, NoFinalize, Body, Execute, RowsSound, WindowIncomplete;
  }

  lemma OpeningLog()
    ensures AllOk([Entry(EnsureWallet, true), Entry(CreateSyncRun, true)]) && NoFinalize([Entry(EnsureWallet, true), Entry(CreateSyncRun, true)])
  {
  }

  lemma FinalLog(ok: bool)
    ensures AllOk([Entry(Finalize, ok)]) <==> ok
  {
    assert Entry(Finalize, ok) in [Entry(Finalize, ok)];
  }

  // ---- What a failure leaves behind ----

  /** The gate that stands for a failed call. */
  function FailureName(call: StoreCall): string {
    match call
    case LinkTransfer(_) => GATE_PREFIX + "wallet_link_persistence_failed"
    case UpsertCounterparty(_) => GATE_PREFIX + "counterparty_persistence_failed"
    case InsertCandidates => GATE_PREFIX + "candidate_persistence_failed"
    case UpdateProgress => GATE_PREFIX + "wallet_progress_persistence_failed"
    case UpdateLastSynced => GATE_PREFIX + "wallet_metadata_update_failed"
    case _ => ""
  }

  lemma FailureTexts()
    ensures FailureReason(AtLink) == FailureName(LinkTransfer(0)) && FailureReason(AtCounterparty) == FailureName(UpsertCounterparty(0))
    ensures FailureReason(AtCandidates) == FailureName(InsertCandidates) && FailureReason(AtProgress) == FailureName(UpdateProgress)
    ensures FailureReason(AtMetadata) == FailureName(UpdateLastSynced)
    ensures FailureReason(AtTimeout) == GATE_PREFIX + "wallet_runner_timeout" && INCOMPLETE_WINDOW == GATE_PREFIX + "incomplete_window"
    ensures INCOMPLETE_WITHOUT_REASON == GATE_PREFIX + "runner_incomplete_without_reason" && GATE_PREFIX == "unknown_required_gates:"
  {
  }

  /** If the last call failed the window is incomplete, and the reason names that call beside what was known before. */
  ghost predicate FailureNamed(s: Stage) {
    s.log != [] && !s.log[|s.log| - 1].ok ==>
      var call := s.log[|s.log| - 1].call;
      if call == UpsertTransfers then s.status == Orchestrator.Failed && s.progress == NO_PROGRESS
      else s.status == Orchestrator.Partial && s.progress.incompleteWindow
           && exists before :: s.progress.unknownGateReason == Merged([before, FailureName(call)])
  }

  lemma {:induction false} LoopFailure(t: Tables, w: WalletId, obs: seq<Observation>, n: nat, faults: StoreCall -> bool)
    requires n <= |obs|
    ensures var s := LinkAll(t, w, obs, n, faults);
            if s.failed.None? then forall e :: e in s.log ==> e.ok
            else s.log != [] && !s.log[|s.log| - 1].ok && FailureReason(s.failed.value) == FailureName(s.log[|s.log| - 1].call)
                 && (s.log[|s.log| - 1].call.LinkTransfer? || s.log[|s.log| - 1].call.UpsertCounterparty?)
  {
    hide LinkOne, FailureReason, FailureName;
    if n > 0 {
      LoopFailure(t, w, obs, n - 1, faults);
      var s := LinkAll(t, w, obs, n - 1, faults);
      if s.failed.None? { StepFailure(s, w, obs[n - 1], n - 1, faults); }
    }
  }

  lemma StepFailure(s: LinkState, w: WalletId, o: Observation, i: nat, faults: StoreCall -> bool)
    requires s.failed.None? && forall e :: e in s.log ==> e.ok
    ensures var next := LinkOne(s, w, o, i, faults);
            if next.failed.None? then forall e :: e in next.log ==> e.ok
            else next.log != [] && !next.log[|next.log| - 1].ok && FailureReason(next.failed.value) == FailureName(next.log[|next.log| - 1].call)
                 && (next.log[|next.log| - 1].call.LinkTransfer? || next.log[|next.log| - 1].call.UpsertCounterparty?)
  {
    FailureTexts();
    LoopNames(i);
    hide FailureReason, FailureName;
  }

  lemma LoopNames(i: nat)
    ensures FailureName(LinkTransfer(i)) == FailureName(LinkTransfer(0)) && FailureName(UpsertCounterparty(i)) == FailureName(UpsertCounterparty(0))
  {
  }

  lemma RecordFailure(s: Stage, w: WalletId, run: SyncRunId, scanEnd: int, faults: StoreCall -> bool)
    ensures FailureNamed(Record(s, w, run, scanEnd, faults))
  {
    FailureTexts();
    hide FailureReason, FailureName, Merged, Reasoned, WithProgress, WithLastSynced;
  }

  lemma CandidatesFailure(s: Stage, w: WalletId, run: SyncRunId, scanEnd: int, res: CoreSyncResult, faults: StoreCall -> bool)
    ensures FailureNamed(StoreCandidates(s, w, run, scanEnd, res, faults))
  {
    FailureTexts();
    hide FailureReason, FailureName, Merged, FinalProgress, InsertAll, Record;
    var rows := InsertAll(s.tables.candidates, run, w, res.candidates);
    var counters := s.counters.(candidatesInserted := Grown(s.tables.candidates, rows));
    RecordFailure(s.(tables := s.tables.(candidates := rows), log := s.log + [Entry(InsertCandidates, true)], counters := counters,
                     progress := FinalProgress(res, counters)), w, run, scanEnd, faults);
  }

  /** Whatever call stops a run after its core sync is what its progress names. */
  lemma FailureIsNamed(t: Tables, w: WalletId, run: SyncRunId, scanEnd: int, res: CoreSyncResult, faults: StoreCall -> bool)
    ensures FailureNamed(Persist(t, w, run, scanEnd, res, faults))
  {
    hide FailureReason, FailureName, Merged, StoreCandidates, LinkAll, UpsertAll, Deduped;
    var rows, obs := UpsertAll(t.transfers, Deduped(res.baselineTransfers + res.scanTransfers)), Observations(res);
    var s := LinkAll(t.(transfers := rows), w, obs, |obs|, faults);
    LoopFailure(t.(transfers := rows), w, obs, |obs|, faults);
    if s.failed.None? {
      var counters := CoreCounters(res).(
        inserted := Grown(t.transfers, rows), linked := s.linked, counterpartiesCreated := s.created, counterpartiesUpdated := s.updated);
      var stage := Stage(s.tables, [Entry(UpsertTransfers, true)] + s.log, Orchestrator.Partial, NO_PROGRESS, counters, false, s.postings, s.lost);
      CandidatesFailure(stage, w, run, scanEnd, res, faults);
    } else {
      assert ([Entry(UpsertTransfers, true)] + s.log)[|s.log|] == s.log[|s.log| - 1];
    }
  }

  /** A run that stops before it has a core result records nothing about its window, unless its deadline stopped it. */
  lemma EarlyFailureIsNamed(t: Tables, w: WalletId, run: SyncRunId, r: WalletRun)
    requires r.faults(ListThresholds) || !r.rulesAccepted || r.core.CoreFailed?
    ensures var s := Body(t, w, run, r);
            && s.tables == t && !s.ok && s.counters == Orchestrator.ZERO_COUNTERS
            && if r.faults(ListThresholds) || !r.rulesAccepted || !r.core.deadline
               then s.status == Orchestrator.Failed && s.progress == NO_PROGRESS
               else s.status == Orchestrator.TimedOut && s.progress.incompleteWindow
                    && s.progress.unknownGateReason == Merged(["", GATE_PREFIX + "wallet_runner_timeout"])
  {
    FailureTexts();
    hide FailureReason, Merged;
  }

  // ---- Nothing but the database can fail a run that has its core result ----

  ghost predicate Quiet(faults: StoreCall -> bool) { forall call :: !faults(call) }

  lemma {:induction false} DedupedKeepsKeys(transfers: seq<NormalizedTransfer>, tr: NormalizedTransfer)
    requires tr in transfers
    ensures RunHistory.HasKey(Deduped(transfers), KeyOf(tr))
  {
    var init, last := transfers[..|transfers| - 1], transfers[|transfers| - 1];
    assert transfers == init + [last];
    var before := Deduped(init);
    assert forall x :: x in before ==> x in before + [last];
    assert last in before + [last];
    if tr in init { DedupedKeepsKeys(init, tr); }
  }

  lemma QuietStep(s: LinkState, w: WalletId, o: Observation, i: nat, faults: StoreCall -> bool)
    requires s.failed.None? && Quiet(faults) && w > 0 && Named(o) && KeyOf(o.transfer) in s.tables.transfers
    ensures LinkOne(s, w, o, i, faults).failed.None?
  {
  }

  lemma {:induction false} QuietLoop(t: Tables, w: WalletId, obs: seq<Observation>, n: nat, faults: StoreCall -> bool)
    requires n <= |obs| && Quiet(faults) && w > 0 && forall o :: o in obs ==> Named(o) && KeyOf(o.transfer) in t.transfers
    ensures LinkAll(t, w, obs, n, faults).failed.None?
  {
    hide LinkOne, Named, Quiet;
    if n > 0 {
      QuietLoop(t, w, obs, n - 1, faults);
      LinkAllFrame(t, w, obs, n - 1, faults);
      QuietStep(LinkAll(t, w, obs, n - 1, faults), w, obs[n - 1], n - 1, faults);
    }
  }

  lemma QuietEnding(s: Stage, w: WalletId, run: SyncRunId, scanEnd: int, res: CoreSyncResult, faults: StoreCall -> bool)
    requires Quiet(faults) && run in s.tables.syncRows && w in s.tables.wallets.Values
    ensures StoreCandidates(s, w, run, scanEnd, res, faults).ok
  {
    hide Spoiled, InsertAll, FinalProgress, Reasoned, Blank;
    var counters := s.counters.(candidatesInserted := Grown(s.tables.candidates, InsertAll(s.tables.candidates, run, w, res.candidates)));
    var g := FinalProgress(res, counters);
    FinalProgressIsSound(res, counters);
    SoundReasonIsStored(g.incompleteWindow, g.unknownGateReason);
  }

  lemma QuietPersist(t: Tables, w: WalletId, run: SyncRunId, scanEnd: int, res: CoreSyncResult, faults: StoreCall -> bool)
    requires Quiet(faults) && run in t.syncRows && w in t.wallets.Values && w > 0
    requires forall o :: o in Observations(res) ==> Named(o)
    requires forall o :: o in Observations(res) ==> o.transfer in res.baselineTransfers + res.scanTransfers
    ensures Persist(t, w, run, scanEnd, res, faults).ok
  {
    hide Spoiled, LinkAll, UpsertAll, Deduped, StoreCandidates, Named, RunHistory.HasKey;
    var all, obs := res.baselineTransfers + res.scanTransfers, Observations(res);
    var rows := UpsertAll(t.transfers, Deduped(all));
    forall o | o in obs ensures KeyOf(o.transfer) in rows {
      DedupedKeepsKeys(all, o.transfer);
      RunHistory.UpsertLookup(t.transfers, t.transfers, Deduped(all), KeyOf(o.transfer));
    }
    var s := LinkAll(t.(transfers := rows), w, obs, |obs|, faults);
    QuietLoop(t.(transfers := rows), w, obs, |obs|, faults);
    LinkAllFrame(t.(transfers := rows), w, obs, |obs|, faults);
    var counters := CoreCounters(res).(
      inserted := Grown(t.transfers, rows), linked := s.linked, counterpartiesCreated := s.created, counterpartiesUpdated := s.updated);
    var stage := Stage(s.tables, [Entry(UpsertTransfers, true)] + s.log, Orchestrator.Partial, NO_PROGRESS, counters, false, s.postings, s.lost);
    QuietEnding(stage, w, run, scanEnd, res, faults);
  }

  /** With every call accepted by the database, a run that opens and has a core result ends without error. */
  lemma QuietRunSucceeds(t: Tables, r: WalletRun)
    requires Serial(t) && RowsSound(t) && RunHistory.Plausible(r)
    requires Opens(r) && Quiet(r.faults) && r.rulesAccepted && r.core.CoreDone?
    ensures Execute(t, r).ok
  {
    var t1 := WithWallet(t, r.address);
    var t2, run := WithSyncRun(t1), t1.nextRun;
    FreshRowIsOpen(t1);
    BodyKeepsOpen(t2, WalletOf(t, r), run, r);
    assert t1.wallets[r.address] in t1.wallets.Values;
    QuietPersist(t2, WalletOf(t, r), run, r.scanEnd, r.core.result, r.faults);
    hide Persist, Finish, OpenAt, ProgressSound;
    FinishSettles(Body(t2, WalletOf(t, r), run, r), run, r.faults);
  }

  // ---- What a run without error records ----

  /** The row carries the progress `g`. */
  predicate Carries(row: SyncRow, g: WalletSyncProgress) {
    row.baselineComplete == g.baselineComplete && row.counts == g.counts && row.truncationReason == NullableText(g.truncationReason)
  }

  /** The run's row carries the final progress and the wallet's synchronization time has moved up to `scanEnd`. */
  ghost predicate Recorded(s: Stage, t: Tables, w: WalletId, run: SyncRunId, scanEnd: int, res: CoreSyncResult) {
    && run in s.tables.syncRows && Carries(s.tables.syncRows[run], FinalProgress(res, s.counters))
    && s.tables.lastSynced == WithLastSynced(t, w, scanEnd).lastSynced
  }

  lemma RecordRecords(s: Stage, w: WalletId, run: SyncRunId, scanEnd: int, res: CoreSyncResult, faults: StoreCall -> bool)
    requires !s.ok && s.progress == FinalProgress(res, s.counters)
    ensures var after := Record(s, w, run, scanEnd, faults);
            after.ok ==> Recorded(after, s.tables, w, run, scanEnd, res)
  {
    hide Spoiled, FinalProgress, Reasoned, StoredReason;
  }

  lemma CandidatesRecord(s: Stage, w: WalletId, run: SyncRunId, scanEnd: int, res: CoreSyncResult, faults: StoreCall -> bool)
    requires !s.ok
    ensures var after := StoreCandidates(s, w, run, scanEnd, res, faults);
            after.ok ==> Recorded(after, s.tables, w, run, scanEnd, res)
  {
    hide Spoiled, FinalProgress, InsertAll, Record;
    var rows := InsertAll(s.tables.candidates, run, w, res.candidates);
    var counters := s.counters.(candidatesInserted := Grown(s.tables.candidates, rows));
    RecordRecords(s.(tables := s.tables.(candidates := rows), log := s.log + [Entry(InsertCandidates, true)], counters := counters,
                     progress := FinalProgress(res, counters)), w, run, scanEnd, res, faults);
  }

  lemma PersistRecords(t: Tables, w: WalletId, run: SyncRunId, scanEnd: int, res: CoreSyncResult, faults: StoreCall -> bool)
    ensures var s := Persist(t, w, run, scanEnd, res, faults);
            s.ok ==> Recorded(s, t, w, run, scanEnd, res)
  {
    hide Spoiled, LinkAll, UpsertAll, Deduped, StoreCandidates, FinalProgress;
    var rows, obs := UpsertAll(t.transfers, Deduped(res.baselineTransfers + res.scanTransfers)), Observations(res);
    var s := LinkAll(t.(transfers := rows), w, obs, |obs|, faults);
    LinkAllFrame(t.(transfers := rows), w, obs, |obs|, faults);
    if s.failed.None? {
      var counters := CoreCounters(res).(
        inserted := Grown(t.transfers, rows), linked := s.linked, counterpartiesCreated := s.created, counterpartiesUpdated := s.updated);
      var stage := Stage(s.tables, [Entry(UpsertTransfers, true)] + s.log, Orchestrator.Partial, NO_PROGRESS, counters, false, s.postings, s.lost);
      CandidatesRecord(stage, w, run, scanEnd, res, faults);
    }
  }

  lemma BodyRecords(t: Tables, w: WalletId, run: SyncRunId, r: WalletRun)
    ensures var s := Body(t, w, run, r);
            s.ok ==> r.core.CoreDone? && Recorded(s, t, w, run, r.scanEnd, r.core.result)
  {
    hide Spoiled, Persist, Carries, FinalProgress;
    if r.core.CoreDone? { PersistRecords(t, w, run, r.scanEnd, r.core.result, r.faults); }
  }

  lemma FinishKeepsProgress(s: Stage, run: SyncRunId, faults: StoreCall -> bool, g: WalletSyncProgress)
    requires run in s.tables.syncRows && Carries(s.tables.syncRows[run], g)
    ensures var e := Finish(s, run, faults);
            && run in e.tables.syncRows && Carries(e.tables.syncRows[run], g) && e.tables.lastSynced == s.tables.lastSynced
            && e.report.counters == s.counters && (e.ok ==> s.ok)
  {
    hide Reasoned, StoredReason, RecordedReason;
  }

  /** Row and report of a run without error hold the same figures: those of the core result and of what was stored. */
  predicate SameFigures(row: SyncRow, c: WalletCounters, res: CoreSyncResult) {
    && row.counts.fetched == res.transactionsFetched == c.fetched && row.counts.failedNormalize == res.failedNormalize == c.failedNormalize
    && row.counts.unsupported == res.unsupportedAsset == c.unsupportedAsset
    && row.counts.unknownGateBlocks == res.unknownGateBlocks == c.unknownGateBlocks
    && row.counts.candidateBlocks == res.candidateBlocks == c.candidateBlocks
    && row.counts.inserted == c.inserted && row.counts.linked == c.linked
    && row.counts.created == c.counterpartiesCreated && row.counts.updated == c.counterpartiesUpdated
    && row.counts.candidatesInserted == c.candidatesInserted
    && c.ownerUnresolved == res.ownerUnresolved && c.decimalsUnresolved == res.decimalsUnresolved
    && c.retryExhausted == (if res.retryExhausted then 1 else 0)
  }

  lemma CarriedFigures(row: SyncRow, c: WalletCounters, res: CoreSyncResult)
    requires Carries(row, FinalProgress(res, c)) && FromCore(c, res)
    ensures SameFigures(row, c, res) && row.baselineComplete == res.baselineComplete
    ensures row.truncationReason.None? <==> res.baselineTruncation.None? && res.scanTruncation.None?
  {
    hide FinalReason, MergedTruncation;
    TruncationIsNamed(res);
  }

  lemma TruncationIsNamed(res: CoreSyncResult)
    ensures MergedTruncation(res.baselineTruncation, res.scanTruncation) == "" <==> res.baselineTruncation.None? && res.scanTruncation.None?
  {
  }

  /** The counters that a run takes over from its core result. */
  predicate FromCore(c: WalletCounters, res: CoreSyncResult) {
    c == CoreCounters(res).(inserted := c.inserted, linked := c.linked, counterpartiesCreated := c.counterpartiesCreated,
                            counterpartiesUpdated := c.counterpartiesUpdated, candidatesInserted := c.candidatesInserted)
  }

  lemma PersistFromCore(t: Tables, w: WalletId, run: SyncRunId, scanEnd: int, res: CoreSyncResult, faults: StoreCall -> bool)
    ensures FromCore(Persist(t, w, run, scanEnd, res, faults).counters, res)
  {
    hide Spoiled, LinkAll, UpsertAll, Deduped, StoreCandidates;
    var rows, obs := UpsertAll(t.transfers, Deduped(res.baselineTransfers + res.scanTransfers)), Observations(res);
    var s := LinkAll(t.(transfers := rows), w, obs, |obs|, faults);
    if s.failed.None? {
      var counters := CoreCounters(res).(
        inserted := Grown(t.transfers, rows), linked := s.linked, counterpartiesCreated := s.created, counterpartiesUpdated := s.updated);
      var stage := Stage(s.tables, [Entry(UpsertTransfers, true)] + s.log, Orchestrator.Partial, NO_PROGRESS, counters, false, s.postings, s.lost);
      RunHistory.LaterStagesCount(stage, w, run, scanEnd, res, faults);
    }
  }

  /** A report of a run that got its core result takes these counters over, whatever fails later. */
  lemma ReportFromCore(t: Tables, r: WalletRun)
    requires Opens(r) && !r.faults(ListThresholds) && r.rulesAccepted && r.core.CoreDone?
    ensures FromCore(Execute(t, r).report.counters, r.core.result)
  {
    RunHistory.ReportIsBodys(t, r);
    var t1 := WithWallet(t, r.address);
    PersistFromCore(WithSyncRun(t1), WalletOf(t, r), t1.nextRun, r.scanEnd, r.core.result, r.faults);
    hide Execute, Persist;
  }

  /** The progress of a run without error is the final one. */
  lemma PersistProgress(t: Tables, w: WalletId, run: SyncRunId, scanEnd: int, res: CoreSyncResult, faults: StoreCall -> bool)
    ensures var s := Persist(t, w, run, scanEnd, res, faults); s.ok ==> s.progress == FinalProgress(res, s.counters)
  {
    hide Spoiled, LinkAll, UpsertAll, Deduped, FinalProgress, InsertAll, Reasoned, CoreCounters;
  }

  lemma TruncationShown(res: CoreSyncResult)
    ensures !Blank(MergedTruncation(res.baselineTruncation, res.scanTruncation)) <==> res.baselineTruncation.Some? || res.scanTruncation.Some?
  {
    var baseline, scan := TruncationReason("baseline", res.baselineTruncation), TruncationReason("scan", res.scanTruncation);
    assert Blank("");
    if res.baselineTruncation.Some? && res.scanTruncation.Some? {
      assert baseline[0] == 'b';
      NotBlank(baseline + ";" + scan);
    }
  }

  /** The report says so when a window was truncated. */
  lemma TruncationIsReported(t: Tables, r: WalletRun)
    requires Execute(t, r).ok
    ensures r.core.CoreDone?
    ensures Execute(t, r).report.truncationObserved <==> r.core.result.baselineTruncation.Some? || r.core.result.scanTruncation.Some?
  {
    RunHistory.OkMeansLinked(t, r);
    TruncationShown(r.core.result);
    var t1 := WithWallet(t, r.address);
    PersistProgress(WithSyncRun(t1), WalletOf(t, r), t1.nextRun, r.scanEnd, r.core.result, r.faults);
    hide Persist, FinalReason, MergedTruncation, Blank, RecordedReason, Reasoned, WithFinal;
  }

  /** The synchronization time moved up to `at`, unless it was later; no other wallet's changed. */
  ghost predicate MovedUp(before: map<WalletId, int>, after: map<WalletId, int>, w: WalletId, at: int) {
    && w in after && after[w] >= at && after[w] >= (if w in before then before[w] else 0)
    && (after[w] == at || after[w] == if w in before then before[w] else 0)
    && forall v :: v != w ==> (v in after <==> v in before) && (v in before ==> after[v] == before[v])
  }

  lemma ProgressIsCarried(t: Tables, r: WalletRun)
    requires Execute(t, r).ok
    ensures r.core.CoreDone?
    ensures var e, run, w := Execute(t, r), RunOf(t, r), WalletOf(t, r);
            && run in e.tables.syncRows && Carries(e.tables.syncRows[run], FinalProgress(r.core.result, e.report.counters))
            && e.tables.lastSynced == WithLastSynced(t, w, r.scanEnd).lastSynced
  {
    var t1 := WithWallet(t, r.address);
    var s := Body(WithSyncRun(t1), WalletOf(t, r), RunOf(t, r), r);
    BodyRecords(WithSyncRun(t1), WalletOf(t, r), RunOf(t, r), r);
    hide Body, Finish, Carries, FinalProgress;
    FinishOk(s, RunOf(t, r), r.faults);
    FinishKeepsProgress(s, RunOf(t, r), r.faults, FinalProgress(r.core.result, s.counters));
  }

  lemma SyncMovesUp(t: Tables, w: WalletId, at: int)
    ensures MovedUp(t.lastSynced, WithLastSynced(t, w, at).lastSynced, w, at)
  {
  }

  /** A run without error leaves its counters, completeness and truncation in its row, and moves the wallet's
      synchronization time up to the end of the scan window. */
  lemma ProgressIsRecorded(t: Tables, r: WalletRun)
    requires Execute(t, r).ok
    ensures r.core.CoreDone?
    ensures var e, run, w := Execute(t, r), RunOf(t, r), WalletOf(t, r);
            && run in e.tables.syncRows && SameFigures(e.tables.syncRows[run], e.report.counters, r.core.result)
            && e.tables.syncRows[run].baselineComplete == r.core.result.baselineComplete
            && (e.tables.syncRows[run].truncationReason.None? <==> r.core.result.baselineTruncation.None? && r.core.result.scanTruncation.None?)
            && (e.report.truncationObserved <==> r.core.result.baselineTruncation.Some? || r.core.result.scanTruncation.Some?)
            && MovedUp(t.lastSynced, e.tables.lastSynced, w, r.scanEnd)
  {
    ProgressIsCarried(t, r);
    TruncationIsReported(t, r);
    RunHistory.OkMeansLinked(t, r);
    hide Execute, FinalProgress, Carries, FromCore, SameFigures, MovedUp, WithLastSynced;
    ReportFromCore(t, r);
    SyncMovesUp(t, WalletOf(t, r), r.scanEnd);
    CarriedFigures(Execute(t, r).tables.syncRows[RunOf(t, r)], Execute(t, r).report.counters, r.core.result);
  }

  lemma FinishOk(s: Stage, run: SyncRunId, faults: StoreCall -> bool)
    ensures Finish(s, run, faults).ok ==> s.ok
  {
  }
}
