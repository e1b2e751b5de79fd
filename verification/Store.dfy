/** The tables the scanner writes, as the statements of its repository change them. */
module Store {
  import opened Arithmetic
  import opened Wrappers
  import opened Text
  import opened Transfers
  import opened Counterparties
  import opened Materialize
  import DustRules
  import Orchestrator

  type WalletId = nat
  type SyncRunId = nat

  /** The unique key of a stored transfer. */
  datatype TxKey = TxKey(signature: string, fingerprint: Fingerprint)

  datatype Link = Link(wallet: WalletId, tx: TxKey, relation: Relation)

  datatype CounterpartyKey = CounterpartyKey(wallet: WalletId, address: Address)

  datatype CandidateKey = CandidateKey(run: SyncRunId, signature: string, index: nat)

  /** The counters a sync row carries. */
  datatype SyncCounts = SyncCounts(
    fetched: nat, inserted: nat, linked: nat, failedNormalize: nat, created: nat, updated: nat,
    unsupported: nat, unknownGateBlocks: nat, candidateBlocks: nat, candidatesInserted: nat)

  const NO_COUNTS := SyncCounts(0, 0, 0, 0, 0, 0, 0, 0, 0, 0)

  datatype WalletSyncProgress = WalletSyncProgress(
    baselineComplete: bool, incompleteWindow: bool, unknownGateReason: string, truncationReason: string, counts: SyncCounts)

  datatype SyncRow = SyncRow(
    status: Orchestrator.WalletStatus, completed: bool, baselineComplete: bool, incompleteWindow: bool,
    unknownGateReason: Option<string>, truncationReason: Option<string>, counts: SyncCounts)

  datatype CandidateRow = CandidateRow(wallet: WalletId, candidate: PoisoningCandidate)

  datatype Tables = Tables(
    wallets: map<Address, WalletId>, lastSynced: map<WalletId, int>, transfers: map<TxKey, NormalizedTransfer>, links: set<Link>,
    counterparties: map<CounterpartyKey, Counterparty>, candidates: map<CandidateKey, CandidateRow>,
    syncRows: map<SyncRunId, SyncRow>, nextWallet: WalletId, nextRun: SyncRunId)

  /** Wallet identifiers are serial: positive, not shared, and used only after they were given out. */
  ghost predicate Serial(t: Tables) {
    && t.nextWallet > 0
    && (forall a :: a in t.wallets ==> 0 < t.wallets[a] < t.nextWallet)
    && (forall l :: l in t.links ==> l.wallet < t.nextWallet)
    && (forall k :: k in t.counterparties ==> k.wallet < t.nextWallet)
  }

  const EMPTY := Tables(map[], map[], map[], {}, map[], map[], map[], 1, 1)

  function KeyOf(tr: NormalizedTransfer): TxKey { TxKey(tr.signature, tr.fingerprint) }

  /** The calls a wallet run makes; links and counterparty upserts are numbered by observation. */
  datatype StoreCall =
    | EnsureWallet | CreateSyncRun | ListThresholds | UpsertTransfers
    | LinkTransfer(index: nat) | UpsertCounterparty(index: nat)
    | InsertCandidates | UpdateProgress | UpdateLastSynced | Finalize

  datatype StoreError = Unavailable | NotFound | InvalidArgument

  /** A call and whether it succeeded. */
  datatype Entry = Entry(call: StoreCall, ok: bool)

  // ---- What each statement does ----

  function WithWallet(t: Tables, address: Address): Tables {
    if address in t.wallets then t else t.(wallets := t.wallets[address := t.nextWallet], nextWallet := t.nextWallet + 1)
  }

  const FRESH_ROW := SyncRow(Orchestrator.Running, false, false, false, None, None, NO_COUNTS)

  function WithSyncRun(t: Tables): Tables {
    t.(syncRows := t.syncRows[t.nextRun := FRESH_ROW], nextRun := t.nextRun + 1)
  }

  function UpsertAll(rows: map<TxKey, NormalizedTransfer>, transfers: seq<NormalizedTransfer>): map<TxKey, NormalizedTransfer> {
    if transfers == [] then rows
    else
      var tr := transfers[|transfers| - 1];
      UpsertAll(rows, transfers[..|transfers| - 1])[KeyOf(tr) := tr]
  }

  function InsertAll(rows: map<CandidateKey, CandidateRow>, run: SyncRunId, w: WalletId, cs: seq<PoisoningCandidate>): map<CandidateKey, CandidateRow> {
    if cs == [] then rows
    else
      var c, before := cs[|cs| - 1], InsertAll(rows, run, w, cs[..|cs| - 1]);
      var k := CandidateKey(run, c.signature, c.index);
      if k in before then before else before[k := CandidateRow(w, c)]
  }

  function NullableText(s: string): Option<string> { if s == "" then None else Some(s) }

  /** The reason column: NULL unless the window is incomplete. */
  function StoredReason(incomplete: bool, reason: string): Option<string> {
    if incomplete then NullableText(reason) else None
  }

  /** The table's CHECK: an incomplete row has a reason that is not made of spaces alone. */
  predicate Reasoned(incomplete: bool, reason: string) {
    incomplete ==> exists c :: c in reason && c != ' '
  }

  lemma {:induction false} OnlySpacesIsBlank(s: string)
    requires forall c :: c in s ==> c == ' '
    ensures Blank(s)
    decreases |s|
  {
    if s != "" {
      assert s[0] in s && forall c :: c in s[1..] ==> c in s;
      OnlySpacesIsBlank(s[1..]);
    }
  }

  /** A reason that is not blank satisfies the CHECK. */
  lemma NonBlankIsReasoned(s: string)
    requires !Blank(s)
    ensures Reasoned(true, s) && s != ""
  {
    if forall c :: c in s ==> c == ' ' { OnlySpacesIsBlank(s); }
  }

  function WithProgress(t: Tables, run: SyncRunId, g: WalletSyncProgress): Tables
    requires run in t.syncRows
  {
    t.(syncRows := t.syncRows[run := t.syncRows[run].(
      baselineComplete := g.baselineComplete, incompleteWindow := g.incompleteWindow,
      unknownGateReason := StoredReason(g.incompleteWindow, g.unknownGateReason),
      truncationReason := NullableText(g.truncationReason), counts := g.counts)])
  }

  function WithFinal(t: Tables, run: SyncRunId, status: Orchestrator.WalletStatus, incomplete: bool, reason: string): Tables
    requires run in t.syncRows
  {
    t.(syncRows := t.syncRows[run := t.syncRows[run].(
      status := status, completed := true, incompleteWindow := incomplete, unknownGateReason := StoredReason(incomplete, reason))])
  }

  function WithLastSynced(t: Tables, w: WalletId, at: int): Tables {
    t.(lastSynced := t.lastSynced[w := Max(if w in t.lastSynced then t.lastSynced[w] else 0, at)])
  }

  // ---- The repository ----

  /** Any call may fail, and a failed call has no effect: `fails` says whether the database refuses this one. */
  class PostgresStore {
    var tables: Tables
    ghost var log: seq<Entry>

    constructor ()
      ensures tables == EMPTY && log == []
    {
      tables := EMPTY;
      log := [];
    }

    method EnsureWallet(address: Address, fails: bool) returns (r: Result<WalletId, StoreError>)
      modifies this
      ensures log == old(log) + [Entry(StoreCall.EnsureWallet, !fails)]
      ensures r.Failure? <==> fails
      ensures r.Failure? ==> tables == old(tables)
      ensures r.Success? ==> tables == WithWallet(old(tables), address) && r.value == tables.wallets[address]
    {
      log := log + [Entry(StoreCall.EnsureWallet, !fails)];
      if fails { return Failure(Unavailable); }
      if address !in tables.wallets {
        tables := tables.(wallets := tables.wallets[address := tables.nextWallet], nextWallet := tables.nextWallet + 1);
      }
      return Success(tables.wallets[address]);
    }

    method CreateWalletSyncRun(fails: bool) returns (r: Result<SyncRunId, StoreError>)
      modifies this
      ensures log == old(log) + [Entry(CreateSyncRun, !fails)]
      ensures r.Failure? <==> fails
      ensures r.Failure? ==> tables == old(tables)
      ensures r.Success? ==> r.value == old(tables).nextRun && tables == WithSyncRun(old(tables))
    {
      log := log + [Entry(CreateSyncRun, !fails)];
      if fails { return Failure(Unavailable); }
      r := Success(tables.nextRun);
      tables := tables.(syncRows := tables.syncRows[tables.nextRun := FRESH_ROW], nextRun := tables.nextRun + 1);
    }

    /** The threshold rows whose window meets [start, end); `table` is the whole table. */
    method ListDustThresholds(table: seq<DustRules.ThresholdRow>, start: int, end: int, fails: bool)
      returns (r: Result<seq<DustRules.ThresholdRow>, StoreError>)
      modifies this`log
      ensures log == old(log) + [Entry(ListThresholds, !fails)]
      ensures r == if fails then Failure(Unavailable) else Success(DustRules.ListDustThresholds(table, start, end))
    {
      log := log + [Entry(ListThresholds, !fails)];
      if fails { return Failure(Unavailable); }
      return Success(DustRules.ListDustThresholds(table, start, end));
    }

    /** One transaction: all rows are upserted, or none. */
    method UpsertNormalizedTransfers(transfers: seq<NormalizedTransfer>, fails: bool) returns (r: Result<(nat, nat), StoreError>)
      modifies this
      ensures log == old(log) + [Entry(UpsertTransfers, r.Success?)]
      ensures r.Failure? <==> fails && transfers != []
      ensures r.Failure? ==> tables == old(tables)
      ensures r.Success? ==> tables == old(tables).(transfers := UpsertAll(old(tables).transfers, transfers))
      ensures r.Success? ==> r.value.0 + r.value.1 == |transfers|
                             && |tables.transfers| == |old(tables).transfers| + r.value.0
    {
      log := log + [Entry(UpsertTransfers, !(fails && transfers != []))];
      if |transfers| == 0 { return Success((0, 0)); }
      if fails { return Failure(Unavailable); }
      var rows, inserted, updated := tables.transfers, 0, 0;
      for i := 0 to |transfers|
        invariant rows == UpsertAll(old(tables).transfers, transfers[..i])
        invariant inserted + updated == i && |rows| == |old(tables).transfers| + inserted
        invariant tables == old(tables)
      {
        var k := KeyOf(transfers[i]);
        assert transfers[..i + 1][..i] == transfers[..i];
        if k in rows {
          assert rows[k := transfers[i]].Keys == rows.Keys;
          updated := updated + 1;
        } else {
          assert rows[k := transfers[i]].Keys == rows.Keys + {k};
          inserted := inserted + 1;
        }
        rows := rows[k := transfers[i]];
      }
      assert transfers[..|transfers|] == transfers;
      tables := tables.(transfers := rows);
      return Success((inserted, updated));
    }

    /** Links a wallet to a stored transfer; the answer is whether the link is new. */
    method LinkWalletTransfer(w: WalletId, relation: Relation, tr: NormalizedTransfer, index: nat, fails: bool) returns (r: Result<bool, StoreError>)
      modifies this
      ensures log == old(log) + [Entry(LinkTransfer(index), r.Success?)]
      ensures r.Failure? <==> fails || KeyOf(tr) !in old(tables).transfers
      ensures r.Failure? ==> tables == old(tables)
      ensures r.Success? ==> r.value == (Link(w, KeyOf(tr), relation) !in old(tables).links)
                             && tables == old(tables).(links := old(tables).links + {Link(w, KeyOf(tr), relation)})
    {
      log := log + [Entry(LinkTransfer(index), !fails && KeyOf(tr) in tables.transfers)];
      if fails { return Failure(Unavailable); }
      if KeyOf(tr) !in tables.transfers { return Failure(NotFound); }
      var link := Link(w, KeyOf(tr), relation);
      r := Success(link !in tables.links);
      tables := tables.(links := tables.links + {link});
    }

    /** INSERT ... ON CONFLICT DO UPDATE with LEAST, GREATEST and sums; the answer is whether the row is new. */
    method UpsertCounterpartyEvent(w: WalletId, e: Event, index: nat, fails: bool) returns (r: Result<bool, StoreError>)
      modifies this
      ensures log == old(log) + [Entry(UpsertCounterparty(index), r.Success?)]
      ensures r.Failure? <==> fails || w == 0 || e.counterparty == ""
      ensures r.Failure? ==> tables == old(tables)
      ensures r.Success? ==> var k := CounterpartyKey(w, e.counterparty);
                             r.value == (k !in old(tables).counterparties)
                             && tables == old(tables).(counterparties := Upsert(old(tables).counterparties, k, e))
    {
      log := log + [Entry(UpsertCounterparty(index), !fails && w != 0 && e.counterparty != "")];
      if w == 0 || e.counterparty == "" { return Failure(InvalidArgument); }
      if fails { return Failure(Unavailable); }
      var k, x := CounterpartyKey(w, e.counterparty), InsertedRow(e);
      if k !in tables.counterparties {
        tables := tables.(counterparties := tables.counterparties[k := x]);
        return Success(true);
      }
      tables := tables.(counterparties := tables.counterparties[k := MergedRow(tables.counterparties[k], x)]);
      return Success(false);
    }

    /** One transaction; a candidate already stored for this sync run is left alone. */
    method InsertPoisoningCandidates(run: SyncRunId, w: WalletId, cs: seq<PoisoningCandidate>, fails: bool) returns (r: Result<nat, StoreError>)
      modifies this
      ensures log == old(log) + [Entry(InsertCandidates, r.Success?)]
      ensures r.Failure? <==> fails && cs != []
      ensures r.Failure? ==> tables == old(tables)
      ensures r.Success? ==> tables == old(tables).(candidates := InsertAll(old(tables).candidates, run, w, cs))
                             && |tables.candidates| == |old(tables).candidates| + r.value
    {
      log := log + [Entry(InsertCandidates, !(fails && cs != []))];
      if |cs| == 0 { return Success(0); }
      if fails { return Failure(Unavailable); }
      var rows, inserted := tables.candidates, 0;
      for i := 0 to |cs|
        invariant rows == InsertAll(old(tables).candidates, run, w, cs[..i])
        invariant |rows| == |old(tables).candidates| + inserted
        invariant tables == old(tables)
      {
        var k := CandidateKey(run, cs[i].signature, cs[i].index);
        assert cs[..i + 1][..i] == cs[..i];
        if k in rows { continue; }
        assert rows[k := CandidateRow(w, cs[i])].Keys == rows.Keys + {k};
        rows, inserted := rows[k := CandidateRow(w, cs[i])], inserted + 1;
      }
      assert cs[..|cs|] == cs;
      tables := tables.(candidates := rows);
      return Success(inserted);
    }

    method UpdateWalletSyncProgress(run: SyncRunId, g: WalletSyncProgress, fails: bool) returns (err: Option<StoreError>)
      modifies this
      ensures log == old(log) + [Entry(UpdateProgress, err.None?)]
      ensures err.Some? <==> fails || run !in old(tables).syncRows || !Reasoned(g.incompleteWindow, g.unknownGateReason)
      ensures tables == if err.Some? then old(tables) else WithProgress(old(tables), run, g)
    {
      var stored := NullableText(g.unknownGateReason);
      if !g.incompleteWindow { stored := None; }
      var truncation := NullableText(g.truncationReason);
      if fails || run !in tables.syncRows || !Reasoned(g.incompleteWindow, g.unknownGateReason) {
        log := log + [Entry(UpdateProgress, false)];
        return Some(if fails then Unavailable else if run !in tables.syncRows then NotFound else InvalidArgument);
      }
      log := log + [Entry(UpdateProgress, true)];
      tables := tables.(syncRows := tables.syncRows[run := tables.syncRows[run].(
        baselineComplete := g.baselineComplete, incompleteWindow := g.incompleteWindow, unknownGateReason := stored,
        truncationReason := truncation, counts := g.counts)]);
      return None;
    }

    method FinalizeWalletSyncRun(run: SyncRunId, status: Orchestrator.WalletStatus, incomplete: bool, reason: string, fails: bool)
      returns (err: Option<StoreError>)
      modifies this
      ensures log == old(log) + [Entry(Finalize, err.None?)]
      ensures err.Some? <==> fails || run !in old(tables).syncRows || !Reasoned(incomplete, reason)
      ensures tables == if err.Some? then old(tables) else WithFinal(old(tables), run, status, incomplete, reason)
    {
      var stored := NullableText(reason);
      if !incomplete { stored := None; }
      if fails || run !in tables.syncRows || !Reasoned(incomplete, reason) {
        log := log + [Entry(Finalize, false)];
        return Some(if fails then Unavailable else if run !in tables.syncRows then NotFound else InvalidArgument);
      }
      log := log + [Entry(Finalize, true)];
      tables := tables.(syncRows := tables.syncRows[run := tables.syncRows[run].(
        status := status, completed := true, incompleteWindow := incomplete, unknownGateReason := stored)]);
      return None;
    }

    method UpdateWalletLastSyncedAt(w: WalletId, at: int, fails: bool) returns (err: Option<StoreError>)
      modifies this
      ensures log == old(log) + [Entry(UpdateLastSynced, err.None?)]
      ensures err.Some? <==> fails || w !in old(tables).wallets.Values
      ensures tables == if err.Some? then old(tables) else WithLastSynced(old(tables), w, at)
    {
      if fails || w !in tables.wallets.Values {
        log := log + [Entry(UpdateLastSynced, false)];
        return Some(if fails then Unavailable else NotFound);
      }
      log := log + [Entry(UpdateLastSynced, true)];
      var before := if w in tables.lastSynced then tables.lastSynced[w] else 0;
      tables := tables.(lastSynced := tables.lastSynced[w := if before >= at then before else at]);
      return None;
    }
  }
}
