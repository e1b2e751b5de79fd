/** One wallet from provider history to candidates. */
module CoreSync {
  import opened Text
  import opened Wrappers
  import opened Counting
  import opened Transfers
  import opened Counterparties
  import opened Lookalike
  import opened Reasons
  import opened Fetch
  import opened Materialize

  type DustClassifier = NormalizedTransfer -> DustStatus

  datatype CoreSyncParams = CoreSyncParams(
    focal: Address, baselineStart: int, baselineEnd: int, scanStart: int, scanEnd: int,
    maxTxPages: int, maxTx: int, maxRetries: int, requestDelay: int,
    recencyDays: int, rule: MatchRule, minInjectionCount: int, classify: DustClassifier)

  datatype CoreSyncResult = CoreSyncResult(
    baselineTransfers: seq<NormalizedTransfer>, scanTransfers: seq<NormalizedTransfer>,
    baselineObservations: seq<Observation>, scanObservations: seq<Observation>,
    counterparties: map<Address, Counterparty>, candidates: seq<PoisoningCandidate>,
    baselineComplete: bool, incompleteWindow: bool, unknownGateReason: string,
    baselineTruncation: Option<TruncationCode>, scanTruncation: Option<TruncationCode>,
    transactionsFetched: nat, failedNormalize: nat, ownerUnresolved: nat, unsupportedAsset: nat, decimalsUnresolved: nat,
    unknownGateBlocks: nat, candidateBlocks: nat, retryExhausted: bool)

  datatype CoreError = InvalidCoreParams | FetchFailed(error: FetchError) | MissingSignature

  predicate ValidCoreParams(p: CoreSyncParams) {
    && !Blank(p.focal)
    && p.baselineStart < p.baselineEnd == p.scanStart < p.scanEnd
    && p.maxTxPages >= 1 && p.maxTx >= 1 && p.maxRetries >= 0 && p.requestDelay >= 0
    && ValidRule(p.recencyDays, p.rule, p.minInjectionCount)
  }

  // ---- Normalizing a window ----

  function Classified(tr: NormalizedTransfer, classify: DustClassifier): NormalizedTransfer {
    tr.(dust := classify(tr))
  }

  function ClassifyAll(rows: seq<NormalizedTransfer>, classify: DustClassifier): seq<NormalizedTransfer> {
    seq(|rows|, i requires 0 <= i < |rows| => Classified(rows[i], classify))
  }

  function ClassifiedRows(tx: EnhancedTransaction, classify: DustClassifier): seq<NormalizedTransfer> {
    ClassifyAll(Rows(tx), classify)
  }

  /** Every transfer of the transactions, in order, with its dust status. */
  function TransfersOf(txs: seq<EnhancedTransaction>, classify: DustClassifier): seq<NormalizedTransfer> {
    if txs == [] then [] else TransfersOf(txs[..|txs| - 1], classify) + ClassifiedRows(txs[|txs| - 1], classify)
  }

  /** The transfers that relate the focal wallet to a counterparty, in order. */
  function ObservationsOf(focal: Address, transfers: seq<NormalizedTransfer>): seq<Observation> {
    if transfers == [] then []
    else
      var before, tr := ObservationsOf(focal, transfers[..|transfers| - 1]), transfers[|transfers| - 1];
      match MapWalletRelation(focal, tr)
      case Some(m) => before + [Observation(tr, m.relation, m.counterparty)]
      case None => before
  }

  function IsUnresolved(): NormalizedTransfer -> bool { (tr: NormalizedTransfer) => tr.status != Resolved }
  function IsOwnerUnresolved(): NormalizedTransfer -> bool { (tr: NormalizedTransfer) => tr.status == UnresolvedOwner }
  function IsUnsupported(): NormalizedTransfer -> bool { (tr: NormalizedTransfer) => tr.status == UnsupportedAsset }
  function LacksDecimals(): NormalizedTransfer -> bool {
    (tr: NormalizedTransfer) => tr.assetType == SPLFungible && tr.decimals.None?
  }

  datatype NormalizedWindow = NormalizedWindow(
    transfers: seq<NormalizedTransfer>, observations: seq<Observation>, fetched: nat,
    failed: nat, ownerUnresolved: nat, unsupported: nat, noDecimals: nat)

  /** The window record that the transfers call for. */
  function WindowOf(focal: Address, transfers: seq<NormalizedTransfer>, fetched: nat): NormalizedWindow {
    NormalizedWindow(
      transfers, ObservationsOf(focal, transfers), fetched, Count(transfers, IsUnresolved()),
      Count(transfers, IsOwnerUnresolved()), Count(transfers, IsUnsupported()), Count(transfers, LacksDecimals()))
  }

  lemma WindowSnoc(focal: Address, transfers: seq<NormalizedTransfer>, tr: NormalizedTransfer, fetched: nat)
    ensures var w := WindowOf(focal, transfers, fetched);
            var m := MapWalletRelation(focal, tr);
            WindowOf(focal, transfers + [tr], fetched) == NormalizedWindow(
              transfers + [tr],
              if m.Some? then w.observations + [Observation(tr, m.value.relation, m.value.counterparty)] else w.observations,
              fetched,
              if tr.status != Resolved then w.failed + 1 else w.failed,
              if tr.status == UnresolvedOwner then w.ownerUnresolved + 1 else w.ownerUnresolved,
              if tr.status == UnsupportedAsset then w.unsupported + 1 else w.unsupported,
              if tr.assetType == SPLFungible && tr.decimals.None? then w.noDecimals + 1 else w.noDecimals)
  {
    hide MapWalletRelation;
    assert (transfers + [tr])[..|transfers|] == transfers;
    CountSnoc(transfers, tr, IsUnresolved());
    CountSnoc(transfers, tr, IsOwnerUnresolved());
    CountSnoc(transfers, tr, IsUnsupported());
    CountSnoc(transfers, tr, LacksDecimals());
  }

  /** Appends one transfer, its counters and its observation. */
  method AppendTransfer(focal: Address, tr: NormalizedTransfer, w: NormalizedWindow) returns (out: NormalizedWindow)
    requires w == WindowOf(focal, w.transfers, w.fetched)
    ensures out == WindowOf(focal, w.transfers + [tr], w.fetched)
  {
    WindowSnoc(focal, w.transfers, tr, w.fetched);
    hide WindowOf, MapWalletRelation;
    out := w.(transfers := w.transfers + [tr]);
    if tr.status != Resolved { out := out.(failed := out.failed + 1); }
    if tr.status == UnresolvedOwner { out := out.(ownerUnresolved := out.ownerUnresolved + 1); }
    if tr.status == UnsupportedAsset { out := out.(unsupported := out.unsupported + 1); }
    if tr.assetType == SPLFungible && tr.decimals.None? { out := out.(noDecimals := out.noDecimals + 1); }
    var mapping := MapWalletRelation(focal, tr);
    if mapping.None? { return; }
    out := out.(observations := out.observations + [Observation(tr, mapping.value.relation, mapping.value.counterparty)]);
  }

  /** Appends the rows of one transaction. */
  method AppendRows(focal: Address, rows: seq<NormalizedTransfer>, classify: DustClassifier, w: NormalizedWindow) returns (out: NormalizedWindow)
    requires w == WindowOf(focal, w.transfers, w.fetched)
    ensures out == WindowOf(focal, w.transfers + ClassifyAll(rows, classify), w.fetched)
  {
    hide WindowOf;
    out := w;
    assert w.transfers + ClassifyAll([], classify) == w.transfers;
    for k := 0 to |rows|
      invariant out == WindowOf(focal, out.transfers, w.fetched) && out.fetched == w.fetched
      invariant out.transfers == w.transfers + ClassifyAll(rows[..k], classify)
    {
      var tr := rows[k].(dust := classify(rows[k]));
      assert ClassifyAll(rows[..k + 1], classify) == ClassifyAll(rows[..k], classify) + [tr];
      ghost var before := out.transfers;
      out := AppendTransfer(focal, tr, out);
      WindowTransfers(focal, before + [tr], w.fetched);
    }
    assert rows[..|rows|] == rows;
  }

  lemma WindowTransfers(focal: Address, transfers: seq<NormalizedTransfer>, fetched: nat)
    ensures WindowOf(focal, transfers, fetched).transfers == transfers && WindowOf(focal, transfers, fetched).fetched == fetched
  {
  }

  /** Appends one transaction after those in `past`; it fails when the transaction has no signature. */
  method AppendTransaction(focal: Address, tx: EnhancedTransaction, classify: DustClassifier, w: NormalizedWindow, ghost past: seq<EnhancedTransaction>)
    returns (r: Option<NormalizedWindow>)
    requires w == WindowOf(focal, TransfersOf(past, classify), w.fetched)
    ensures r.None? <==> tx.signature == ""
    ensures r.Some? ==> r.value == WindowOf(focal, TransfersOf(past + [tx], classify), w.fetched)
  {
    assert (past + [tx])[..|past|] == past;
    WindowTransfers(focal, TransfersOf(past, classify), w.fetched);
    hide WindowOf, Records, TransferCount, Rows;
    var normalized := NormalizeEnhancedTx(tx);
    if normalized.Failure? { return None; }
    var out := AppendRows(focal, normalized.value, classify, w);
    r := Some(out);
  }

  method NormalizeWindow(focal: Address, txs: seq<EnhancedTransaction>, classify: DustClassifier) returns (r: Result<NormalizedWindow, CoreError>)
    ensures r.Failure? <==> exists tx :: tx in txs && tx.signature == ""
    ensures r.Failure? ==> r.error == MissingSignature
    ensures r.Success? ==> r.value == WindowOf(focal, TransfersOf(txs, classify), |txs|)
  {
    var out := NormalizedWindow([], [], |txs|, 0, 0, 0, 0);
    assert out == WindowOf(focal, TransfersOf(txs[..0], classify), |txs|);
    hide WindowOf, TransfersOf;
    for i := 0 to |txs|
      invariant out == WindowOf(focal, TransfersOf(txs[..i], classify), |txs|) && out.fetched == |txs|
      invariant forall tx :: tx in txs[..i] ==> tx.signature != ""
    {
      assert txs[..i + 1] == txs[..i] + [txs[i]] && txs[i] in txs;
      WindowTransfers(focal, TransfersOf(txs[..i + 1], classify), |txs|);
      var next := AppendTransaction(focal, txs[i], classify, out, txs[..i]);
      if next.None? { return Failure(MissingSignature); }
      out := next.value;
    }
    assert txs[..|txs|] == txs;
    return Success(out);
  }

  lemma {:induction false} TransfersOfMembers(txs: seq<EnhancedTransaction>, classify: DustClassifier, tr: NormalizedTransfer)
    ensures tr in TransfersOf(txs, classify) <==> exists tx :: tx in txs && tr in ClassifiedRows(tx, classify)
  {
    if txs != [] {
      var init, last := txs[..|txs| - 1], txs[|txs| - 1];
      assert txs == init + [last];
      assert forall tx :: tx in txs <==> tx in init || tx == last;
      TransfersOfMembers(init, classify, tr);
    }
  }

  lemma {:induction false} TransfersOfAppend(s: seq<EnhancedTransaction>, t: seq<EnhancedTransaction>, classify: DustClassifier)
    ensures TransfersOf(s + t, classify) == TransfersOf(s, classify) + TransfersOf(t, classify)
  {
    hide ClassifiedRows;
    if t == [] {
      assert s + t == s;
    } else {
      assert (s + t)[..|s + t| - 1] == s + t[..|t| - 1];
      TransfersOfAppend(s, t[..|t| - 1], classify);
    }
  }

  lemma {:induction false} ObservationsOfMembers(focal: Address, transfers: seq<NormalizedTransfer>, o: Observation)
    ensures o in ObservationsOf(focal, transfers) <==>
              o.transfer in transfers && MapWalletRelation(focal, o.transfer) == Some(Mapping(o.relation, o.counterparty))
  {
    if transfers != [] {
      var init, last := transfers[..|transfers| - 1], transfers[|transfers| - 1];
      assert transfers == init + [last];
      assert forall tr :: tr in transfers <==> tr in init || tr == last;
      ObservationsOfMembers(focal, init, o);
    }
  }

  lemma {:induction false} ObservationsOfAppend(focal: Address, s: seq<NormalizedTransfer>, t: seq<NormalizedTransfer>)
    ensures ObservationsOf(focal, s + t) == ObservationsOf(focal, s) + ObservationsOf(focal, t)
  {
    if t == [] {
      assert s + t == s;
    } else {
      assert (s + t)[..|s + t| - 1] == s + t[..|t| - 1];
      ObservationsOfAppend(focal, s, t[..|t| - 1]);
    }
  }

  /** What the detector would observe in a stretch of transactions. */
  function Observed(p: CoreSyncParams, txs: seq<EnhancedTransaction>): seq<Observation> {
    ObservationsOf(p.focal, TransfersOf(txs, p.classify))
  }

  lemma ObservedPrefix(p: CoreSyncParams, txs: seq<EnhancedTransaction>, all: seq<EnhancedTransaction>)
    requires txs <= all
    ensures multiset(Observed(p, txs)) <= multiset(Observed(p, all))
  {
    var rest := all[|txs|..];
    assert all == txs + rest;
    TransfersOfAppend(txs, rest, p.classify);
    ObservationsOfAppend(p.focal, TransfersOf(txs, p.classify), TransfersOf(rest, p.classify));
  }

  /** An observation of a window is a classified transfer of a history transaction inside it. */
  lemma ObservedMembers(p: CoreSyncParams, h: seq<EnhancedTransaction>, start: int, end: int, o: Observation)
    ensures o in Observed(p, Window(h, start, end)) <==>
              && (exists tx :: tx in h && InWindow(tx, start, end) && o.transfer in ClassifiedRows(tx, p.classify))
              && MapWalletRelation(p.focal, o.transfer) == Some(Mapping(o.relation, o.counterparty))
  {
    var w := Window(h, start, end);
    ObservationsOfMembers(p.focal, TransfersOf(w, p.classify), o);
    TransfersOfMembers(w, p.classify, o.transfer);
    forall tx ensures tx in w <==> tx in h && InWindow(tx, start, end) { WindowMembers(h, start, end, tx); }
  }

  // ---- Counterparties ----

  /** The events of the observations, blank counterparties skipped. */
  function EventsOf(observations: seq<Observation>): seq<Event> {
    if observations == [] then []
    else
      var before, o := EventsOf(observations[..|observations| - 1]), observations[|observations| - 1];
      if Blank(o.counterparty) then before
      else before + [Event(TrimSpace(o.counterparty), o.relation, o.transfer.blockTime)]
  }

  lemma FoldedRowsAreLive(events: seq<Event>, a: Address)
    requires a in Fold(events)
    ensures Fold(events)[a].interactions > 0 && Fold(events)[a].address == a
  {
    FoldAggregates(events, a);
    CountPositive(events, About(a));
  }

  /** Applies one observation to a state that folds the events before it. */
  method ApplyObservation(state: map<Address, Counterparty>, o: Observation, ghost past: seq<Event>)
    returns (out: map<Address, Counterparty>)
    requires state == Fold(past)
    ensures out == if Blank(o.counterparty) then Fold(past)
                   else Fold(past + [Event(TrimSpace(o.counterparty), o.relation, o.transfer.blockTime)])
  {
    hide Fold, InsertedRow, MergedRow;
    var address := TrimSpace(o.counterparty);
    if address == "" { return state; }
    var cp := if address in state then state[address] else ZERO_COUNTERPARTY;
    if address in state { FoldedRowsAreLive(past, address); }
    if cp.address == "" { cp := cp.(address := address); }
    var event := Event(address, o.relation, o.transfer.blockTime);
    var applied := ApplyEvent(cp, event);
    FoldSnoc(past, event);
    out := state[address := applied];
  }

  /** Applies observations to a state that already folds some events. */
  method ApplyObservations(state: map<Address, Counterparty>, observations: seq<Observation>, ghost past: seq<Event>)
    returns (out: map<Address, Counterparty>)
    requires state == Fold(past)
    ensures out == Fold(past + EventsOf(observations))
  {
    out := state;
    ghost var events := past;
    assert past + EventsOf([]) == past;
    for i := 0 to |observations|
      invariant events == past + EventsOf(observations[..i]) && out == Fold(events)
    {
      assert observations[..i + 1][..i] == observations[..i];
      var o := observations[i];
      out := ApplyObservation(out, o, events);
      if !Blank(o.counterparty) { events := events + [Event(TrimSpace(o.counterparty), o.relation, o.transfer.blockTime)]; }
    }
    assert observations[..|observations|] == observations;
  }

  // ---- The whole wallet ----

  /** What the detector would observe with the baseline and scan windows fetched in full. */
  function TrueBaseline(p: CoreSyncParams, h: seq<EnhancedTransaction>): seq<Observation> {
    Observed(p, Window(h, p.baselineStart, p.baselineEnd))
  }

  function TrueScan(p: CoreSyncParams, h: seq<EnhancedTransaction>): seq<Observation> {
    Observed(p, Window(h, p.scanStart, p.scanEnd))
  }

  function DetectorParams(p: CoreSyncParams, baselineComplete: bool): MaterializeParams {
    MaterializeParams(baselineComplete, p.recencyDays, p.rule, p.minInjectionCount)
  }

  /** The candidates that the real history calls for. */
  ghost function TrueCandidates(p: CoreSyncParams, h: seq<EnhancedTransaction>): seq<PoisoningCandidate> {
    Emitted(TrueBaseline(p, h), TrueScan(p, h), DetectorParams(p, true), |TrueScan(p, h)|)
  }

  /** No transfer of the history inside the baseline window moves anything between the focal wallet and `c`. */
  ghost predicate NeverMetBefore(p: CoreSyncParams, h: seq<EnhancedTransaction>, c: Address) {
    forall tx, i: nat :: tx in h && p.baselineStart <= tx.time < p.baselineEnd && i < TransferCount(tx) ==>
      !Moves(tx, i, TrimSpace(p.focal), c) && !Moves(tx, i, c, TrimSpace(p.focal))
  }

  /** In transfer `i` the focal wallet paid `c` an amount above dust. */
  ghost predicate IsPayment(p: CoreSyncParams, tx: EnhancedTransaction, i: nat, c: Address)
    requires i < TransferCount(tx)
  {
    Moves(tx, i, TrimSpace(p.focal), c) && Counts(tx, i) && p.classify(Rows(tx)[i]) == DustFalse
  }

  /** `t` is when the wallet last paid `c` in the baseline window, over the whole history. */
  ghost predicate LastPaidAt(p: CoreSyncParams, h: seq<EnhancedTransaction>, c: Address, t: int) {
    && (exists tx, i: nat :: tx in h && p.baselineStart <= tx.time < p.baselineEnd && i < TransferCount(tx)
                          && IsPayment(p, tx, i, c) && tx.time == t)
    && (forall tx, i: nat :: tx in h && p.baselineStart <= tx.time < p.baselineEnd && i < TransferCount(tx) ==>
         (IsPayment(p, tx, i, c) ==> tx.time <= t))
  }

  /** What a row says of its transfer. */
  lemma RowFacts(tx: EnhancedTransaction, i: nat)
    requires i < TransferCount(tx)
    ensures forall a, b :: Moves(tx, i, a, b) <==> TrimSpace(Rows(tx)[i].source) == a && TrimSpace(Rows(tx)[i].destination) == b
    ensures Rows(tx)[i].eligible <==> Counts(tx, i)
    ensures Rows(tx)[i].status == Resolved <==> Resolves(tx, i)
    ensures Rows(tx)[i].blockTime == tx.time && Rows(tx)[i].signature == tx.signature && Rows(tx)[i].index == i
    ensures Counts(tx, i) ==> Rows(tx)[i].assetType in {NativeSOL, SPLFungible}
  {
    RowsAreRecorded(tx);
    hide Rows, Counts, DigitsOnly;
    assert Records(tx, i, Rows(tx)[i]);
    if Counts(tx, i) { CountsMeansResolved(tx, i); }
  }

  lemma CountsMeansResolved(tx: EnhancedTransaction, i: nat)
    requires i < TransferCount(tx) && Counts(tx, i)
    ensures Resolves(tx, i)
  {
  }

  /** A counterparty address as `MapWalletRelation` produces it. */
  predicate MappedAddress(p: CoreSyncParams, c: Address) {
    Trimmed(c) && !Blank(c) && c != TrimSpace(p.focal)
  }

  lemma ObservedAddress(p: CoreSyncParams, txs: seq<EnhancedTransaction>, o: Observation)
    requires o in Observed(p, txs)
    ensures MappedAddress(p, o.counterparty)
  {
    ObservationsOfMembers(p.focal, TransfersOf(txs, p.classify), o);
    MappingIsExact(p.focal, o.transfer, o.counterparty);
  }

  lemma SameMapping(focal: Address, row: NormalizedTransfer, classify: DustClassifier)
    ensures MapWalletRelation(focal, Classified(row, classify)) == MapWalletRelation(focal, row)
  {
  }

  /** The observation made of row `i` of a transaction in the window. */
  lemma RowIsObserved(p: CoreSyncParams, h: seq<EnhancedTransaction>, start: int, end: int, tx: EnhancedTransaction, i: nat, m: Mapping)
    requires tx in h && InWindow(tx, start, end) && i < |Rows(tx)|
    requires MapWalletRelation(p.focal, Rows(tx)[i]) == Some(m)
    ensures Observation(Classified(Rows(tx)[i], p.classify), m.relation, m.counterparty) in Observed(p, Window(h, start, end))
  {
    var tr := Classified(Rows(tx)[i], p.classify);
    assert tr == ClassifiedRows(tx, p.classify)[i];
    ObservedMembers(p, h, start, end, Observation(tr, m.relation, m.counterparty));
  }

  lemma MetMeansSeen(p: CoreSyncParams, h: seq<EnhancedTransaction>, c: Address, tx: EnhancedTransaction, i: nat)
    requires ValidCoreParams(p) && MappedAddress(p, c)
    requires tx in h && InWindow(tx, p.baselineStart, p.baselineEnd) && i < TransferCount(tx)
    requires Moves(tx, i, TrimSpace(p.focal), c) || Moves(tx, i, c, TrimSpace(p.focal))
    ensures SeenInBaseline(TrueBaseline(p, h), c)
  {
    RowFacts(tx, i);
    MappingIsExact(p.focal, Rows(tx)[i], c);
    hide MapWalletRelation, Rows, Moves;
    RowIsObserved(p, h, p.baselineStart, p.baselineEnd, tx, i, MapWalletRelation(p.focal, Rows(tx)[i]).value);
  }

  /** A counterparty the baseline observations never saw is one the history never met in the window, and conversely. */
  lemma UnseenMeansNeverMet(p: CoreSyncParams, h: seq<EnhancedTransaction>, c: Address)
    requires ValidCoreParams(p) && MappedAddress(p, c)
    ensures SeenInBaseline(TrueBaseline(p, h), c) <==> !NeverMetBefore(p, h, c)
  {
    if !NeverMetBefore(p, h, c) {
      var tx, i: nat :| tx in h && p.baselineStart <= tx.time < p.baselineEnd && i < TransferCount(tx)
                && (Moves(tx, i, TrimSpace(p.focal), c) || Moves(tx, i, c, TrimSpace(p.focal)));
      MetMeansSeen(p, h, c, tx, i);
    }
    if SeenInBaseline(TrueBaseline(p, h), c) {
      var o :| o in TrueBaseline(p, h) && o.counterparty == c;
      SeenMeansMet(p, h, o);
    }
  }

  lemma SeenMeansMet(p: CoreSyncParams, h: seq<EnhancedTransaction>, o: Observation)
    requires o in TrueBaseline(p, h)
    ensures !NeverMetBefore(p, h, o.counterparty)
  {
    hide MapWalletRelation, Observed, Window, Moves;
    ObservedMembers(p, h, p.baselineStart, p.baselineEnd, o);
    var tx :| tx in h && InWindow(tx, p.baselineStart, p.baselineEnd) && o.transfer in ClassifiedRows(tx, p.classify);
    var i :| 0 <= i < |Rows(tx)| && ClassifiedRows(tx, p.classify)[i] == o.transfer;
    assert o.transfer == Classified(Rows(tx)[i], p.classify);
    RowFacts(tx, i);
    hide Rows;
    MappingIsExact(p.focal, o.transfer, o.counterparty);
    assert Moves(tx, i, TrimSpace(p.focal), o.counterparty) || Moves(tx, i, o.counterparty, TrimSpace(p.focal));
  }

  lemma LegitRowIsPayment(p: CoreSyncParams, tx: EnhancedTransaction, i: nat, o: Observation)
    requires i < TransferCount(tx) && o.transfer == Classified(Rows(tx)[i], p.classify) && IsLegit(o)
    requires MapWalletRelation(p.focal, o.transfer) == Some(Mapping(o.relation, o.counterparty))
    ensures IsPayment(p, tx, i, o.counterparty) && tx.time == o.transfer.blockTime
  {
    RowFacts(tx, i);
    MappingIsExact(p.focal, o.transfer, o.counterparty);
    hide Rows, Moves, Counts;
  }

  lemma LegitObservationIsPayment(p: CoreSyncParams, h: seq<EnhancedTransaction>, o: Observation)
    requires o in TrueBaseline(p, h) && IsLegit(o)
    ensures exists tx, i: nat :: tx in h && p.baselineStart <= tx.time < p.baselineEnd && i < TransferCount(tx)
                              && IsPayment(p, tx, i, o.counterparty) && tx.time == o.transfer.blockTime
  {
    hide MapWalletRelation, IsPayment, IsLegit, Observed, Window;
    ObservedMembers(p, h, p.baselineStart, p.baselineEnd, o);
    var tx :| tx in h && InWindow(tx, p.baselineStart, p.baselineEnd) && o.transfer in ClassifiedRows(tx, p.classify);
    var i :| 0 <= i < |Rows(tx)| && ClassifiedRows(tx, p.classify)[i] == o.transfer;
    assert o.transfer == Classified(Rows(tx)[i], p.classify);
    LegitRowIsPayment(p, tx, i, o);
  }

  /** The observation that a payment makes. */
  lemma PaymentIsLegitObservation(p: CoreSyncParams, h: seq<EnhancedTransaction>, c: Address, tx: EnhancedTransaction, i: nat) returns (o: Observation)
    requires ValidCoreParams(p) && MappedAddress(p, c)
    requires tx in h && InWindow(tx, p.baselineStart, p.baselineEnd) && i < TransferCount(tx) && IsPayment(p, tx, i, c)
    ensures o in TrueBaseline(p, h) && IsLegit(o) && o.counterparty == c && o.transfer.blockTime == tx.time
  {
    RowFacts(tx, i);
    CountsMeansResolved(tx, i);
    hide Rows, Moves, Counts;
    RowIsObserved(p, h, p.baselineStart, p.baselineEnd, tx, i, Mapping(Sender, c));
    o := Observation(Classified(Rows(tx)[i], p.classify), Sender, c);
  }

  /** Who is paid is an address as `MapWalletRelation` produces it. */
  lemma PayeeIsMapped(p: CoreSyncParams, tx: EnhancedTransaction, i: nat, c: Address)
    requires i < TransferCount(tx) && IsPayment(p, tx, i, c)
    ensures MappedAddress(p, c)
  {
  }

  /** The latest legitimate baseline observation is the latest payment of the history in the window. */
  lemma LastLegitIsLastPayment(p: CoreSyncParams, h: seq<EnhancedTransaction>, c: Address)
    requires ValidCoreParams(p) && c in LegitSet(TrueBaseline(p, h))
    ensures LastPaidAt(p, h, c, LastLegit(TrueBaseline(p, h), c))
  {
    var b := TrueBaseline(p, h);
    LastLegitMeaning(b, c);
    var t := LastLegit(b, c);
    var o :| o in b && IsLegit(o) && o.counterparty == c && o.transfer.blockTime == t;
    LegitObservationIsPayment(p, h, o);
    ObservedAddress(p, Window(h, p.baselineStart, p.baselineEnd), o);
    hide Observed, IsPayment, IsLegit, LastLegit, LegitSet;
    forall tx, i: nat | tx in h && p.baselineStart <= tx.time < p.baselineEnd && i < TransferCount(tx) && IsPayment(p, tx, i, c)
      ensures tx.time <= t
    {
      var paid := PaymentIsLegitObservation(p, h, c, tx, i);
    }
  }

  /** A candidate is new to the real history, and resembles another address the wallet really paid, last at the time
      recorded. */
  ghost predicate Genuine(p: CoreSyncParams, h: seq<EnhancedTransaction>, c: PoisoningCandidate) {
    && NeverMetBefore(p, h, c.suspicious)
    && LastPaidAt(p, h, c.matchedLegit, c.legitLastSeenAt)
    && c.suspicious != c.matchedLegit && Resembles(c.suspicious, c.matchedLegit, p.rule)
    && 0 < c.blockTime - c.legitLastSeenAt <= p.recencyDays * 86400
  }

  lemma EmissionIsGenuine(p: CoreSyncParams, h: seq<EnhancedTransaction>, txs: seq<EnhancedTransaction>, scan: seq<Observation>, o: Observation)
    requires ValidCoreParams(p) && o in Observed(p, txs)
    requires Emits(TrueBaseline(p, h), scan, DetectorParams(p, true), o)
    ensures Genuine(p, h, CandidateOf(TrueBaseline(p, h), scan, DetectorParams(p, true), o))
  {
    var b, d := TrueBaseline(p, h), DetectorParams(p, true);
    ObservedAddress(p, txs, o);
    UnseenMeansNeverMet(p, h, o.counterparty);
    MatchDecides(b, d, o);
    LastLegitIsLastPayment(p, h, MatchOf(b, d, o));
  }

  /** An incomplete baseline emits nothing. */
  lemma {:induction false} TruncatedBaselineEmitsNothing(baseline: seq<Observation>, scan: seq<Observation>, d: MaterializeParams, n: nat)
    requires !d.baselineComplete && n <= |scan|
    ensures Emitted(baseline, scan, d, n) == []
  {
    if n > 0 { TruncatedBaselineEmitsNothing(baseline, scan, d, n - 1); }
  }

  /** Candidates found on a fetched part of the scan window, with the baseline fetched in full. */
  lemma FoundCandidates(p: CoreSyncParams, h: seq<EnhancedTransaction>, txs: seq<EnhancedTransaction>, c: PoisoningCandidate)
    requires ValidCoreParams(p) && txs <= Window(h, p.scanStart, p.scanEnd)
    requires c in Emitted(TrueBaseline(p, h), Observed(p, txs), DetectorParams(p, true), |Observed(p, txs)|)
    ensures Genuine(p, h, c)
    ensures FoundAgain(c, TrueCandidates(p, h))
  {
    var b, scan, d := TrueBaseline(p, h), Observed(p, txs), DetectorParams(p, true);
    EmittedMembers(b, scan, d, |scan|, c);
    var k :| 0 <= k < |scan| && Emits(b, scan, d, scan[k]) && c == CandidateOf(b, scan, d, scan[k]);
    EmissionIsGenuine(p, h, txs, scan, scan[k]);
    ObservedPrefix(p, txs, Window(h, p.scanStart, p.scanEnd));
    TruncationCreatesNothing(b, scan, TrueScan(p, h), d, c);
  }

  // ---- Reasons ----

  function CodeText(c: TruncationCode): (s: string)
    ensures s != "" && !IsSpace(s[0])
  {
    match c
    case MaxPagesReached => "max_tx_pages_per_wallet_reached"
    case MaxTxReached => "max_tx_per_wallet_reached"
    case HeliusRetryExhausted => "helius_retry_exhausted"
  }

  /** The reason a truncated window contributes; blank when the window is whole. */
  function TruncationReason(window: string, code: Option<TruncationCode>): (s: string)
    requires window != "" && !IsSpace(window[0])
    ensures Blank(s) <==> code.None?
  {
    match code
    case None => assert Blank(""); ""
    case Some(c) =>
      var s := window + "_truncation:" + CodeText(c);
      NotBlank(s);
      s
  }

  /** The texts of truncations. */
  lemma TruncationTexts(code: TruncationCode)
    ensures TruncationReason("baseline", Some(code)) == "baseline_truncation:" + TruncationText(code)
    ensures TruncationReason("scan", Some(code)) == "scan_truncation:" + TruncationText(code)
    ensures TruncationReason("baseline", None) == TruncationReason("scan", None) == ""
  {
    assert "baseline" + "_truncation:" == "baseline_truncation:" && "scan" + "_truncation:" == "scan_truncation:";
  }

  function TruncationText(code: TruncationCode): string {
    if code == MaxTxReached then "max_tx_per_wallet_reached"
    else if code == MaxPagesReached then "max_tx_pages_per_wallet_reached"
    else "helius_retry_exhausted"
  }

  // ---- The run ----

  /** What a successful run says about the provider's real history. */
  ghost predicate Trustworthy(p: CoreSyncParams, h: seq<EnhancedTransaction>, r: CoreSyncResult) {
    && (r.baselineComplete <==> r.baselineTruncation.None?)
    && (!r.baselineComplete ==> r.candidates == [])
    && (forall c :: c in r.candidates ==> Genuine(p, h, c))
    && (forall c :: c in r.candidates ==> FoundAgain(c, TrueCandidates(p, h)))
    && (r.baselineComplete && r.scanTruncation.None? ==> r.candidates == TrueCandidates(p, h))
  }

  /** The transfers are those of a fetched part of a window. */
  ghost predicate FetchedFrom(p: CoreSyncParams, h: seq<EnhancedTransaction>, start: int, end: int, transfers: seq<NormalizedTransfer>) {
    exists txs :: txs <= Window(h, start, end) && transfers == TransfersOf(txs, p.classify)
  }

  /** What was fetched: `older` of the baseline window and `newer` of the scan window, and all of a window that is not
      truncated. Every transaction fetched is counted. */
  ghost predicate FetchedAs(p: CoreSyncParams, h: seq<EnhancedTransaction>, r: CoreSyncResult, older: seq<EnhancedTransaction>, newer: seq<EnhancedTransaction>) {
    && older <= Window(h, p.baselineStart, p.baselineEnd) && r.baselineTransfers == TransfersOf(older, p.classify)
    && newer <= Window(h, p.scanStart, p.scanEnd) && r.scanTransfers == TransfersOf(newer, p.classify)
    && (r.baselineTruncation.None? ==> older == Window(h, p.baselineStart, p.baselineEnd))
    && (r.scanTruncation.None? ==> newer == Window(h, p.scanStart, p.scanEnd))
    && r.transactionsFetched == |older| + |newer|
  }

  /** The counters that speak of the transfers. */
  predicate TransfersCounted(r: CoreSyncResult) {
    var all := r.baselineTransfers + r.scanTransfers;
    && r.failedNormalize == |UnresolvedAt(all)| && r.ownerUnresolved == |OwnerUnresolvedAt(all)|
    && r.unsupportedAsset == |UnsupportedAt(all)| && r.decimalsUnresolved == |DecimalsMissingAt(all)|
  }

  /** Positions of transfers. */
  function UnresolvedAt(all: seq<NormalizedTransfer>): set<nat> { set i: nat | 0 <= i < |all| && all[i].status != Resolved }
  function OwnerUnresolvedAt(all: seq<NormalizedTransfer>): set<nat> { set i: nat | 0 <= i < |all| && all[i].status == UnresolvedOwner }
  function UnsupportedAt(all: seq<NormalizedTransfer>): set<nat> { set i: nat | 0 <= i < |all| && all[i].status == UnsupportedAsset }
  function DecimalsMissingAt(all: seq<NormalizedTransfer>): set<nat> {
    set i: nat | 0 <= i < |all| && all[i].assetType == SPLFungible && all[i].decimals.None?
  }

  /** Positions of observations among the first `n`. */
  ghost function UndecidedAt(scan: seq<Observation>, d: MaterializeParams, n: nat): set<nat>
    requires n <= |scan|
  {
    set k: nat | k < n && Undecided(scan, d, scan[k])
  }

  ghost function BlockedAt(baseline: seq<Observation>, scan: seq<Observation>, d: MaterializeParams, n: nat): set<nat>
    requires n <= |scan|
  {
    set k: nat | k < n && !Emits(baseline, scan, d, scan[k])
  }

  /** The counters that speak of the scanned observations. */
  ghost predicate BlocksCounted(p: CoreSyncParams, r: CoreSyncResult) {
    var scan, d := r.scanObservations, DetectorParams(p, r.baselineComplete);
    && r.unknownGateBlocks == |UndecidedAt(scan, d, |scan|)|
    && r.candidateBlocks == |BlockedAt(r.baselineObservations, scan, d, |scan|)|
  }

  /** The reason merges the names of the unknown gates with those of the truncated windows. */
  ghost predicate ReasonGiven(p: CoreSyncParams, r: CoreSyncResult) {
    exists gates :: GatesOf(gates) == UnknownUpTo(r.baselineObservations, r.scanObservations, DetectorParams(p, r.baselineComplete), |r.scanObservations|)
                 && r.unknownGateReason == Merged([gates, TruncationReason("baseline", r.baselineTruncation), TruncationReason("scan", r.scanTruncation)])
  }

  /** The bookkeeping of a run. */
  ghost predicate Consistent(p: CoreSyncParams, h: seq<EnhancedTransaction>, r: CoreSyncResult) {
    && FetchedFrom(p, h, p.baselineStart, p.baselineEnd, r.baselineTransfers)
    && FetchedFrom(p, h, p.scanStart, p.scanEnd, r.scanTransfers)
    && (exists older, newer :: FetchedAs(p, h, r, older, newer))
    && TransfersCounted(r) && BlocksCounted(p, r) && ReasonGiven(p, r)
    && r.baselineObservations == ObservationsOf(p.focal, r.baselineTransfers)
    && r.scanObservations == ObservationsOf(p.focal, r.scanTransfers)
    && r.counterparties == Fold(EventsOf(r.baselineObservations) + EventsOf(r.scanObservations))
    && |r.candidates| + r.candidateBlocks == |r.scanObservations|
    && (r.incompleteWindow <==> r.baselineTruncation.Some? || r.scanTruncation.Some? || r.unknownGateBlocks > 0)
    && (r.incompleteWindow <==> !Blank(r.unknownGateReason))
    && (r.retryExhausted <==> Some(HeliusRetryExhausted) in {r.baselineTruncation, r.scanTruncation})
  }

  /** The other owner that a fingerprint records. */
  function Partner(fingerprint: Fingerprint, relation: Relation): Address {
    if relation == Sender then TrimSpace(fingerprint.destination) else TrimSpace(fingerprint.source)
  }

  /** An observation is about the other owner its transfer's fingerprint records. */
  predicate Named(o: Observation) {
    o.counterparty == Partner(o.transfer.fingerprint, o.relation) && o.counterparty != ""
    && o.transfer.fingerprint.signature == o.transfer.signature
  }

  lemma RowIdentity(tx: EnhancedTransaction, classify: DustClassifier, tr: NormalizedTransfer)
    requires tr in ClassifiedRows(tx, classify)
    ensures tr.fingerprint.source == tr.source && tr.fingerprint.destination == tr.destination
    ensures tr.signature == tr.fingerprint.signature == tx.signature
  {
    var i :| 0 <= i < |Rows(tx)| && ClassifiedRows(tx, classify)[i] == tr;
    assert Rows(tx)[i] == Row(tx, i) && tr == Classified(Rows(tx)[i], classify);
  }

  lemma MappedPartner(focal: Address, tr: NormalizedTransfer, m: Mapping)
    requires MapWalletRelation(focal, tr) == Some(m)
    requires tr.fingerprint.source == tr.source && tr.fingerprint.destination == tr.destination
    ensures m.counterparty == Partner(tr.fingerprint, m.relation) && m.counterparty != ""
  {
  }

  lemma ObservationIsNamed(p: CoreSyncParams, h: seq<EnhancedTransaction>, start: int, end: int, transfers: seq<NormalizedTransfer>, o: Observation)
    requires FetchedFrom(p, h, start, end, transfers) && o in ObservationsOf(p.focal, transfers)
    ensures Named(o) && o.transfer in transfers
  {
    hide TransfersOf, ObservationsOf, Window, ClassifiedRows, MapWalletRelation, Partner;
    var txs :| txs <= Window(h, start, end) && transfers == TransfersOf(txs, p.classify);
    ObservationsOfMembers(p.focal, transfers, o);
    TransfersOfMembers(txs, p.classify, o.transfer);
    var tx :| tx in txs && o.transfer in ClassifiedRows(tx, p.classify);
    RowIdentity(tx, p.classify, o.transfer);
    MappedPartner(p.focal, o.transfer, Mapping(o.relation, o.counterparty));
  }

  lemma ObservationsAreNamed(p: CoreSyncParams, h: seq<EnhancedTransaction>, r: CoreSyncResult)
    requires Consistent(p, h, r)
    ensures forall o :: o in r.baselineObservations + r.scanObservations ==> Named(o) && o.transfer in r.baselineTransfers + r.scanTransfers
  {
    hide Named, FetchedFrom, ObservationsOf;
    forall o | o in r.baselineObservations + r.scanObservations
      ensures Named(o) && o.transfer in r.baselineTransfers + r.scanTransfers
    {
      if o in r.baselineObservations {
        ObservationIsNamed(p, h, p.baselineStart, p.baselineEnd, r.baselineTransfers, o);
      } else {
        ObservationIsNamed(p, h, p.scanStart, p.scanEnd, r.scanTransfers, o);
      }
    }
  }

  // ---- Identity of transfers ----

  /** No two transfers share a fingerprint. */
  ghost predicate DistinctFingerprints(transfers: seq<NormalizedTransfer>) {
    forall i, j :: 0 <= i < j < |transfers| ==> transfers[i].fingerprint != transfers[j].fingerprint
  }

  /** No two rows of one transaction share a fingerprint. */
  ghost predicate CollisionFree(h: seq<EnhancedTransaction>) {
    forall tx :: tx in h ==> DistinctFingerprints(Rows(tx))
  }

  ghost predicate DistinctSignatures(txs: seq<EnhancedTransaction>) {
    forall i, j :: 0 <= i < j < |txs| ==> txs[i].signature != txs[j].signature
  }

  lemma {:induction false} DistinctTransfers(txs: seq<EnhancedTransaction>, classify: DustClassifier)
    requires DistinctSignatures(txs) && CollisionFree(txs)
    ensures DistinctFingerprints(TransfersOf(txs, classify))
  {
    if txs != [] {
      var init, last := txs[..|txs| - 1], txs[|txs| - 1];
      DistinctTransfers(init, classify);
      var before, rows := TransfersOf(init, classify), ClassifiedRows(last, classify);
      assert DistinctFingerprints(Rows(last));
      assert forall k :: 0 <= k < |rows| ==> rows[k].fingerprint == Rows(last)[k].fingerprint;
      forall x, y | x in before && y in rows ensures x.fingerprint != y.fingerprint {
        TransfersOfMembers(init, classify, x);
        var tx :| tx in init && x in ClassifiedRows(tx, classify);
        RowIdentity(tx, classify, x);
        RowIdentity(last, classify, y);
      }
      forall i, j | 0 <= i < j < |before + rows| ensures (before + rows)[i].fingerprint != (before + rows)[j].fingerprint {
        if i < |before| <= j { assert before[i] in before && rows[j - |before|] in rows; }
      }
    }
  }

  /** Parts of two adjacent windows of one history repeat no signature. */
  lemma AdjacentPartsDistinct(h: seq<EnhancedTransaction>, a: int, b: int, c: int, older: seq<EnhancedTransaction>, newer: seq<EnhancedTransaction>)
    requires NewestFirst(h) && older <= Window(h, a, b) && newer <= Window(h, b, c)
    ensures DistinctSignatures(older + newer)
    ensures forall tx :: tx in older + newer ==> tx in h
  {
    WindowNewestFirst(h, a, b);
    WindowNewestFirst(h, b, c);
    forall tx | tx in older ensures tx in h && InWindow(tx, a, b) {
      assert tx in Window(h, a, b);
      WindowMembers(h, a, b, tx);
    }
    forall tx | tx in newer ensures tx in h && InWindow(tx, b, c) {
      assert tx in Window(h, b, c);
      WindowMembers(h, b, c, tx);
    }
    forall i, j | 0 <= i < |older| && 0 <= j < |newer| ensures older[i].signature != newer[j].signature {
      assert older[i] in older && newer[j] in newer;
      var k :| 0 <= k < |h| && h[k] == older[i];
      var l :| 0 <= l < |h| && h[l] == newer[j];
    }
  }

  /** With no collision inside a transaction, no two transfers of a run share an identity. */
  lemma RunTransfersDistinct(p: CoreSyncParams, h: seq<EnhancedTransaction>, r: CoreSyncResult)
    requires NewestFirst(h) && CollisionFree(h) && ValidCoreParams(p) && Consistent(p, h, r)
    ensures DistinctFingerprints(r.baselineTransfers + r.scanTransfers)
  {
    var older :| older <= Window(h, p.baselineStart, p.baselineEnd) && r.baselineTransfers == TransfersOf(older, p.classify);
    var newer :| newer <= Window(h, p.scanStart, p.scanEnd) && r.scanTransfers == TransfersOf(newer, p.classify);
    AdjacentPartsDistinct(h, p.baselineStart, p.baselineEnd, p.scanEnd, older, newer);
    DistinctTransfers(older + newer, p.classify);
    TransfersOfAppend(older, newer, p.classify);
  }

  /** Distinct transfers make distinct observations. */
  lemma {:induction false} DistinctObservations(focal: Address, transfers: seq<NormalizedTransfer>)
    requires DistinctFingerprints(transfers)
    ensures var os := ObservationsOf(focal, transfers);
            forall i, j :: 0 <= i < j < |os| ==> os[i].transfer.fingerprint != os[j].transfer.fingerprint
  {
    if transfers != [] {
      var init, last := transfers[..|transfers| - 1], transfers[|transfers| - 1];
      DistinctObservations(focal, init);
      var before := ObservationsOf(focal, init);
      forall i | 0 <= i < |before| ensures before[i].transfer.fingerprint != last.fingerprint {
        ObservationsOfMembers(focal, init, before[i]);
      }
    }
  }

  function FetchParams(p: CoreSyncParams, start: int, end: int): FetchWindowParams {
    FetchWindowParams(start, end, p.maxTxPages, p.maxTx, p.maxRetries, p.requestDelay)
  }

  /** Both windows are fetched with the limits of the run, which is refused when any of its parameters is out of range. */
  lemma ParamsMeaning(p: CoreSyncParams, start: int, end: int)
    ensures var f := FetchParams(p, start, end);
            && f.start == start && f.end == end && f.maxPages == p.maxTxPages && f.maxTx == p.maxTx
            && f.maxRetries == p.maxRetries && f.requestDelay == p.requestDelay
    ensures !ValidCoreParams(p) <==>
              || TrimSpace(p.focal) == "" || p.baselineStart >= p.baselineEnd || p.scanStart >= p.scanEnd || p.baselineEnd != p.scanStart
              || p.maxTxPages < 1 || p.maxTx < 1 || p.maxRetries < 0 || p.requestDelay < 0 || p.recencyDays < 1
              || p.rule.prefixMin < 4 || p.rule.suffixMin < 4 || p.rule.singleSideMin < 6 || p.minInjectionCount < 1
  {
    BlankMeaning(p.focal);
  }

  /** Page requests one window may cost. */
  function WindowCost(maxPages: nat, maxRetries: nat): nat { maxPages * (maxRetries + 1) }

  lemma DetectorIsTrustworthy(p: CoreSyncParams, h: seq<EnhancedTransaction>, baseline: FetchWindowResult, scan: FetchWindowResult, m: MaterializationResult)
    requires ValidCoreParams(p)
    requires Faithful(h, FetchParams(p, p.baselineStart, p.baselineEnd), baseline)
    requires Faithful(h, FetchParams(p, p.scanStart, p.scanEnd), scan)
    requires Reports(Observed(p, baseline.transactions), Observed(p, scan.transactions), DetectorParams(p, !baseline.partial), m)
    ensures baseline.partial ==> m.candidates == []
    ensures forall c :: c in m.candidates ==> Genuine(p, h, c)
    ensures forall c :: c in m.candidates ==> FoundAgain(c, TrueCandidates(p, h))
    ensures !baseline.partial && !scan.partial ==> m.candidates == TrueCandidates(p, h)
  {
    hide Genuine, TrueCandidates;
    if baseline.partial {
      TruncatedBaselineEmitsNothing(Observed(p, baseline.transactions), Observed(p, scan.transactions), DetectorParams(p, false), |Observed(p, scan.transactions)|);
    } else {
      forall c | c in m.candidates
        ensures Genuine(p, h, c) && FoundAgain(c, TrueCandidates(p, h))
      {
        FoundCandidates(p, h, scan.transactions, c);
      }
      if !scan.partial { CompleteIsTrue(p, h); }
    }
  }

  lemma CompleteIsTrue(p: CoreSyncParams, h: seq<EnhancedTransaction>)
    ensures TrueCandidates(p, h) == Emitted(TrueBaseline(p, h), Observed(p, Window(h, p.scanStart, p.scanEnd)), DetectorParams(p, true),
                                            |Observed(p, Window(h, p.scanStart, p.scanEnd))|)
  {
  }

  lemma CountsArePositions(all: seq<NormalizedTransfer>)
    ensures Count(all, IsUnresolved()) == |UnresolvedAt(all)| && Count(all, IsOwnerUnresolved()) == |OwnerUnresolvedAt(all)|
    ensures Count(all, IsUnsupported()) == |UnsupportedAt(all)| && Count(all, LacksDecimals()) == |DecimalsMissingAt(all)|
  {
    hide Count;
    CountMeaning(all, IsUnresolved());
    CountMeaning(all, IsOwnerUnresolved());
    CountMeaning(all, IsUnsupported());
    CountMeaning(all, LacksDecimals());
    assert UnresolvedAt(all) == Positions(all, IsUnresolved());
    assert OwnerUnresolvedAt(all) == Positions(all, IsOwnerUnresolved());
    assert UnsupportedAt(all) == Positions(all, IsUnsupported());
    assert DecimalsMissingAt(all) == Positions(all, LacksDecimals());
  }

  /** The window records add up to numbers of transfers. */
  lemma TransfersAddUp(focal: Address, b: NormalizedWindow, s: NormalizedWindow)
    requires b == WindowOf(focal, b.transfers, b.fetched) && s == WindowOf(focal, s.transfers, s.fetched)
    ensures var all := b.transfers + s.transfers;
            && b.failed + s.failed == |UnresolvedAt(all)| && b.ownerUnresolved + s.ownerUnresolved == |OwnerUnresolvedAt(all)|
            && b.unsupported + s.unsupported == |UnsupportedAt(all)| && b.noDecimals + s.noDecimals == |DecimalsMissingAt(all)|
  {
    hide Count, ObservationsOf;
    CountAppend(b.transfers, s.transfers, IsUnresolved());
    CountAppend(b.transfers, s.transfers, IsOwnerUnresolved());
    CountAppend(b.transfers, s.transfers, IsUnsupported());
    CountAppend(b.transfers, s.transfers, LacksDecimals());
    CountsArePositions(b.transfers + s.transfers);
  }

  lemma {:induction false} UndecidedNumber(scan: seq<Observation>, d: MaterializeParams, n: nat)
    requires n <= |scan|
    ensures UndecidedCount(scan, d, n) == |UndecidedAt(scan, d, n)|
  {
    hide Undecided;
    if n == 0 {
      assert UndecidedAt(scan, d, n) == {};
    } else {
      UndecidedNumber(scan, d, n - 1);
      assert UndecidedAt(scan, d, n) == UndecidedAt(scan, d, n - 1) + if Undecided(scan, d, scan[n - 1]) then {n - 1} else {};
    }
  }

  lemma {:induction false} BlockedNumber(baseline: seq<Observation>, scan: seq<Observation>, d: MaterializeParams, n: nat)
    requires n <= |scan|
    ensures |Emitted(baseline, scan, d, n)| + |BlockedAt(baseline, scan, d, n)| == n
  {
    hide Emits, CandidateOf;
    if n == 0 {
      assert BlockedAt(baseline, scan, d, n) == {};
    } else {
      BlockedNumber(baseline, scan, d, n - 1);
      assert BlockedAt(baseline, scan, d, n) == BlockedAt(baseline, scan, d, n - 1) + if Emits(baseline, scan, d, scan[n - 1]) then {} else {n - 1};
    }
  }

  /** What the detector reports are numbers of observations. */
  lemma ReportsNumbers(baseline: seq<Observation>, scan: seq<Observation>, d: MaterializeParams, m: MaterializationResult)
    requires Reports(baseline, scan, d, m)
    ensures m.unknownGateBlocks == |UndecidedAt(scan, d, |scan|)|
    ensures m.candidateBlocks == |BlockedAt(baseline, scan, d, |scan|)|
  {
    hide UndecidedAt, BlockedAt, UnknownUpTo, Emitted, UndecidedCount;
    UndecidedNumber(scan, d, |scan|);
    BlockedNumber(baseline, scan, d, |scan|);
  }

  /** The in-memory counterparty state of both windows. */
  method BuildCounterparties(baseline: seq<Observation>, scan: seq<Observation>) returns (state: map<Address, Counterparty>)
    ensures state == Fold(EventsOf(baseline) + EventsOf(scan))
  {
    assert [] + EventsOf(baseline) == EventsOf(baseline);
    state := ApplyObservations(map[], baseline, []);
    state := ApplyObservations(state, scan, EventsOf(baseline));
  }

  /** Merges the detector's reason with those of truncated windows. */
  method IncompleteReason(unknownGateReason: string, baseline: Option<TruncationCode>, scan: Option<TruncationCode>) returns (reason: string)
    ensures reason == Merged([unknownGateReason, TruncationReason("baseline", baseline), TruncationReason("scan", scan)])
    ensures Blank(reason) <==> Blank(unknownGateReason) && baseline.None? && scan.None?
  {
    var parts := [unknownGateReason, TruncationReason("baseline", baseline), TruncationReason("scan", scan)];
    assert forall w :: w in parts <==> w == parts[0] || w == parts[1] || w == parts[2];
    reason := MergeReasons(parts);
    MergedMeaning(parts, parts);
  }

  lemma FetchedAreSigned(h: seq<EnhancedTransaction>, p: FetchWindowParams, r: FetchWindowResult)
    requires NewestFirst(h) && Faithful(h, p, r)
    ensures forall tx :: tx in r.transactions ==> tx.signature != ""
  {
    WindowNewestFirst(h, p.start, p.end);
    assert forall tx :: tx in r.transactions ==> tx in Window(h, p.start, p.end);
  }

  /** Everything after the fetches. A faithful fetch has no transaction without a signature, so this cannot fail. */
  method Analyze(p: CoreSyncParams, baselineFetch: FetchWindowResult, scanFetch: FetchWindowResult, ghost h: seq<EnhancedTransaction>)
    returns (r: Result<CoreSyncResult, CoreError>)
    requires ValidCoreParams(p) && NewestFirst(h)
    requires Faithful(h, FetchParams(p, p.baselineStart, p.baselineEnd), baselineFetch)
    requires Faithful(h, FetchParams(p, p.scanStart, p.scanEnd), scanFetch)
    ensures r.Success? && Trustworthy(p, h, r.value) && Consistent(p, h, r.value)
    ensures r.value.baselineTruncation == baselineFetch.code && r.value.scanTruncation == scanFetch.code
  {
    hide Genuine, TrueCandidates, FoundAgain, Emitted;
    FetchedAreSigned(h, FetchParams(p, p.baselineStart, p.baselineEnd), baselineFetch);
    FetchedAreSigned(h, FetchParams(p, p.scanStart, p.scanEnd), scanFetch);
    assert baselineFetch.partial == baselineFetch.code.Some? && scanFetch.partial == scanFetch.code.Some?;
    var baseline := NormalizeWindow(p.focal, baselineFetch.transactions, p.classify);
    if baseline.Failure? {
      assert false;
      return Failure(MissingSignature);
    }
    var scan := NormalizeWindow(p.focal, scanFetch.transactions, p.classify);
    if scan.Failure? {
      assert false;
      return Failure(MissingSignature);
    }
    r := Assemble(p, baselineFetch, scanFetch, baseline.value, scan.value, h);
  }

  /** Counterparty state, detection and the record of the run. */
  method Assemble(p: CoreSyncParams, baselineFetch: FetchWindowResult, scanFetch: FetchWindowResult, b: NormalizedWindow, s: NormalizedWindow,
                  ghost h: seq<EnhancedTransaction>)
    returns (r: Result<CoreSyncResult, CoreError>)
    requires ValidCoreParams(p)
    requires Faithful(h, FetchParams(p, p.baselineStart, p.baselineEnd), baselineFetch)
    requires Faithful(h, FetchParams(p, p.scanStart, p.scanEnd), scanFetch)
    requires b == WindowOf(p.focal, TransfersOf(baselineFetch.transactions, p.classify), |baselineFetch.transactions|)
    requires s == WindowOf(p.focal, TransfersOf(scanFetch.transactions, p.classify), |scanFetch.transactions|)
    ensures r.Success? && Trustworthy(p, h, r.value) && Consistent(p, h, r.value)
    ensures r.value.baselineTruncation == baselineFetch.code && r.value.scanTruncation == scanFetch.code
  {
    hide Genuine, TrueCandidates, FoundAgain, Emitted, Window, TransfersOf, ObservationsOf, Count, UnresolvedAt, OwnerUnresolvedAt, UnsupportedAt, DecimalsMissingAt, UnknownUpTo, UndecidedCount, UndecidedAt, BlockedAt, Merged;
    assert baselineFetch.partial == baselineFetch.code.Some? && scanFetch.partial == scanFetch.code.Some?;
    TransfersAddUp(p.focal, b, s);
    assert FetchedFrom(p, h, p.baselineStart, p.baselineEnd, b.transfers) && FetchedFrom(p, h, p.scanStart, p.scanEnd, s.transfers);
    var state := BuildCounterparties(b.observations, s.observations);
    var baselineComplete := !baselineFetch.partial;
    var m := MaterializeCandidates(b.observations, s.observations, DetectorParams(p, baselineComplete));
    DetectorIsTrustworthy(p, h, baselineFetch, scanFetch, m);
    ReportsNumbers(b.observations, s.observations, DetectorParams(p, baselineComplete), m);
    var incomplete := baselineFetch.partial || scanFetch.partial || m.incompleteWindow;
    var reason := IncompleteReason(m.unknownGateReason, baselineFetch.code, scanFetch.code);
    var result := CoreSyncResult(
      b.transfers, s.transfers, b.observations, s.observations, state, m.candidates, baselineComplete, incomplete, reason,
      baselineFetch.code, scanFetch.code, b.fetched + s.fetched, b.failed + s.failed, b.ownerUnresolved + s.ownerUnresolved,
      b.unsupported + s.unsupported, b.noDecimals + s.noDecimals, m.unknownGateBlocks, m.candidateBlocks,
      baselineFetch.retryExhausted || scanFetch.retryExhausted);
    assert FetchedAs(p, h, result, baselineFetch.transactions, scanFetch.transactions);
    return Success(result);
  }

  /** Why a core sync that made the attempts `(from, to]` failed or saw less than its windows. */
  ghost predicate CoreExplained(client: Client, p: CoreSyncParams, r: Result<CoreSyncResult, CoreError>, from: nat, to: nat) {
    var h, older, newer := client.History(p.focal), FetchParams(p, p.baselineStart, p.baselineEnd), FetchParams(p, p.scanStart, p.scanEnd);
    match r
    case Failure(e) => e.FetchFailed? && (ErrorExplained(client, older, e.error, from, to) || ErrorExplained(client, newer, e.error, from, to))
    case Success(res) =>
      && (res.baselineTruncation.Some? ==> Explained(client, h, older, res.baselineTruncation.value, from, to))
      && (res.scanTruncation.Some? ==> Explained(client, h, newer, res.scanTruncation.value, from, to))
  }

  /** When the provider answers and both windows lie inside the caps, the core sync succeeds with exactly the candidates
      the real history calls for, and the window is incomplete only for undecided gates. */
  lemma AnsweredCoreIsTrue(client: Client, p: CoreSyncParams, r: Result<CoreSyncResult, CoreError>, from: nat, to: nat)
    requires ValidCoreParams(p) && Responds(client) && CoreExplained(client, p, r, from, to)
    requires Fits(client, client.History(p.focal), FetchParams(p, p.baselineStart, p.baselineEnd))
    requires Fits(client, client.History(p.focal), FetchParams(p, p.scanStart, p.scanEnd))
    requires r.Success? ==> Trustworthy(p, client.History(p.focal), r.value) && Consistent(p, client.History(p.focal), r.value)
    ensures r.Success? && r.value.candidates == TrueCandidates(p, client.History(p.focal))
    ensures r.value.incompleteWindow <==> r.value.unknownGateBlocks > 0
  {
    hide Fits, Explained, ErrorExplained, Genuine, TrueCandidates, FoundAgain, FetchedFrom;
    NothingExplains(client, client.History(p.focal), FetchParams(p, p.baselineStart, p.baselineEnd), from, to);
    NothingExplains(client, client.History(p.focal), FetchParams(p, p.scanStart, p.scanEnd), from, to);
  }

  /** Two fetches, normalization, counterparty state and detection for one wallet. */
  method RunWalletCoreSync(client: Client, p: CoreSyncParams) returns (r: Result<CoreSyncResult, CoreError>)
    requires NewestFirst(client.History(p.focal))
    modifies client`attempts
    ensures r == Failure(InvalidCoreParams) <==> !ValidCoreParams(p)
    ensures r.Success? ==> Trustworthy(p, client.History(p.focal), r.value) && Consistent(p, client.History(p.focal), r.value)
    ensures ValidCoreParams(p) ==> CoreExplained(client, p, r, old(client.attempts), client.attempts)
    ensures old(client.attempts) <= client.attempts
    ensures !ValidCoreParams(p) ==> client.attempts == old(client.attempts)
    ensures ValidCoreParams(p) ==> client.attempts <= old(client.attempts) + 2 * WindowCost(p.maxTxPages, p.maxRetries)
  {
    hide Explained, ErrorExplained, Trustworthy, Consistent, Faithful;
    if !ValidCoreParams(p) { return Failure(InvalidCoreParams); }
    ghost var h, older, newer := client.History(p.focal), FetchParams(p, p.baselineStart, p.baselineEnd), FetchParams(p, p.scanStart, p.scanEnd);
    ghost var from := client.attempts;
    var baselineFetch, baselineErr := FetchEnhancedWindow(client, p.focal, FetchParams(p, p.baselineStart, p.baselineEnd));
    if baselineErr.Some? { return Failure(FetchFailed(baselineErr.value)); }
    ghost var mid := client.attempts;
    var scanFetch, scanErr := FetchEnhancedWindow(client, p.focal, FetchParams(p, p.scanStart, p.scanEnd));
    ExplanationsWiden(client, h, older, from, mid, from, client.attempts);
    ExplanationsWiden(client, h, newer, mid, client.attempts, from, client.attempts);
    if scanErr.Some? { return Failure(FetchFailed(scanErr.value)); }
    r := Analyze(p, baselineFetch, scanFetch, client.History(p.focal));
  }
}
