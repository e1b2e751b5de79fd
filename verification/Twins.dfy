/** Transfers that the tables count once and the core sync twice: when a run has any, and that a real run can. */
module Twins {
  import opened Wrappers
  import opened Text
  import opened Reasons
  import opened Counting
  import opened Transfers
  import opened Counterparties
  import opened Materialize
  import opened CoreSync
  import opened Store
  import opened Execution
  import opened Persistence
  import opened RunHistory
  import opened WalletRunner
  import DustRules
  import Fetch
  import Lookalike
  import SyncRows

  /** The two transfers share a fingerprint and involve the wallet. */
  predicate Twin(focal: Address, a: NormalizedTransfer, b: NormalizedTransfer) {
    a.fingerprint == b.fingerprint && MapWalletRelation(focal, a).Some? && MapWalletRelation(focal, b).Some?
  }

  ghost predicate HasTwins(focal: Address, rows: seq<NormalizedTransfer>) {
    exists i, j :: 0 <= i < j < |rows| && Twin(focal, rows[i], rows[j])
  }

  lemma {:induction false} ObservedOnce(focal: Address, rows: seq<NormalizedTransfer>)
    requires !HasTwins(focal, rows)
    ensures DistinctLinks(ObservationsOf(focal, rows))
  {
    hide MapWalletRelation;
    if rows != [] {
      var init, last := rows[..|rows| - 1], rows[|rows| - 1];
      assert forall i, j :: 0 <= i < j < |init| ==> !Twin(focal, rows[i], rows[j]);
      ObservedOnce(focal, init);
      var before := ObservationsOf(focal, init);
      forall k | 0 <= k < |before| && MapWalletRelation(focal, last).Some? ensures before[k].transfer.fingerprint != last.fingerprint {
        ObservationsOfMembers(focal, init, before[k]);
        var i :| 0 <= i < |init| && init[i] == before[k].transfer;
        assert !Twin(focal, rows[i], rows[|rows| - 1]);
      }
    }
  }

  lemma TwinsOfAppend(focal: Address, xs: seq<NormalizedTransfer>, ys: seq<NormalizedTransfer>)
    requires HasTwins(focal, xs + ys) && forall x, y :: x in xs && y in ys ==> x.fingerprint != y.fingerprint
    ensures HasTwins(focal, xs) || HasTwins(focal, ys)
  {
    hide MapWalletRelation;
    var all := xs + ys;
    var i, j :| 0 <= i < j < |all| && Twin(focal, all[i], all[j]);
    if j < |xs| {
      assert Twin(focal, xs[i], xs[j]);
    } else if i < |xs| {
      assert false;
    } else {
      assert Twin(focal, ys[i - |xs|], ys[j - |xs|]);
    }
  }

  /** Twins among the transfers of distinct transactions come from one of them. */
  lemma {:induction false} TwinsShareATransaction(focal: Address, txs: seq<EnhancedTransaction>, classify: DustClassifier)
    requires DistinctSignatures(txs) && HasTwins(focal, TransfersOf(txs, classify))
    ensures exists tx :: tx in txs && HasTwins(focal, Rows(tx))
  {
    var init, last := txs[..|txs| - 1], txs[|txs| - 1];
    var before, rows := TransfersOf(init, classify), ClassifiedRows(last, classify);
    assert TransfersOf(txs, classify) == before + rows && last in txs;
    hide HasTwins, TransfersOf, ClassifiedRows, Rows;
    forall x, y | x in before && y in rows ensures x.fingerprint != y.fingerprint { StrangersAreNoTwins(init, last, classify, x, y); }
    TwinsOfAppend(focal, before, rows);
    if HasTwins(focal, before) {
      TwinsShareATransaction(focal, init, classify);
    } else {
      ClassifyKeepsTwins(focal, last, classify);
    }
  }

  /** Transfers of transactions with different signatures have different fingerprints. */
  lemma StrangersAreNoTwins(init: seq<EnhancedTransaction>, last: EnhancedTransaction, classify: DustClassifier, x: NormalizedTransfer, y: NormalizedTransfer)
    requires forall tx :: tx in init ==> tx.signature != last.signature
    requires x in TransfersOf(init, classify) && y in ClassifiedRows(last, classify)
    ensures x.fingerprint != y.fingerprint
  {
    hide ClassifiedRows, TransfersOf;
    TransfersOfMembers(init, classify, x);
    var tx :| tx in init && x in ClassifiedRows(tx, classify);
    RowIdentity(tx, classify, x);
    RowIdentity(last, classify, y);
  }

  lemma ClassifyKeepsTwins(focal: Address, tx: EnhancedTransaction, classify: DustClassifier)
    requires HasTwins(focal, ClassifiedRows(tx, classify))
    ensures HasTwins(focal, Rows(tx))
  {
    hide Rows, MapWalletRelation;
    var rows := ClassifiedRows(tx, classify);
    var i, j :| 0 <= i < j < |rows| && Twin(focal, rows[i], rows[j]);
    SameMapping(focal, Rows(tx)[i], classify);
    SameMapping(focal, Rows(tx)[j], classify);
    assert Twin(focal, Rows(tx)[i], Rows(tx)[j]);
  }

  lemma SameRelation(focal: Address, a: NormalizedTransfer, b: NormalizedTransfer)
    requires a.source == b.source && a.destination == b.destination
    ensures MapWalletRelation(focal, a) == MapWalletRelation(focal, b)
  {
  }

  /** The two observations that rows `i` and `j` of a transaction make. */
  lemma TwinPair(focal: Address, tx: EnhancedTransaction, classify: DustClassifier, i: nat, j: nat) returns (a: Observation, b: Observation)
    requires i < j < |Rows(tx)| && Twin(focal, Rows(tx)[i], Rows(tx)[j])
    ensures a != b && SameLink(a, b)
    ensures forall o :: o in {a, b} ==> o.transfer in ClassifiedRows(tx, classify) && MapWalletRelation(focal, o.transfer) == Some(Mapping(o.relation, o.counterparty))
  {
    var rows := ClassifiedRows(tx, classify);
    assert Rows(tx)[i] == Row(tx, i) && Rows(tx)[j] == Row(tx, j) && rows[i].index == i && rows[j].index == j;
    hide Rows, Row;
    SameMapping(focal, Rows(tx)[i], classify);
    assert rows[i] in rows && rows[j] in rows;
    RowIdentity(tx, classify, rows[i]);
    RowIdentity(tx, classify, rows[j]);
    SameRelation(focal, rows[i], rows[j]);
    hide MapWalletRelation, ClassifiedRows;
    var m := MapWalletRelation(focal, rows[i]).value;
    a, b := Observation(rows[i], m.relation, m.counterparty), Observation(rows[j], m.relation, m.counterparty);
  }

  /** Twins of one transaction are two observations of one link. */
  lemma TwinsAreObserved(focal: Address, txs: seq<EnhancedTransaction>, classify: DustClassifier, tx: EnhancedTransaction)
    requires tx in txs && HasTwins(focal, Rows(tx))
    ensures !DistinctLinks(ObservationsOf(focal, TransfersOf(txs, classify)))
  {
    var i, j :| 0 <= i < j < |Rows(tx)| && Twin(focal, Rows(tx)[i], Rows(tx)[j]);
    var a, b := TwinPair(focal, tx, classify, i, j);
    var transfers := TransfersOf(txs, classify);
    TransfersOfMembers(txs, classify, a.transfer);
    TransfersOfMembers(txs, classify, b.transfer);
    ObservationsOfMembers(focal, transfers, a);
    ObservationsOfMembers(focal, transfers, b);
    TwoOfOneLink(ObservationsOf(focal, transfers), a, b);
  }

  lemma TwoOfOneLink(obs: seq<Observation>, a: Observation, b: Observation)
    requires a in obs && b in obs && a != b && SameLink(a, b)
    ensures !DistinctLinks(obs)
  {
    var k :| 0 <= k < |obs| && obs[k] == a;
    var l :| 0 <= l < |obs| && obs[l] == b;
    assert k != l && SameLink(obs[k], obs[l]) && SameLink(obs[l], obs[k]);
  }

  /** A run makes every link from one observation exactly when no fetched transaction has twins. */
  lemma ObservesOnceExactly(p: CoreSyncParams, h: seq<EnhancedTransaction>, res: CoreSyncResult, older: seq<EnhancedTransaction>, newer: seq<EnhancedTransaction>)
    requires Fetch.NewestFirst(h) && ValidCoreParams(p) && Consistent(p, h, res) && FetchedAs(p, h, res, older, newer)
    ensures DistinctLinks(Observations(res)) <==> forall tx :: tx in older + newer ==> !HasTwins(p.focal, Rows(tx))
  {
    hide Fetch.NewestFirst, Fetch.Window, FetchedFrom, ObservationsOf, Rows;
    var txs := older + newer;
    AdjacentPartsDistinct(h, p.baselineStart, p.baselineEnd, p.scanEnd, older, newer);
    TransfersOfAppend(older, newer, p.classify);
    ObservationsOfAppend(p.focal, res.baselineTransfers, res.scanTransfers);
    assert Observations(res) == ObservationsOf(p.focal, TransfersOf(txs, p.classify));
    hide TransfersOf, DistinctLinks, HasTwins, Consistent;
    forall tx | tx in txs && HasTwins(p.focal, Rows(tx)) ensures !DistinctLinks(Observations(res)) {
      TwinsAreObserved(p.focal, txs, p.classify, tx);
    }
    if HasTwins(p.focal, TransfersOf(txs, p.classify)) {
      TwinsShareATransaction(p.focal, txs, p.classify);
    } else {
      ObservedOnce(p.focal, TransfersOf(txs, p.classify));
    }
  }

  /** The rows a wallet's first successful run leaves are the counterparty state its core sync built in memory, exactly
      when no fetched transaction has two of the wallet's transfers with one fingerprint. */
  lemma FirstRunMatchesProvider(runs: seq<WalletRun>, r: WalletRun, p: CoreSyncParams, h: seq<EnhancedTransaction>,
                                older: seq<EnhancedTransaction>, newer: seq<EnhancedTransaction>)
    requires Plausible(r) && r.address !in RunAll(runs).tables.wallets && Execute(RunAll(runs).tables, r).ok
    requires r.core.CoreDone? && Fetch.NewestFirst(h) && ValidCoreParams(p) && Consistent(p, h, r.core.result)
    requires FetchedAs(p, h, r.core.result, older, newer)
    ensures var e := Execute(RunAll(runs).tables, r);
            RowsOf(e.tables.counterparties, WalletOf(RunAll(runs).tables, r)) == r.core.result.counterparties
            <==> forall tx :: tx in older + newer ==> !HasTwins(p.focal, Rows(tx))
  {
    FirstRunMatchesMemory(runs, r);
    ObservesOnceExactly(p, h, r.core.result, older, newer);
  }

  // ---- A run with twins ----

  /** A payment of 5 from "A" to "W". */
  const PAYMENT := TokenTransfer("A", "W", "a", "w", "M", "5", Some(0), "Fungible", Some(0), None)

  /** One instruction that makes the payment twice. */
  function TwinTx(): EnhancedTransaction { EnhancedTransaction("S", 1, 10, false, [], [PAYMENT, PAYMENT]) }

  const CONFIG := RunnerConfig(SECONDS_PER_DAY, 2 * SECONDS_PER_DAY, 1, 1, 1, 0, 0, 1, Lookalike.MatchRule(4, 4, 6), 1)

  function TwinParams(): CoreSyncParams { CoreParams("W", CONFIG, ClassifierOf(map[])) }

  /** A core result on a fully fetched baseline and an empty scan window. */
  ghost function BaselineResult(p: CoreSyncParams, txs: seq<EnhancedTransaction>): CoreSyncResult {
    var transfers := TransfersOf(txs, p.classify);
    var obs := ObservationsOf(p.focal, transfers);
    CoreSyncResult(transfers, [], obs, [], Fold(EventsOf(obs)), [], true, false, "", None, None, |txs|,
                   |UnresolvedAt(transfers)|, |OwnerUnresolvedAt(transfers)|, |UnsupportedAt(transfers)|, |DecimalsMissingAt(transfers)|, 0, 0, false)
  }

  lemma BaselineCounts(p: CoreSyncParams, h: seq<EnhancedTransaction>)
    ensures TransfersCounted(BaselineResult(p, h)) && BlocksCounted(p, BaselineResult(p, h))
  {
    hide TransfersOf, ObservationsOf, Fold, EventsOf, Undecided, Emits, UnresolvedAt, OwnerUnresolvedAt, UnsupportedAt, DecimalsMissingAt;
    var res := BaselineResult(p, h);
    var d := DetectorParams(p, true);
    assert res.baselineTransfers + [] == res.baselineTransfers;
    assert UndecidedAt(res.scanObservations, d, 0) == {} && BlockedAt(res.baselineObservations, res.scanObservations, d, 0) == {};
  }

  lemma NoReasonGiven(p: CoreSyncParams, h: seq<EnhancedTransaction>)
    ensures ReasonGiven(p, BaselineResult(p, h))
  {
    hide TransfersOf, ObservationsOf, Fold, EventsOf;
    assert Blank("") && GatesOf("") == {};
    NothingMerged();
    hide Merged, GatesOf;
    assert ReasonGiven(p, BaselineResult(p, h));
  }

  lemma NothingMerged()
    ensures Merged(["", "", ""]) == ""
  {
    var blanks := ["", "", ""];
    assert Blank("");
    assert NonBlank(blanks) == {};
    Arrangeable({});
    var names :| Arranges(names, NonBlank(blanks)) && Merged(blanks) == Join(names, ';');
    ArrangedMembers(names, {});
  }

  lemma BaselineResultIsTrue(p: CoreSyncParams, h: seq<EnhancedTransaction>)
    requires Fetch.Window(h, p.baselineStart, p.baselineEnd) == h && Fetch.Window(h, p.scanStart, p.scanEnd) == []
    ensures var res := BaselineResult(p, h); Consistent(p, h, res) && Trustworthy(p, h, res) && FetchedAs(p, h, res, h, [])
    ensures Observations(BaselineResult(p, h)) == ObservationsOf(p.focal, TransfersOf(h, p.classify))
  {
    BaselineCounts(p, h);
    NoReasonGiven(p, h);
    hide Fetch.Window, Fold, TrueBaseline, Emits, CandidateOf, CoreSync.Genuine, FoundAgain, TransfersCounted, BlocksCounted, ReasonGiven;
    var res := BaselineResult(p, h);
    assert TransfersOf([], p.classify) == [] && ObservationsOf(p.focal, []) == [] && EventsOf([]) == [];
    assert EventsOf(res.baselineObservations) + [] == EventsOf(res.baselineObservations);
    assert FetchedAs(p, h, res, h, []) && Blank("");
    assert TrueScan(p, h) == [] && TrueCandidates(p, h) == [];
    assert res.baselineObservations + [] == res.baselineObservations;
  }

  ghost function TwinResult(): CoreSyncResult { BaselineResult(TwinParams(), [TwinTx()]) }

  lemma TwinRows(i: nat)
    requires i < 2
    ensures |Rows(TwinTx())| == 2
    ensures var row := Rows(TwinTx())[i];
            && row.fingerprint == Fingerprint("S", Spl(0), "A", "W", "M", SanitizedAmount("5"), SPLFungible)
            && row.source == "A" && row.destination == "W" && row.blockTime == 10 && row.signature == "S"
    ensures MapWalletRelation("W", Rows(TwinTx())[i]) == Some(Mapping(Receiver, "A"))
  {
    hide SanitizedAmount;
    assert Trimmed("A") && Trimmed("W");
    assert Rows(TwinTx())[i] == Row(TwinTx(), i) == TokenRow(TwinTx(), i);
  }

  lemma PairOfRows(rows: seq<NormalizedTransfer>)
    requires |rows| == 2 && forall row :: row in rows ==> MapWalletRelation("W", row) == Some(Mapping(Receiver, "A")) && row.blockTime == 10
    ensures ObservationsOf("W", rows) == [Observation(rows[0], Receiver, "A"), Observation(rows[1], Receiver, "A")]
    ensures EventsOf(ObservationsOf("W", rows)) == [Event("A", Receiver, 10), Event("A", Receiver, 10)]
  {
    hide MapWalletRelation;
    var a, b := Observation(rows[0], Receiver, "A"), Observation(rows[1], Receiver, "A");
    assert rows[0] in rows && rows[1] in rows;
    assert rows[..1] == [rows[0]] && rows[..1][..0] == [] && ObservationsOf("W", []) == [];
    assert ObservationsOf("W", rows[..1]) == [a];
    assert ObservationsOf("W", rows) == [a, b];
    assert Trimmed("A") && !Blank("A");
    assert [a, b][..1] == [a] && [a][..0] == [];
    assert EventsOf([a]) == [Event("A", Receiver, 10)];
  }

  lemma OneTransaction(tx: EnhancedTransaction, classify: DustClassifier)
    ensures TransfersOf([tx], classify) == ClassifiedRows(tx, classify)
  {
    hide ClassifiedRows;
    assert [tx][..0] == [] && TransfersOf([], classify) == [];
  }

  lemma TwinIsClassified(classify: DustClassifier, i: nat)
    requires i < 2
    ensures |Rows(TwinTx())| == 2
    ensures var row := Classified(Rows(TwinTx())[i], classify);
            && KeyOf(row) == TxKey("S", Fingerprint("S", Spl(0), "A", "W", "M", SanitizedAmount("5"), SPLFungible))
            && MapWalletRelation("W", row) == Some(Mapping(Receiver, "A")) && row.blockTime == 10
  {
    hide TwinTx, SanitizedAmount, MapWalletRelation, Rows;
    TwinRows(i);
    SameMapping("W", Rows(TwinTx())[i], classify);
  }

  lemma TwinTransfers(classify: DustClassifier)
    ensures var rows := TransfersOf([TwinTx()], classify);
            && rows == ClassifiedRows(TwinTx(), classify) && |rows| == 2 && KeyOf(rows[0]) == KeyOf(rows[1])
            && forall row :: row in rows ==> MapWalletRelation("W", row) == Some(Mapping(Receiver, "A")) && row.blockTime == 10
  {
    hide TwinTx, SanitizedAmount, MapWalletRelation, Rows, TransfersOf, KeyOf, Classified;
    TwinIsClassified(classify, 0);
    TwinIsClassified(classify, 1);
    OneTransaction(TwinTx(), classify);
  }

  lemma TwinsThere()
    ensures HasTwins("W", Rows(TwinTx()))
  {
    TwinRows(0);
    TwinRows(1);
    hide MapWalletRelation, Rows;
    assert Twin("W", Rows(TwinTx())[0], Rows(TwinTx())[1]);
  }

  lemma TwinWindows()
    ensures Fetch.NewestFirst([TwinTx()])
    ensures Fetch.Window([TwinTx()], TwinParams().baselineStart, TwinParams().baselineEnd) == [TwinTx()]
    ensures Fetch.Window([TwinTx()], TwinParams().scanStart, TwinParams().scanEnd) == []
  {
    assert [TwinTx()][..0] == [];
  }

  lemma EmptyTableClassifies()
    ensures ClassifiesBy([], CONFIG, ClassifierOf(map[]))
  {
    assert DustRules.Indexes(map[], []);
    LoadedClassifier([], CONFIG, map[]);
  }

  lemma TwinResultIsTrue()
    ensures ValidCoreParams(TwinParams()) && Consistent(TwinParams(), [TwinTx()], TwinResult()) && Trustworthy(TwinParams(), [TwinTx()], TwinResult())
    ensures FetchedAs(TwinParams(), [TwinTx()], TwinResult(), [TwinTx()], [])
    ensures Observations(TwinResult()) == ObservationsOf("W", TransfersOf([TwinTx()], TwinParams().classify))
  {
    TwinWindows();
    assert Trimmed("W");
    hide Consistent, Trustworthy, FetchedAs, BaselineResult, Fetch.Window, TwinTx, ObservationsOf, TransfersOf;
    BaselineResultIsTrue(TwinParams(), [TwinTx()]);
  }

  ghost function TwinRun(): WalletRun { WalletRun("W", 1, CONFIG.scanEnd, call => false, true, CoreDone(TwinResult())) }

  /** The run's result is what a core sync of "W" says of a history of that one transaction. */
  lemma TwinsAreGrounded()
    ensures Grounded([TwinTx()], [], CONFIG, "W", TwinResult()) && Plausible(TwinRun())
  {
    TwinResultIsTrue();
    EmptyTableClassifies();
    hide ValidCoreParams, Consistent, Trustworthy, ClassifiesBy, TwinTx, TwinResult;
    assert GroundedBy([TwinTx()], [], CONFIG, "W", TwinResult(), ClassifierOf(map[]));
    GroundedIsPlausible([TwinTx()], [], CONFIG, TwinRun());
  }

  /** Its two observations make one link and two events. */
  lemma TwinObservations()
    ensures var obs := Observations(TwinResult());
            && |obs| == 2 && SameLink(obs[0], obs[1]) && obs[0].relation == Receiver && obs[0].counterparty == "A"
            && EventsOf(obs) == [Event("A", Receiver, 10), Event("A", Receiver, 10)]
    ensures TwinResult().counterparties == Fold(EventsOf(Observations(TwinResult())))
  {
    TwinResultIsTrue();
    TwinTransfers(TwinParams().classify);
    hide TransfersOf, MapWalletRelation, Fold, ClassifiedRows, TwinTx, EventsOf, ObservationsOf;
    PairOfRows(TransfersOf([TwinTx()], TwinParams().classify));
  }

  lemma TwinsInMemory()
    ensures "A" in TwinResult().counterparties && TwinResult().counterparties["A"].interactions == 2
  {
    TwinObservations();
    hide TwinResult, Fold, EventsOf, ObservationsOf;
    TwoEvents(Event("A", Receiver, 10));
  }

  lemma TwoEvents(e: Event)
    ensures e.counterparty in Fold([e, e]) && Fold([e, e])[e.counterparty].interactions == 2
  {
    hide Fold;
    FoldAggregates([e, e], e.counterparty);
    CountSnoc([], e, About(e.counterparty));
    CountSnoc([e], e, About(e.counterparty));
    assert [] + [e] == [e] && [e] + [e] == [e, e] && e in [e, e];
  }

  lemma TwinRunSucceeds()
    ensures Execute(EMPTY, TwinRun()).ok
  {
    TwinsAreGrounded();
    hide Execute, TwinResult, Plausible, Grounded;
    assert Trimmed("W");
    QuietFirstRunSucceeds(TwinRun());
  }

  lemma QuietFirstRunSucceeds(r: WalletRun)
    requires Plausible(r) && Opens(r) && SyncRows.Quiet(r.faults) && r.rulesAccepted && r.core.CoreDone?
    ensures Execute(EMPTY, r).ok
  {
    assert Serial(EMPTY) && SyncRows.RowsSound(EMPTY);
    hide Execute, Plausible, Opens;
    SyncRows.QuietRunSucceeds(EMPTY, r);
  }

  lemma OneLink(t: Tables, l: Link)
    requires t.links == {l} && l.wallet == 1 && l.relation == Receiver && Partner(l.tx.fingerprint, Receiver) == "A"
    ensures |CountedLinks(t, {}, 1, "A", {Sender, Receiver})| == 1
  {
    assert CountedLinks(t, {}, 1, "A", {Sender, Receiver}) == {l};
  }

  /** A run without error adds a link for each of its observations. */
  lemma LinksAdded(t: Tables, r: WalletRun)
    requires Execute(t, r).ok
    ensures var obs := Observations(r.core.result);
            Execute(t, r).tables.links == t.links + set k | 0 <= k < |obs| :: LinkOf(WalletOf(t, r), obs[k])
  {
    ExecuteEffect(t, r);
    OkMeansLinked(t, r);
    hide Execute, LinkAll, UpsertAll, Deduped;
    var u, res := WithSyncRun(WithWallet(t, r.address)), r.core.result;
    var before := u.(transfers := UpsertAll(u.transfers, Deduped(res.baselineTransfers + res.scanTransfers)));
    LoopLinksEverything(before, WalletOf(t, r), Observations(res), |Observations(res)|, r.faults);
  }

  lemma TwinLinks()
    ensures |Observations(TwinResult())| == 2 && Execute(EMPTY, TwinRun()).tables.links == {LinkOf(1, Observations(TwinResult())[0])}
  {
    hide Execute, TwinResult, WalletOf, LinkOf, EventsOf, Fold, TwinTx, SameLink;
    TwinRunSucceeds();
    TwinObservations();
    FirstWallet(TwinRun());
    LinksAdded(EMPTY, TwinRun());
    PairMakesOneLink(Observations(TwinResult()));
  }

  lemma FirstWallet(r: WalletRun)
    ensures WalletOf(EMPTY, r) == 1 && EMPTY.links == {}
  {
  }

  lemma PairMakesOneLink(obs: seq<Observation>)
    requires |obs| == 2 && SameLink(obs[0], obs[1])
    ensures (set k | 0 <= k < |obs| :: LinkOf(1, obs[k])) == {LinkOf(1, obs[0])}
  {
    assert LinkOf(1, obs[0]) == LinkOf(1, obs[1]);
  }

  lemma CountedInTable(r: WalletRun, l: Link)
    requires Plausible(r) && Execute(EMPTY, r).ok && Execute(EMPTY, r).tables.links == {l}
    requires l.wallet == 1 && l.relation == Receiver && Partner(l.tx.fingerprint, Receiver) == "A"
    ensures CounterpartyRow(Execute(EMPTY, r).tables, 1, "A").interactions == 1
  {
    hide Execute, Plausible, CountedLinks, CounterpartyRow, Partner;
    assert RunAll([r][..0]) == History(EMPTY, [], {}, 0);
    var h := RunAll([r]);
    assert h.tables == Execute(EMPTY, r).tables && h.failures == 0;
    ExactlyOnce([r], 1, "A");
    assert h.lost == {};
    OneLink(h.tables, l);
  }

  /** A run on an empty database, without any failure, whose core result is grounded in a provider's history: it counts the
      two payments once in the table and twice in memory. */
  lemma TwinsAreCountedOnce()
    ensures HasTwins("W", Rows(TwinTx())) && Grounded([TwinTx()], [], CONFIG, "W", TwinResult()) && Execute(EMPTY, TwinRun()).ok
    ensures CounterpartyRow(Execute(EMPTY, TwinRun()).tables, 1, "A").interactions == 1
    ensures "A" in TwinResult().counterparties && TwinResult().counterparties["A"].interactions == 2
  {
    TwinsThere();
    TwinsAreGrounded();
    TwinRunSucceeds();
    TwinsInMemory();
    TwinObservations();
    TwinLinks();
    hide Execute, TwinResult, Grounded, EventsOf, Fold, TwinTx, CounterpartyRow, HasTwins;
    var o := Observations(TwinResult())[0];
    assert Named(o);
    CountedInTable(TwinRun(), LinkOf(1, o));
  }
}
