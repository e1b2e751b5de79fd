/** Sequences of wallet runs: exactly-once counting, repetition, and first runs. */
module RunHistory {
  import opened Counting
  import opened Transfers
  import opened Counterparties
  import opened Materialize
  import opened CoreSync
  import opened Store
  import opened Execution
  import opened Persistence
  import Fetch
  import Orchestrator
  import Text
  import DustRules
  import WalletRunner

  /** The tables after a sequence of runs from an empty database, and the ledger of what was counted and what was lost. */
  datatype History = History(tables: Tables, ledger: seq<Posting>, lost: set<Link>, failures: nat)

  ghost function RunAll(runs: seq<WalletRun>): History {
    if runs == [] then History(EMPTY, [], {}, 0)
    else
      var h := RunAll(runs[..|runs| - 1]);
      var e := Execute(h.tables, runs[|runs| - 1]);
      History(e.tables, h.ledger + e.postings, h.lost + e.lost, if e.ok then h.failures else h.failures + 1)
  }

  /** The tables that a sequence of runs leaves, from any tables. */
  ghost function ExecuteAll(t: Tables, runs: seq<WalletRun>): Tables {
    if runs == [] then t else Execute(ExecuteAll(t, runs[..|runs| - 1]), runs[|runs| - 1]).tables
  }

  lemma ExecuteOneMore(t: Tables, runs: seq<WalletRun>, r: WalletRun)
    ensures ExecuteAll(t, runs + [r]) == Execute(ExecuteAll(t, runs), r).tables
  {
    assert (runs + [r])[..|runs|] == runs;
  }

  /** Runs after runs make one sequence of runs. */
  lemma {:induction false} ExecuteMore(t: Tables, before: seq<WalletRun>, after: seq<WalletRun>)
    ensures ExecuteAll(t, before + after) == ExecuteAll(ExecuteAll(t, before), after)
  {
    hide Execute;
    if after == [] {
      assert before + after == before;
    } else {
      var init, last := after[..|after| - 1], after[|after| - 1];
      assert before + after == before + init + [last];
      ExecuteOneMore(t, before + init, last);
      ExecuteMore(t, before, init);
    }
  }

  lemma {:induction false} HistoryTables(runs: seq<WalletRun>)
    ensures RunAll(runs).tables == ExecuteAll(EMPTY, runs)
  {
    if runs != [] { HistoryTables(runs[..|runs| - 1]); }
  }

  /** The run's core result, if it has one, comes from its wallet's history at the provider, for some configuration. */
  ghost predicate Genuine(client: Fetch.Client, table: seq<DustRules.ThresholdRow>, r: WalletRun) {
    r.core.CoreDone? ==> exists c :: WalletRunner.Grounded(client.History(r.address), table, c, r.address, r.core.result)
  }

  ghost predicate AllGenuine(client: Fetch.Client, table: seq<DustRules.ThresholdRow>, runs: seq<WalletRun>) {
    forall r :: r in runs ==> Genuine(client, table, r)
  }

  /** The counters of `c` under wallet `w` are the numbers of its links, but for links of failed upserts, of which there
      is at most one per failed run. */
  ghost predicate CountsLinks(t: Tables, runs: seq<WalletRun>, w: WalletId, c: Address) {
    var row, lost := CounterpartyRow(t, w, c), RunAll(runs).lost;
    && row.interactions == |CountedLinks(t, lost, w, c, {Sender, Receiver})|
    && row.inbound == |CountedLinks(t, lost, w, c, {Receiver})|
    && row.outbound == |CountedLinks(t, lost, w, c, {Sender})|
    && lost <= t.links && |lost| <= RunAll(runs).failures
  }

  /** Runs of real wallets from an empty database count every link once. */
  lemma GenuineRunsCountLinks(client: Fetch.Client, table: seq<DustRules.ThresholdRow>, runs: seq<WalletRun>, t: Tables)
    requires AllGenuine(client, table, runs) && t == ExecuteAll(EMPTY, runs)
    ensures forall w, c :: CountsLinks(t, runs, w, c)
  {
    HistoryTables(runs);
    forall r | r in runs ensures Plausible(r) {
      assert Genuine(client, table, r);
      hide WalletRunner.Grounded;
      if r.core.CoreDone? {
        var c :| WalletRunner.Grounded(client.History(r.address), table, c, r.address, r.core.result);
        GroundedIsPlausible(client.History(r.address), table, c, r);
      }
    }
    hide RunAll, ExecuteAll, CountedLinks, CounterpartyRow, Plausible;
    forall w, c ensures CountsLinks(t, runs, w, c) { ExactlyOnce(runs, w, c); }
  }

  /** The run's observations name the other owner of their transfer, which is one of the run's. */
  ghost predicate Plausible(r: WalletRun) {
    r.core.CoreDone? ==>
      && (forall o :: o in Observations(r.core.result) ==> Named(o))
      && (forall o :: o in Observations(r.core.result) ==> o.transfer in r.core.result.baselineTransfers + r.core.result.scanTransfers)
  }

  /** A core result obtained from a provider's history is plausible. */
  lemma GroundedIsPlausible(history: seq<EnhancedTransaction>, table: seq<DustRules.ThresholdRow>, c: WalletRunner.RunnerConfig, r: WalletRun)
    requires r.core.CoreDone? ==> WalletRunner.Grounded(history, table, c, r.address, r.core.result)
    ensures Plausible(r)
  {
    hide WalletRunner.ClassifiesBy, ValidCoreParams, Trustworthy, Consistent, Named;
    if r.core.CoreDone? {
      var classify :| WalletRunner.GroundedBy(history, table, c, r.address, r.core.result, classify);
      ObservationsAreNamed(WalletRunner.CoreParams(r.address, c, classify), history, r.core.result);
    }
  }

  ghost predicate AllPlausible(runs: seq<WalletRun>) { forall r :: r in runs ==> Plausible(r) }

  lemma ExecuteBalances(t: Tables, r: WalletRun, ledger: seq<Posting>, lost: set<Link>)
    requires Plausible(r) && Balanced(t, ledger, lost)
    ensures var e := Execute(t, r);
            && Balanced(e.tables, ledger + e.postings, lost + e.lost)
            && |e.lost| <= 1 && (e.ok ==> e.lost == {})
  {
    ExecuteEffect(t, r);
    hide Execute, LinkAll;
    if ReachesLinks(r) {
      var t2, res := WithSyncRun(WithWallet(t, r.address)), r.core.result;
      var rows := UpsertAll(t2.transfers, Deduped(res.baselineTransfers + res.scanTransfers));
      assert Balanced(t2.(transfers := rows), ledger, lost);
      LinkAllBalances(t2.(transfers := rows), WalletOf(t, r), Observations(res), |Observations(res)|, r.faults, ledger, lost);
      if Execute(t, r).ok { OkMeansLinked(t, r); }
    } else {
      assert ledger + [] == ledger && lost + {} == lost;
    }
  }

  /** Whatever the runs and failures, every link is counted once or is lost, and each failed run loses at most one. */
  lemma {:induction false} HistoryBalances(runs: seq<WalletRun>)
    requires AllPlausible(runs)
    ensures var h := RunAll(runs); Balanced(h.tables, h.ledger, h.lost) && |h.lost| <= h.failures
  {
    hide Balanced, Execute;
    if runs == [] {
      EmptyBalances();
    } else {
      var init, r := runs[..|runs| - 1], runs[|runs| - 1];
      HistoryBalances(init);
      var h := RunAll(init);
      ExecuteBalances(h.tables, r, h.ledger, h.lost);
      UnionCard(h.lost, Execute(h.tables, r).lost);
    }
  }

  lemma EmptyBalances()
    ensures Balanced(EMPTY, [], {})
  {
    forall w ensures RowsOf(EMPTY.counterparties, w) == Fold(EventsFor([], w)) {
      assert RowsOf(EMPTY.counterparties, w) == map[];
    }
  }

  lemma UnionCard<T>(a: set<T>, b: set<T>)
    ensures |a + b| <= |a| + |b|
  {
    assert a + b == a + (b - a) && |a + (b - a)| == |a| + |b - a|;
    assert b == (b - a) + (b * a);
  }

  // ---- Counting links ----

  function PostedLinks(ledger: seq<Posting>, w: WalletId, q: Event -> bool): set<Link> {
    set p | p in ledger && p.link.wallet == w && q(p.event) :: p.link
  }

  lemma {:induction false} CountIsCardinality(ledger: seq<Posting>, w: WalletId, q: Event -> bool)
    requires forall i, j :: 0 <= i < j < |ledger| ==> ledger[i].link != ledger[j].link
    ensures Count(EventsFor(ledger, w), q) == |PostedLinks(ledger, w, q)|
  {
    if ledger == [] {
      assert PostedLinks(ledger, w, q) == {};
    } else {
      var init, p := ledger[..|ledger| - 1], ledger[|ledger| - 1];
      assert ledger == init + [p];
      CountIsCardinality(init, w, q);
      assert forall x :: x in ledger <==> x in init || x == p;
      if p.link.wallet == w && q(p.event) {
        assert PostedLinks(ledger, w, q) == PostedLinks(init, w, q) + {p.link};
        assert p.link !in PostedLinks(init, w, q);
      } else {
        assert PostedLinks(ledger, w, q) == PostedLinks(init, w, q);
      }
      if p.link.wallet == w { CountSnoc(EventsFor(init, w), p.event, q); }
    }
  }

  /** The counted links of wallet `w` with counterparty `c`, in the given directions. */
  function CountedLinks(t: Tables, lost: set<Link>, w: WalletId, c: Address, directions: set<Relation>): set<Link> {
    set l | l in t.links && l !in lost && l.wallet == w && l.relation in directions && Partner(l.tx.fingerprint, l.relation) == c
  }

  function CounterpartyRow(t: Tables, w: WalletId, c: Address): Counterparty {
    var k := CounterpartyKey(w, c);
    if k in t.counterparties then t.counterparties[k] else ZERO_COUNTERPARTY
  }

  lemma PostedAreCounted(t: Tables, ledger: seq<Posting>, lost: set<Link>, w: WalletId, c: Address)
    requires Accounted(t.links, ledger, lost)
    ensures PostedLinks(ledger, w, About(c)) == CountedLinks(t, lost, w, c, {Sender, Receiver})
    ensures forall d :: PostedLinks(ledger, w, AboutIn(c, d)) == CountedLinks(t, lost, w, c, {d})
  {
    forall l ensures l in PostedLinks(ledger, w, About(c)) <==> l in CountedLinks(t, lost, w, c, {Sender, Receiver}) {
      if l in CountedLinks(t, lost, w, c, {Sender, Receiver}) {
        assert Posted(ledger, l);
        var p :| p in ledger && p.link == l;
        assert Faithful(p);
      }
    }
    forall d ensures PostedLinks(ledger, w, AboutIn(c, d)) == CountedLinks(t, lost, w, c, {d}) {
      forall l ensures l in PostedLinks(ledger, w, AboutIn(c, d)) <==> l in CountedLinks(t, lost, w, c, {d}) {
        if l in CountedLinks(t, lost, w, c, {d}) {
          assert Posted(ledger, l);
          var p :| p in ledger && p.link == l;
          assert Faithful(p);
        }
      }
    }
  }

  lemma BalancedRowsCount(t: Tables, ledger: seq<Posting>, lost: set<Link>, w: WalletId, c: Address)
    requires Balanced(t, ledger, lost)
    ensures var row := CounterpartyRow(t, w, c);
            && row.interactions == |CountedLinks(t, lost, w, c, {Sender, Receiver})|
            && row.inbound == |CountedLinks(t, lost, w, c, {Receiver})|
            && row.outbound == |CountedLinks(t, lost, w, c, {Sender})|
    ensures CounterpartyKey(w, c) in t.counterparties ==> IsAggregate(CounterpartyRow(t, w, c), EventsFor(ledger, w), c)
  {
    var events := EventsFor(ledger, w);
    PostedAreCounted(t, ledger, lost, w, c);
    CountIsCardinality(ledger, w, About(c));
    CountIsCardinality(ledger, w, AboutIn(c, Receiver));
    CountIsCardinality(ledger, w, AboutIn(c, Sender));
    FoldAggregates(events, c);
    assert RowsOf(t.counterparties, w) == Fold(events);
    assert CounterpartyKey(w, c) in t.counterparties <==> c in RowsOf(t.counterparties, w);
    if c !in Fold(events) {
      CountPositive(events, About(c));
      CountPositive(events, AboutIn(c, Receiver));
      CountPositive(events, AboutIn(c, Sender));
    }
  }

  /** After any runs with any failures, a counterparty's counters are the numbers of its links, less the lost ones;
      its times are the extremes of the events counted for it; and each failed run costs at most one link. */
  lemma ExactlyOnce(runs: seq<WalletRun>, w: WalletId, c: Address)
    requires AllPlausible(runs)
    ensures var h := RunAll(runs);
            var row, all := CounterpartyRow(h.tables, w, c), {Sender, Receiver};
            && row.interactions == |CountedLinks(h.tables, h.lost, w, c, all)| <= |CountedLinks(h.tables, {}, w, c, all)|
            && row.inbound == |CountedLinks(h.tables, h.lost, w, c, {Receiver})|
            && row.outbound == |CountedLinks(h.tables, h.lost, w, c, {Sender})|
            && (CounterpartyKey(w, c) in h.tables.counterparties ==> IsAggregate(row, EventsFor(h.ledger, w), c))
            && h.lost <= h.tables.links && |h.lost| <= h.failures
  {
    hide Execute;
    HistoryBalances(runs);
    var h := RunAll(runs);
    BalancedRowsCount(h.tables, h.ledger, h.lost, w, c);
    SubsetCard(CountedLinks(h.tables, h.lost, w, c, {Sender, Receiver}), CountedLinks(h.tables, {}, w, c, {Sender, Receiver}));
  }

  lemma SubsetCard<T>(a: set<T>, b: set<T>)
    requires a <= b
    ensures |a| <= |b|
  {
    assert b == a + (b - a);
  }

  /** A run without error linked every observation. */
  lemma OkMeansLinked(t: Tables, r: WalletRun)
    requires Execute(t, r).ok
    ensures ReachesLinks(r) && Loop(t, r).failed.None?
  {
    hide Spoiled, StoreCandidates, LinkAll, UpsertAll, Reasoned, Deduped;
  }

  // ---- Repeating a run ----

  lemma {:induction false} LoopLinksEverything(t: Tables, w: WalletId, obs: seq<Observation>, n: nat, faults: StoreCall -> bool)
    requires n <= |obs| && LinkAll(t, w, obs, n, faults).failed.None?
    ensures var s := LinkAll(t, w, obs, n, faults);
            s.tables.links == t.links + set k | 0 <= k < n :: LinkOf(w, obs[k])
  {
    hide Upsert;
    if n > 0 {
      LoopLinksEverything(t, w, obs, n - 1, faults);
      assert (set k | 0 <= k < n :: LinkOf(w, obs[k])) == (set k | 0 <= k < n - 1 :: LinkOf(w, obs[k])) + {LinkOf(w, obs[n - 1])};
    }
  }

  lemma {:induction false} LinkedLoopIsIdle(t: Tables, w: WalletId, obs: seq<Observation>, n: nat, faults: StoreCall -> bool)
    requires n <= |obs| && forall k :: 0 <= k < |obs| ==> LinkOf(w, obs[k]) in t.links
    ensures LinkAll(t, w, obs, n, faults).tables == t
  {
    hide UpsertOne;
    if n > 0 { LinkedLoopIsIdle(t, w, obs, n - 1, faults); }
  }

  predicate HasKey(transfers: seq<NormalizedTransfer>, k: TxKey) { exists tr :: tr in transfers && KeyOf(tr) == k }

  lemma {:induction false} UpsertLookup(rows: map<TxKey, NormalizedTransfer>, other: map<TxKey, NormalizedTransfer>, transfers: seq<NormalizedTransfer>, k: TxKey)
    ensures !HasKey(transfers, k) ==>
              (k in UpsertAll(rows, transfers) <==> k in rows) && (k in rows ==> UpsertAll(rows, transfers)[k] == rows[k])
    ensures HasKey(transfers, k) ==>
              k in UpsertAll(rows, transfers) && k in UpsertAll(other, transfers) && UpsertAll(rows, transfers)[k] == UpsertAll(other, transfers)[k]
  {
    if transfers != [] {
      var init, last := transfers[..|transfers| - 1], transfers[|transfers| - 1];
      assert transfers == init + [last];
      assert forall tr :: tr in transfers <==> tr in init || tr == last;
      UpsertLookup(rows, other, init, k);
    }
  }

  lemma UpsertTwice(rows: map<TxKey, NormalizedTransfer>, transfers: seq<NormalizedTransfer>)
    ensures UpsertAll(UpsertAll(rows, transfers), transfers) == UpsertAll(rows, transfers)
  {
    var once := UpsertAll(rows, transfers);
    forall k
      ensures k in UpsertAll(once, transfers) <==> k in once
      ensures k in once ==> UpsertAll(once, transfers)[k] == once[k]
    {
      UpsertLookup(once, rows, transfers, k);
    }
  }

  lemma LoopAgain(t: Tables, u: Tables, w: WalletId, res: CoreSyncResult, faults: StoreCall -> bool, again: StoreCall -> bool)
    requires LoopFrom(t, w, res, faults).failed.None? && SameLedger(u, LoopFrom(t, w, res, faults).tables)
    ensures SameLedger(LoopFrom(u, w, res, again).tables, u)
  {
    hide LinkAll, UpsertAll, Deduped;
    var obs, transfers := Observations(res), Deduped(res.baselineTransfers + res.scanTransfers);
    var before := t.(transfers := UpsertAll(t.transfers, transfers));
    LinkAllFrame(before, w, obs, |obs|, faults);
    LoopLinksEverything(before, w, obs, |obs|, faults);
    UpsertTwice(t.transfers, transfers);
    assert u.(transfers := UpsertAll(u.transfers, transfers)) == u;
    LinkedLoopIsIdle(u, w, obs, |obs|, again);
  }

  lemma SameWallet(t: Tables, r: WalletRun, again: WalletRun)
    requires Execute(t, r).ok && again.address == r.address
    ensures r.address in Execute(t, r).tables.wallets && WithWallet(Execute(t, r).tables, r.address) == Execute(t, r).tables
    ensures WalletOf(Execute(t, r).tables, again) == WalletOf(t, r)
  {
    ExecuteEffect(t, r);
    OkMeansLinked(t, r);
    hide Execute, LinkAll;
    var t2, obs, res := WithSyncRun(WithWallet(t, r.address)), Observations(r.core.result), r.core.result;
    LinkAllFrame(t2.(transfers := UpsertAll(t2.transfers, Deduped(res.baselineTransfers + res.scanTransfers))), WalletOf(t, r), obs, |obs|, r.faults);
  }

  /** Repeating a successful run, whatever fails the second time, changes no transfer, link or counterparty row. */
  lemma RepeatChangesNothing(t: Tables, r: WalletRun, again: WalletRun)
    requires Execute(t, r).ok && again.address == r.address && again.core == r.core
    ensures SameLedger(Execute(Execute(t, r).tables, again).tables, Execute(t, r).tables)
  {
    var u := Execute(t, r).tables;
    ExecuteEffect(t, r);
    OkMeansLinked(t, r);
    SameWallet(t, r, again);
    ExecuteEffect(u, again);
    hide Execute, LoopFrom;
    if ReachesLinks(again) {
      SameLedgerSymmetric(u, WithSyncRun(u), Loop(t, r).tables);
      LoopAgain(WithSyncRun(WithWallet(t, r.address)), WithSyncRun(u), WalletOf(t, r), r.core.result, r.faults, again.faults);
    }
  }

  lemma SameLedgerSymmetric(u: Tables, v: Tables, s: Tables)
    requires SameLedger(u, s) && v == WithSyncRun(u)
    ensures SameLedger(v, s)
  {
  }

  // ---- The first run of a wallet ----

  lemma LinkOneStaysSerial(s: LinkState, w: WalletId, o: Observation, i: nat, faults: StoreCall -> bool)
    requires Serial(s.tables) && 0 < w < s.tables.nextWallet
    ensures Serial(LinkOne(s, w, o, i, faults).tables)
  {
  }

  lemma {:induction false} LoopStaysSerial(t: Tables, w: WalletId, obs: seq<Observation>, n: nat, faults: StoreCall -> bool)
    requires n <= |obs| && Serial(t) && 0 < w < t.nextWallet
    ensures Serial(LinkAll(t, w, obs, n, faults).tables)
  {
    hide LinkOne, Serial;
    if n > 0 {
      LoopStaysSerial(t, w, obs, n - 1, faults);
      LinkAllFrame(t, w, obs, n - 1, faults);
      var s := LinkAll(t, w, obs, n - 1, faults);
      if s.failed.None? { LinkOneStaysSerial(s, w, obs[n - 1], n - 1, faults); }
    }
  }

  lemma ExecuteStaysSerial(t: Tables, r: WalletRun)
    requires Serial(t)
    ensures Serial(Execute(t, r).tables)
  {
    ExecuteEffect(t, r);
    hide Execute, LinkAll;
    if ReachesLinks(r) {
      var t2, res := WithSyncRun(WithWallet(t, r.address)), r.core.result;
      var before, obs := t2.(transfers := UpsertAll(t2.transfers, Deduped(res.baselineTransfers + res.scanTransfers))), Observations(res);
      LoopStaysSerial(before, WalletOf(t, r), obs, |obs|, r.faults);
    }
  }

  lemma {:induction false} HistoryIsSerial(runs: seq<WalletRun>)
    ensures Serial(RunAll(runs).tables)
  {
    hide Execute;
    if runs != [] {
      HistoryIsSerial(runs[..|runs| - 1]);
      ExecuteStaysSerial(RunAll(runs[..|runs| - 1]).tables, runs[|runs| - 1]);
    }
  }

  /** The two observations make one link. */
  predicate SameLink(a: Observation, b: Observation) { KeyOf(a.transfer) == KeyOf(b.transfer) && a.relation == b.relation }

  /** No two observations make one link. */
  ghost predicate DistinctLinks(obs: seq<Observation>) {
    forall i, j :: 0 <= i < j < |obs| ==> !SameLink(obs[i], obs[j])
  }

  lemma EventsOfStep(obs: seq<Observation>, n: nat)
    requires 0 < n <= |obs| && Named(obs[n - 1])
    ensures EventsOf(obs[..n]) == EventsOf(obs[..n - 1]) + [EventOf(obs[n - 1])]
  {
    assert obs[..n][..n - 1] == obs[..n - 1];
    assert Text.TrimSpace(obs[n - 1].counterparty) == obs[n - 1].counterparty;
  }

  lemma FreshStep(s: LinkState, w: WalletId, o: Observation, i: nat, faults: StoreCall -> bool, before: seq<Event>)
    requires RowsOf(s.tables.counterparties, w) == Fold(before)
    requires LinkOf(w, o) !in s.tables.links && LinkOne(s, w, o, i, faults).failed.None?
    ensures RowsOf(LinkOne(s, w, o, i, faults).tables.counterparties, w) == Fold(before + [EventOf(o)])
  {
    hide Upsert, RowsOf, Fold;
    UpsertInView(s.tables.counterparties, w, w, EventOf(o));
    FoldSnoc(before, EventOf(o));
  }

  /** On fresh ground, the rows the loop writes are the fold of its observations. */
  lemma {:induction false} FreshLoop(t: Tables, w: WalletId, obs: seq<Observation>, n: nat, faults: StoreCall -> bool)
    requires n <= |obs| && (forall o :: o in obs ==> Named(o)) && DistinctLinks(obs)
    requires RowsOf(t.counterparties, w) == map[] && forall l :: l in t.links ==> l.wallet != w
    requires LinkAll(t, w, obs, n, faults).failed.None?
    ensures RowsOf(LinkAll(t, w, obs, n, faults).tables.counterparties, w) == Fold(EventsOf(obs[..n]))
  {
    hide LinkOne, RowsOf, EventsOf, Named;
    if n > 0 {
      var s, o := LinkAll(t, w, obs, n - 1, faults), obs[n - 1];
      FreshLoop(t, w, obs, n - 1, faults);
      LoopLinksEverything(t, w, obs, n - 1, faults);
      EventsOfStep(obs, n);
      assert LinkOf(w, o) !in s.tables.links;
      FreshStep(s, w, o, n - 1, faults, EventsOf(obs[..n - 1]));
    } else {
      NoEvents(obs);
    }
  }

  lemma NoEvents(obs: seq<Observation>)
    ensures EventsOf(obs[..0]) == []
  {
  }

  /** Some observation about `c` among the first `n` makes a link that an earlier one made. */
  ghost predicate Repeats(obs: seq<Observation>, n: nat, c: Address) {
    exists i, j :: 0 <= i < j < n <= |obs| && SameLink(obs[i], obs[j]) && obs[j].counterparty == c
  }

  lemma CountedOnce(s: LinkState, w: WalletId, o: Observation, i: nat, faults: StoreCall -> bool, c: Address)
    requires LinkOne(s, w, o, i, faults).failed.None?
    ensures CounterpartyRow(LinkOne(s, w, o, i, faults).tables, w, c).interactions
         == CounterpartyRow(s.tables, w, c).interactions
            + (if LinkOf(w, o) !in s.tables.links && o.counterparty == c then 1 else 0)
  {
  }

  /** A repeated link is counted once where the in-memory state counts it again. */
  lemma {:induction false} RepeatsAreCountedOnce(t: Tables, w: WalletId, obs: seq<Observation>, n: nat, faults: StoreCall -> bool, c: Address)
    requires n <= |obs| && (forall o :: o in obs ==> Named(o))
    requires CounterpartyRow(t, w, c).interactions == 0 && LinkAll(t, w, obs, n, faults).failed.None?
    ensures CounterpartyRow(LinkAll(t, w, obs, n, faults).tables, w, c).interactions + (if Repeats(obs, n, c) then 1 else 0)
         <= Count(EventsOf(obs[..n]), About(c))
  {
    hide LinkOne, EventsOf, Named, CounterpartyRow, SameLink;
    if n > 0 {
      var s, o := LinkAll(t, w, obs, n - 1, faults), obs[n - 1];
      RepeatsAreCountedOnce(t, w, obs, n - 1, faults, c);
      LoopLinksEverything(t, w, obs, n - 1, faults);
      EventsOfStep(obs, n);
      CountSnoc(EventsOf(obs[..n - 1]), EventOf(o), About(c));
      CountedOnce(s, w, o, n - 1, faults, c);
      if Repeats(obs, n, c) && !Repeats(obs, n - 1, c) {
        var i, j :| 0 <= i < j < n && SameLink(obs[i], obs[j]) && obs[j].counterparty == c;
        assert j == n - 1;
        SameLinkSameKey(w, obs[i], o);
        assert LinkOf(w, o) in s.tables.links;
      }
    }
  }

  lemma SameLinkSameKey(w: WalletId, a: Observation, b: Observation)
    ensures SameLink(a, b) <==> LinkOf(w, a) == LinkOf(w, b)
  {
  }

  lemma {:induction false} EventsOfAppend(s: seq<Observation>, t: seq<Observation>)
    ensures EventsOf(s + t) == EventsOf(s) + EventsOf(t)
  {
    if t == [] {
      assert s + t == s;
    } else {
      assert (s + t)[..|s + t| - 1] == s + t[..|t| - 1];
      EventsOfAppend(s, t[..|t| - 1]);
    }
  }

  lemma ViewKeys(rows: map<CounterpartyKey, Counterparty>, w: WalletId, c: Address)
    ensures CounterpartyKey(w, c) in rows <==> c in RowsOf(rows, w)
    ensures c in RowsOf(rows, w) ==> RowsOf(rows, w)[c] == rows[CounterpartyKey(w, c)]
  {
  }

  lemma RepeatsBreakTheMatch(t: Tables, w: WalletId, obs: seq<Observation>, faults: StoreCall -> bool, rows: map<CounterpartyKey, Counterparty>)
    requires (forall o :: o in obs ==> Named(o)) && !DistinctLinks(obs)
    requires RowsOf(t.counterparties, w) == map[] && LinkAll(t, w, obs, |obs|, faults).failed.None?
    requires rows == LinkAll(t, w, obs, |obs|, faults).tables.counterparties
    ensures RowsOf(rows, w) != Fold(EventsOf(obs))
  {
    hide LinkAll, Named, SameLink;
    var i, j :| 0 <= i < j < |obs| && SameLink(obs[i], obs[j]);
    var c, events := obs[j].counterparty, EventsOf(obs);
    ViewKeys(t.counterparties, w, c);
    ViewKeys(rows, w, c);
    RepeatsAreCountedOnce(t, w, obs, |obs|, faults, c);
    assert Repeats(obs, |obs|, c) && obs[..|obs|] == obs;
    CountPositive(events, About(c));
    FoldAggregates(events, c);
  }

  /** The rows a wallet's first successful run leaves are the counterparty state its core sync built in memory,
      exactly when no two of its observations make one link. */
  lemma FirstRunMatchesMemory(runs: seq<WalletRun>, r: WalletRun)
    requires Plausible(r) && r.address !in RunAll(runs).tables.wallets && Execute(RunAll(runs).tables, r).ok
    requires r.core.result.counterparties
          == Fold(EventsOf(r.core.result.baselineObservations) + EventsOf(r.core.result.scanObservations))
    ensures var e := Execute(RunAll(runs).tables, r);
            RowsOf(e.tables.counterparties, WalletOf(RunAll(runs).tables, r)) == r.core.result.counterparties
            <==> DistinctLinks(Observations(r.core.result))
  {
    var t, res := RunAll(runs).tables, r.core.result;
    HistoryIsSerial(runs);
    ExecuteEffect(t, r);
    OkMeansLinked(t, r);
    hide Execute, LinkAll, RunAll, Deduped, UpsertAll;
    var t2, w, obs := WithSyncRun(WithWallet(t, r.address)), WalletOf(t, r), Observations(res);
    var before := t2.(transfers := UpsertAll(t2.transfers, Deduped(res.baselineTransfers + res.scanTransfers)));
    assert obs[..|obs|] == obs && RowsOf(before.counterparties, w) == map[];
    EventsOfAppend(res.baselineObservations, res.scanObservations);
    if DistinctLinks(obs) {
      FreshLoop(before, w, obs, |obs|, r.faults);
    } else {
      RepeatsBreakTheMatch(before, w, obs, r.faults, Loop(t, r).tables.counterparties);
    }
  }

  /** When no transaction of the history has two rows with one fingerprint, a run observes no transfer twice. */
  lemma RunObservesOnce(p: CoreSyncParams, h: seq<EnhancedTransaction>, res: CoreSyncResult)
    requires Fetch.NewestFirst(h) && CollisionFree(h) && ValidCoreParams(p) && Consistent(p, h, res)
    ensures DistinctLinks(Observations(res))
  {
    hide FetchedFrom, ValidCoreParams, CollisionFree;
    RunTransfersDistinct(p, h, res);
    ObservationsOfAppend(p.focal, res.baselineTransfers, res.scanTransfers);
    DistinctObservations(p.focal, res.baselineTransfers + res.scanTransfers);
  }

  // ---- What a run reports ----

  /** The counters of the report that speak of table growth. */
  predicate Reported(c: Orchestrator.WalletCounters, inserted: nat, linked: nat, created: nat, updated: nat) {
    c.inserted == inserted && c.linked == linked && c.counterpartiesCreated == created && c.counterpartiesUpdated == updated
  }

  lemma {:induction false} UpsertAllGrows(rows: map<TxKey, NormalizedTransfer>, transfers: seq<NormalizedTransfer>)
    ensures |rows| <= |UpsertAll(rows, transfers)|
  {
    if transfers != [] {
      var init, k := transfers[..|transfers| - 1], KeyOf(transfers[|transfers| - 1]);
      UpsertAllGrows(rows, init);
      KeysGrow(UpsertAll(rows, init), k, transfers[|transfers| - 1]);
    }
  }

  lemma KeysGrow<K, V>(m: map<K, V>, k: K, v: V)
    ensures |m[k := v]| == if k in m then |m| else |m| + 1
  {
    assert m[k := v].Keys == m.Keys + {k};
    assert |m| == |m.Keys| && |m[k := v]| == |m[k := v].Keys|;
  }

  lemma UpsertOneCounts(s: LinkState, w: WalletId, o: Observation, i: nat, faults: StoreCall -> bool)
    requires s.lost == {}
    ensures var next := UpsertOne(s, w, o, i, faults);
            && next.tables.links == s.tables.links && next.linked == s.linked
            && |next.tables.counterparties| - |s.tables.counterparties| == next.created - s.created
            && next.created + next.updated + |next.lost| == s.created + s.updated + 1
            && (next.failed.None? ==> next.lost == {})
  {
    hide MergedRow, InsertedRow;
    KeysGrow(s.tables.counterparties, CounterpartyKey(w, o.counterparty),
             Upsert(s.tables.counterparties, CounterpartyKey(w, o.counterparty), EventOf(o))[CounterpartyKey(w, o.counterparty)]);
    assert {} + {LinkOf(w, o)} == {LinkOf(w, o)};
  }

  lemma LinkOneCounts(s: LinkState, w: WalletId, o: Observation, i: nat, faults: StoreCall -> bool)
    requires s.failed.None? && s.lost == {}
    ensures var next := LinkOne(s, w, o, i, faults);
            && |next.tables.links| - |s.tables.links| == next.linked - s.linked
            && |next.tables.counterparties| - |s.tables.counterparties| == next.created - s.created
            && next.linked - s.linked == next.created + next.updated + |next.lost| - s.created - s.updated
            && (next.failed.None? ==> next.lost == {})
  {
    hide UpsertOne;
    var linked := s.(log := s.log + [Entry(LinkTransfer(i), true)], tables := s.tables.(links := s.tables.links + {LinkOf(w, o)}), linked := s.linked + 1);
    UpsertOneCounts(linked, w, o, i, faults);
  }

  lemma {:induction false} LoopCounts(t: Tables, w: WalletId, obs: seq<Observation>, n: nat, faults: StoreCall -> bool)
    requires n <= |obs|
    ensures var s := LinkAll(t, w, obs, n, faults);
            && s.linked == |s.tables.links| - |t.links| && s.created == |s.tables.counterparties| - |t.counterparties|
            && s.linked == s.created + s.updated + |s.lost| && (s.failed.None? ==> s.lost == {})
  {
    hide LinkOne;
    if n > 0 {
      LoopCounts(t, w, obs, n - 1, faults);
      var s := LinkAll(t, w, obs, n - 1, faults);
      if s.failed.None? { LinkOneCounts(s, w, obs[n - 1], n - 1, faults); }
    }
  }

  lemma LaterStagesCount(s: Stage, w: WalletId, run: SyncRunId, scanEnd: int, res: CoreSyncResult, faults: StoreCall -> bool)
    ensures var after := StoreCandidates(s, w, run, scanEnd, res, faults);
            after.counters == s.counters.(candidatesInserted := after.counters.candidatesInserted)
  {
    hide Spoiled, FinalProgress, InsertAll, Reasoned, WithProgress, WithLastSynced;
  }

  lemma PersistCounts(t: Tables, w: WalletId, run: SyncRunId, scanEnd: int, res: CoreSyncResult, faults: StoreCall -> bool)
    ensures var p, s, transfers := Persist(t, w, run, scanEnd, res, faults), LoopFrom(t, w, res, faults), Deduped(res.baselineTransfers + res.scanTransfers);
            if faults(UpsertTransfers) && transfers != [] then Reported(p.counters, 0, 0, 0, 0)
            else Reported(p.counters, Grown(t.transfers, UpsertAll(t.transfers, transfers)), s.linked, s.created, s.updated)
  {
    hide Spoiled, StoreCandidates, LinkAll, UpsertAll, Deduped;
    var s, rows := LoopFrom(t, w, res, faults), UpsertAll(t.transfers, Deduped(res.baselineTransfers + res.scanTransfers));
    if s.failed.None? {
      var counters := CoreCounters(res).(
        inserted := Grown(t.transfers, rows), linked := s.linked, counterpartiesCreated := s.created, counterpartiesUpdated := s.updated);
      var stage := Stage(s.tables, [Entry(UpsertTransfers, true)] + s.log, Orchestrator.Partial, NO_PROGRESS, counters, false, s.postings, s.lost);
      LaterStagesCount(stage, w, run, scanEnd, res, faults);
    }
  }

  lemma BodyCounts(t: Tables, w: WalletId, run: SyncRunId, r: WalletRun)
    ensures var b := Body(t, w, run, r);
            if Delivers(r) then
              var s, transfers := LoopFrom(t, w, r.core.result, r.faults), Deduped(r.core.result.baselineTransfers + r.core.result.scanTransfers);
              Reported(b.counters, Grown(t.transfers, UpsertAll(t.transfers, transfers)), s.linked, s.created, s.updated)
            else Reported(b.counters, 0, 0, 0, 0)
  {
    hide Spoiled, Persist, LoopFrom, Deduped, UpsertAll;
    if r.core.CoreDone? { PersistCounts(t, w, run, r.scanEnd, r.core.result, r.faults); }
  }

  /** The counters a run reports are the growth of the tables: each new link was created, updated, or lost. */
  lemma ReportCountsGrowth(t: Tables, r: WalletRun)
    ensures var e := Execute(t, r);
            var c := e.report.counters;
            && c.inserted == |e.tables.transfers| - |t.transfers|
            && c.linked == |e.tables.links| - |t.links|
            && c.counterpartiesCreated == |e.tables.counterparties| - |t.counterparties|
            && c.linked == c.counterpartiesCreated + c.counterpartiesUpdated + |e.lost|
  {
    ExecuteEffect(t, r);
    ReportIsBodys(t, r);
    hide Execute, LinkAll, Body;
    if Opens(r) {
      var t2 := WithSyncRun(WithWallet(t, r.address));
      BodyCounts(t2, WalletOf(t, r), WithWallet(t, r.address).nextRun, r);
      if Delivers(r) {
        var res, obs := r.core.result, Observations(r.core.result);
        var rows := UpsertAll(t2.transfers, Deduped(res.baselineTransfers + res.scanTransfers));
        LoopCounts(t2.(transfers := rows), WalletOf(t, r), obs, |obs|, r.faults);
        LinkAllFrame(t2.(transfers := rows), WalletOf(t, r), obs, |obs|, r.faults);
        UpsertAllGrows(t2.transfers, Deduped(res.baselineTransfers + res.scanTransfers));
      }
    }
  }

  lemma ReportIsBodys(t: Tables, r: WalletRun)
    ensures var t1 := WithWallet(t, r.address);
            Execute(t, r).report.counters ==
              if Opens(r) then Body(WithSyncRun(t1), WalletOf(t, r), t1.nextRun, r).counters else Orchestrator.ZERO_COUNTERS
  {
    hide Body, WithFinal, Reasoned;
  }
}
