/** What any sequence of wallet runs, with any failures, leaves in the tables. */
module Persistence {
  import opened Wrappers
  import opened Transfers
  import opened Counterparties
  import opened Materialize
  import opened CoreSync
  import opened Store
  import opened Execution
  import Orchestrator

  // ---- Counterparty rows against links ----

  /** The events counted for wallet `w`. */
  function EventsFor(ledger: seq<Posting>, w: WalletId): seq<Event> {
    if ledger == [] then []
    else
      var before, p := EventsFor(ledger[..|ledger| - 1], w), ledger[|ledger| - 1];
      if p.link.wallet == w then before + [p.event] else before
  }

  /** The counterparty rows of one wallet, by address. */
  function RowsOf(rows: map<CounterpartyKey, Counterparty>, w: WalletId): map<Address, Counterparty> {
    map k | k in rows && k.wallet == w :: k.address := rows[k]
  }

  predicate Posted(ledger: seq<Posting>, l: Link) { exists p :: p in ledger && p.link == l }

  /** A posting counts the event of its own link. */
  predicate Faithful(p: Posting) {
    p.event.counterparty == Partner(p.link.tx.fingerprint, p.link.relation) && p.event.relation == p.link.relation
  }

  /** Every counterparty row aggregates exactly the events posted for it. */
  ghost predicate Tallied(rows: map<CounterpartyKey, Counterparty>, ledger: seq<Posting>) {
    forall w :: RowsOf(rows, w) == Fold(EventsFor(ledger, w))
  }

  /** Every stored link was posted once, or is one of the `lost` links and was never posted. */
  ghost predicate Accounted(links: set<Link>, ledger: seq<Posting>, lost: set<Link>) {
    && (forall i, j :: 0 <= i < j < |ledger| ==> ledger[i].link != ledger[j].link)
    && (forall l :: l in links <==> l in lost || Posted(ledger, l))
    && (forall l :: l in lost ==> !Posted(ledger, l))
    && (forall p :: p in ledger ==> Faithful(p))
  }

  ghost predicate Balanced(t: Tables, ledger: seq<Posting>, lost: set<Link>) {
    Tallied(t.counterparties, ledger) && Accounted(t.links, ledger, lost)
  }

  /** Upserting a row of wallet `w` is upserting into its view, and leaves the views of other wallets alone. */
  lemma UpsertInView(rows: map<CounterpartyKey, Counterparty>, v: WalletId, w: WalletId, e: Event)
    ensures RowsOf(Upsert(rows, CounterpartyKey(v, e.counterparty), e), w)
         == if v == w then Upsert(RowsOf(rows, w), e.counterparty, e) else RowsOf(rows, w)
  {
  }

  lemma UpsertTallies(rows: map<CounterpartyKey, Counterparty>, ledger: seq<Posting>, p: Posting)
    requires Tallied(rows, ledger)
    ensures Tallied(Upsert(rows, CounterpartyKey(p.link.wallet, p.event.counterparty), p.event), ledger + [p])
  {
    var after := Upsert(rows, CounterpartyKey(p.link.wallet, p.event.counterparty), p.event);
    hide Upsert, RowsOf, Fold;
    forall w ensures RowsOf(after, w) == Fold(EventsFor(ledger + [p], w)) {
      assert (ledger + [p])[..|ledger|] == ledger;
      UpsertInView(rows, p.link.wallet, w, p.event);
      FoldSnoc(EventsFor(ledger, w), p.event);
      assert RowsOf(rows, w) == Fold(EventsFor(ledger, w));
    }
  }

  lemma PostAccounts(links: set<Link>, ledger: seq<Posting>, lost: set<Link>, p: Posting)
    requires Accounted(links, ledger, lost) && p.link !in links && Faithful(p)
    ensures Accounted(links + {p.link}, ledger + [p], lost)
  {
    var after := ledger + [p];
    assert p in after && forall x :: x in after <==> x in ledger || x == p;
    forall l ensures Posted(after, l) <==> Posted(ledger, l) || l == p.link {}
    forall i | 0 <= i < |ledger| ensures ledger[i].link != p.link { assert Posted(ledger, ledger[i].link); }
  }

  lemma LoseAccounts(links: set<Link>, ledger: seq<Posting>, lost: set<Link>, l: Link)
    requires Accounted(links, ledger, lost) && l !in links
    ensures Accounted(links + {l}, ledger, lost + {l})
  {
  }

  /** One observation keeps the books balanced, and loses a link only when it fails. */
  lemma LinkOneBalances(s: LinkState, w: WalletId, o: Observation, i: nat, faults: StoreCall -> bool, ledger: seq<Posting>, lost: set<Link>)
    requires s.failed.None? && s.lost == {} && Named(o) && Balanced(s.tables, ledger + s.postings, lost)
    ensures var next := LinkOne(s, w, o, i, faults);
            && Balanced(next.tables, ledger + next.postings, lost + next.lost)
            && |next.lost| <= 1 && (next.failed.None? ==> next.lost == {})
  {
    var next, l, p := LinkOne(s, w, o, i, faults), LinkOf(w, o), Posting(LinkOf(w, o), EventOf(o));
    assert lost + {} == lost;
    if next.failed == Some(AtLink) || l in s.tables.links {
      return;
    }
    if next.failed.Some? {
      assert next.lost == {l};
      LoseAccounts(s.tables.links, ledger + s.postings, lost, l);
    } else {
      UpsertTallies(s.tables.counterparties, ledger + s.postings, p);
      PostAccounts(s.tables.links, ledger + s.postings, lost, p);
      assert ledger + next.postings == ledger + s.postings + [p];
    }
  }

  lemma {:induction false} LinkAllBalances(t: Tables, w: WalletId, obs: seq<Observation>, n: nat, faults: StoreCall -> bool, ledger: seq<Posting>, lost: set<Link>)
    requires n <= |obs| && (forall o :: o in obs ==> Named(o)) && Balanced(t, ledger, lost)
    ensures var s := LinkAll(t, w, obs, n, faults);
            && Balanced(s.tables, ledger + s.postings, lost + s.lost)
            && |s.lost| <= 1 && (s.failed.None? ==> s.lost == {})
  {
    hide LinkOne, Balanced;
    if n == 0 {
      assert ledger + [] == ledger && lost + {} == lost;
    } else {
      var s := LinkAll(t, w, obs, n - 1, faults);
      LinkAllBalances(t, w, obs, n - 1, faults, ledger, lost);
      if s.failed.None? {
        assert lost + {} == lost;
        LinkOneBalances(s, w, obs[n - 1], n - 1, faults, ledger, lost);
      }
    }
  }

  // ---- What a run reaches ----

  /** The run gets as far as its observations. */
  predicate ReachesLinks(r: WalletRun) {
    Opens(r) && Delivers(r)
  }

  /** The run has a core result and stores its transfers. */
  predicate Delivers(r: WalletRun) {
    && !r.faults(ListThresholds) && r.rulesAccepted && r.core.CoreDone?
    && (r.faults(UpsertTransfers) ==> Deduped(r.core.result.baselineTransfers + r.core.result.scanTransfers) == [])
  }

  function WalletOf(t: Tables, r: WalletRun): WalletId { WithWallet(t, r.address).wallets[r.address] }

  predicate SameWallets(t: Tables, u: Tables) { t.wallets == u.wallets && t.nextWallet == u.nextWallet }

  /** Two states of the tables with the same wallets, transfers, links and counterparties. */
  predicate SameLedger(t: Tables, u: Tables) {
    t.transfers == u.transfers && t.links == u.links && t.counterparties == u.counterparties
    && SameWallets(t, u)
  }

  lemma LinkOneFrame(s: LinkState, w: WalletId, o: Observation, i: nat, faults: StoreCall -> bool)
    ensures var next := LinkOne(s, w, o, i, faults);
            next.tables == s.tables.(links := next.tables.links, counterparties := next.tables.counterparties)
  {
    hide Upsert;
  }

  lemma {:induction false} LinkAllFrame(t: Tables, w: WalletId, obs: seq<Observation>, n: nat, faults: StoreCall -> bool)
    requires n <= |obs|
    ensures var s := LinkAll(t, w, obs, n, faults);
            s.tables == t.(links := s.tables.links, counterparties := s.tables.counterparties)
  {
    hide LinkOne;
    if n > 0 {
      LinkAllFrame(t, w, obs, n - 1, faults);
      LinkOneFrame(LinkAll(t, w, obs, n - 1, faults), w, obs[n - 1], n - 1, faults);
    }
  }

  lemma LaterStagesFrame(s: Stage, w: WalletId, run: SyncRunId, scanEnd: int, res: CoreSyncResult, faults: StoreCall -> bool)
    ensures var after := StoreCandidates(s, w, run, scanEnd, res, faults);
            SameLedger(after.tables, s.tables) && after.postings == s.postings && after.lost == s.lost
  {
    hide Spoiled, FinalProgress, InsertAll, Reasoned;
  }

  /** What the loop over a core result does to tables `t`. */
  function LoopFrom(t: Tables, w: WalletId, res: CoreSyncResult, faults: StoreCall -> bool): LinkState {
    var obs := Observations(res);
    LinkAll(t.(transfers := UpsertAll(t.transfers, Deduped(res.baselineTransfers + res.scanTransfers))), w, obs, |obs|, faults)
  }

  /** The loop over the observations of a run that starts from `t`. */
  function Loop(t: Tables, r: WalletRun): LinkState
    requires r.core.CoreDone?
  {
    LoopFrom(WithSyncRun(WithWallet(t, r.address)), WalletOf(t, r), r.core.result, r.faults)
  }

  lemma PersistEffect(t: Tables, w: WalletId, run: SyncRunId, scanEnd: int, res: CoreSyncResult, faults: StoreCall -> bool)
    ensures var p, s := Persist(t, w, run, scanEnd, res, faults), LoopFrom(t, w, res, faults);
            if faults(UpsertTransfers) && Deduped(res.baselineTransfers + res.scanTransfers) != []
            then p.tables == t && p.postings == [] && p.lost == {}
            else SameLedger(p.tables, s.tables) && p.postings == s.postings && p.lost == s.lost
  {
    hide Spoiled, StoreCandidates, LinkAll, UpsertAll, Deduped;
    var s, rows := LoopFrom(t, w, res, faults), UpsertAll(t.transfers, Deduped(res.baselineTransfers + res.scanTransfers));
    if s.failed.None? {
      var counters := CoreCounters(res).(
        inserted := Grown(t.transfers, rows), linked := s.linked, counterpartiesCreated := s.created, counterpartiesUpdated := s.updated);
      var stage := Stage(s.tables, [Entry(UpsertTransfers, true)] + s.log, Orchestrator.Partial, NO_PROGRESS, counters, false, s.postings, s.lost);
      LaterStagesFrame(stage, w, run, scanEnd, res, faults);
    }
  }

  lemma FinishEffect(s: Stage, run: SyncRunId, faults: StoreCall -> bool)
    ensures var e := Finish(s, run, faults);
            SameLedger(e.tables, s.tables) && e.postings == s.postings && e.lost == s.lost
  {
    hide Reasoned, RecordedReason;
  }

  lemma BodyEffect(t: Tables, w: WalletId, run: SyncRunId, r: WalletRun)
    ensures var b := Body(t, w, run, r);
            if Delivers(r) then
              var s := LoopFrom(t, w, r.core.result, r.faults);
              SameLedger(b.tables, s.tables) && b.postings == s.postings && b.lost == s.lost
            else b.tables == t && b.postings == [] && b.lost == {}
  {
    hide Spoiled, Persist, LoopFrom, SameLedger, Deduped;
    if r.core.CoreDone? { PersistEffect(t, w, run, r.scanEnd, r.core.result, r.faults); }
  }

  /** A run changes transfers, links and counterparties only in its loop, and only if it reaches it. */
  lemma ExecuteEffect(t: Tables, r: WalletRun)
    ensures var e := Execute(t, r);
            if ReachesLinks(r) then SameLedger(e.tables, Loop(t, r).tables) && e.postings == Loop(t, r).postings && e.lost == Loop(t, r).lost
            else e.tables.transfers == t.transfers && e.tables.links == t.links
                 && e.tables.counterparties == t.counterparties && e.postings == [] && e.lost == {}
                 && (SameWallets(e.tables, t) || SameWallets(e.tables, WithWallet(t, r.address)))
  {
    hide Body, Finish, LoopFrom, Delivers;
    if Opens(r) {
      var t1 := WithWallet(t, r.address);
      BodyEffect(WithSyncRun(t1), t1.wallets[r.address], t1.nextRun, r);
      FinishEffect(Body(WithSyncRun(t1), t1.wallets[r.address], t1.nextRun, r), t1.nextRun, r.faults);
    }
  }
}
