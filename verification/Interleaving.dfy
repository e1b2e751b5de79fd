/** Counting under concurrency: store calls of any number of workers in any order, whatever wallets they are on. */
module Interleaving {
  import opened Wrappers
  import opened Counting
  import opened Transfers
  import opened Counterparties
  import opened Materialize
  import opened CoreSync
  import opened Store
  import opened Execution
  import opened Persistence
  import RunHistory

  type WorkerId = nat

  /** The tables all workers share, what was counted, what was lost, and the new links whose upsert is still to come. */
  datatype Shared = Shared(tables: Tables, ledger: seq<Posting>, lost: set<Link>, pending: map<WorkerId, Posting>)

  const INITIAL := Shared(EMPTY, [], {}, map[])

  datatype Step =
    | StoreTransfers(transfers: seq<NormalizedTransfer>)          // a worker's transfer upsert commits
    | LinkWallet(id: WorkerId, wallet: WalletId, o: Observation)  // a link call commits
    | CountEvent(id: WorkerId)                                    // the counterparty upsert for the worker's new link commits
    | Drop(id: WorkerId)                                          // that upsert fails, or the worker dies before it
    | Elsewhere(tables: Tables)                                   // any write to the other tables

  predicate Enabled(s: Shared, step: Step) {
    match step
    case StoreTransfers(_) => true
    case LinkWallet(id, w, o) => id !in s.pending && KeyOf(o.transfer) in s.tables.transfers && Named(o)
    case CountEvent(id) => id in s.pending
    case Drop(id) => id in s.pending
    case Elsewhere(t) => t.transfers == s.tables.transfers && t.links == s.tables.links && t.counterparties == s.tables.counterparties
  }

  function PostingOf(w: WalletId, o: Observation): Posting { Posting(LinkOf(w, o), EventOf(o)) }

  function Apply(s: Shared, step: Step): Shared
    requires Enabled(s, step)
  {
    match step
    case StoreTransfers(transfers) => s.(tables := s.tables.(transfers := UpsertAll(s.tables.transfers, transfers)))
    case LinkWallet(id, w, o) =>
      if LinkOf(w, o) in s.tables.links then s
      else s.(tables := s.tables.(links := s.tables.links + {LinkOf(w, o)}), pending := s.pending[id := PostingOf(w, o)])
    case CountEvent(id) =>
      var p := s.pending[id];
      s.(tables := s.tables.(counterparties := Upsert(s.tables.counterparties, CounterpartyKey(p.link.wallet, p.event.counterparty), p.event)),
         ledger := s.ledger + [p], pending := s.pending - {id})
    case Drop(id) => s.(lost := s.lost + {s.pending[id].link}, pending := s.pending - {id})
    case Elsewhere(t) => s.(tables := t)
  }

  function ExecuteFrom(s: Shared, steps: seq<Step>): Option<Shared> {
    if steps == [] then Some(s)
    else
      match ExecuteFrom(s, steps[..|steps| - 1])
      case None => None
      case Some(u) => if Enabled(u, steps[|steps| - 1]) then Some(Apply(u, steps[|steps| - 1])) else None
  }

  // ---- The invariant ----

  function PendingLinks(pending: map<WorkerId, Posting>): set<Link> { set i | i in pending :: pending[i].link }

  /** Links that exist without having been counted. */
  function Uncounted(s: Shared): set<Link> { s.lost + PendingLinks(s.pending) }

  /** Each pending posting is its worker's own and is not lost. */
  ghost predicate Orderly(s: Shared) {
    && (forall i :: i in s.pending ==> Persistence.Faithful(s.pending[i]) && s.pending[i].link !in s.lost)
    && (forall i, j :: i in s.pending && j in s.pending && s.pending[i].link == s.pending[j].link ==> i == j)
  }

  ghost predicate Sound(s: Shared) { Orderly(s) && Balanced(s.tables, s.ledger, Uncounted(s)) }

  lemma PendingIsUncounted(s: Shared, id: WorkerId)
    requires Orderly(s) && id in s.pending
    ensures s.pending[id].link in Uncounted(s)
    ensures PendingLinks(s.pending - {id}) == PendingLinks(s.pending) - {s.pending[id].link}
    ensures s.lost + PendingLinks(s.pending - {id}) == Uncounted(s) - {s.pending[id].link}
  {
    var rest, l := s.pending - {id}, s.pending[id].link;
    forall x ensures x in PendingLinks(rest) <==> x in PendingLinks(s.pending) && x != l {
      if x in PendingLinks(s.pending) && x != l {
        var i :| i in s.pending && s.pending[i].link == x;
        assert i in rest && rest[i].link == x;
      }
      if x in PendingLinks(rest) {
        var i :| i in rest && rest[i].link == x;
        assert s.pending[i].link == x;
      }
    }
  }

  /** A posting leaves the uncounted links and enters the ledger. */
  lemma PostUncounted(links: set<Link>, ledger: seq<Posting>, uncounted: set<Link>, p: Posting)
    requires Accounted(links, ledger, uncounted) && p.link in uncounted && Persistence.Faithful(p)
    ensures Accounted(links, ledger + [p], uncounted - {p.link})
  {
    var after := ledger + [p];
    assert p in after && forall x :: x in after <==> x in ledger || x == p;
    forall l ensures Posted(after, l) <==> Posted(ledger, l) || l == p.link {}
    forall i | 0 <= i < |ledger| ensures ledger[i].link != p.link { assert Posted(ledger, ledger[i].link); }
  }

  lemma LinkKeepsSound(s: Shared, id: WorkerId, w: WalletId, o: Observation)
    requires Sound(s) && Enabled(s, LinkWallet(id, w, o))
    ensures Sound(Apply(s, LinkWallet(id, w, o)))
  {
    var l, u := LinkOf(w, o), Apply(s, LinkWallet(id, w, o));
    if l !in s.tables.links {
      assert l !in Uncounted(s);
      LoseAccounts(s.tables.links, s.ledger, Uncounted(s), l);
      forall x ensures x in PendingLinks(u.pending) <==> x in PendingLinks(s.pending) || x == l {
        if x in PendingLinks(s.pending) {
          var i :| i in s.pending && s.pending[i].link == x;
          assert u.pending[i].link == x;
        }
        assert u.pending[id].link == l;
      }
      assert Uncounted(u) == Uncounted(s) + {l};
      forall i | i in s.pending ensures s.pending[i].link != l { assert s.pending[i].link in PendingLinks(s.pending); }
    }
  }

  lemma CountKeepsSound(s: Shared, id: WorkerId)
    requires Sound(s) && id in s.pending
    ensures Sound(Apply(s, CountEvent(id)))
  {
    var p, u := s.pending[id], Apply(s, CountEvent(id));
    PendingIsUncounted(s, id);
    UpsertTallies(s.tables.counterparties, s.ledger, p);
    PostUncounted(s.tables.links, s.ledger, Uncounted(s), p);
    hide Tallied, Accounted;
    assert Uncounted(u) == Uncounted(s) - {p.link};
  }

  lemma DropKeepsSound(s: Shared, id: WorkerId)
    requires Sound(s) && id in s.pending
    ensures Sound(Apply(s, Drop(id)))
  {
    var u := Apply(s, Drop(id));
    PendingIsUncounted(s, id);
    hide Balanced;
    assert Uncounted(u) == Uncounted(s);
    forall i | i in u.pending ensures u.pending[i].link !in u.lost { assert s.pending[i].link != s.pending[id].link; }
  }

  lemma StepKeepsSound(s: Shared, step: Step)
    requires Sound(s) && Enabled(s, step)
    ensures Sound(Apply(s, step))
  {
    match step
    case LinkWallet(id, w, o) => LinkKeepsSound(s, id, w, o);
    case CountEvent(id) => CountKeepsSound(s, id);
    case Drop(id) => DropKeepsSound(s, id);
    case StoreTransfers(_) =>
    case Elsewhere(_) =>
  }

  lemma {:induction false} SchedulesKeepSound(s: Shared, steps: seq<Step>)
    requires Sound(s)
    ensures ExecuteFrom(s, steps).Some? ==> Sound(ExecuteFrom(s, steps).value)
  {
    hide Sound, Enabled, Apply;
    if steps != [] {
      SchedulesKeepSound(s, steps[..|steps| - 1]);
      var u := ExecuteFrom(s, steps[..|steps| - 1]);
      if u.Some? && Enabled(u.value, steps[|steps| - 1]) { StepKeepsSound(u.value, steps[|steps| - 1]); }
    }
  }

  lemma InitialIsSound()
    ensures Sound(INITIAL)
  {
    RunHistory.EmptyBalances();
    assert Uncounted(INITIAL) == {};
  }

  /** On every schedule, with any number of workers on any wallets and no help from the lock, a counterparty's counters
      are the numbers of its links that are neither lost nor still being counted. */
  lemma ExactlyOnceConcurrently(steps: seq<Step>, w: WalletId, c: Address)
    requires ExecuteFrom(INITIAL, steps).Some?
    ensures var s := ExecuteFrom(INITIAL, steps).value;
            var row := RunHistory.CounterpartyRow(s.tables, w, c);
            && row.interactions == |RunHistory.CountedLinks(s.tables, Uncounted(s), w, c, {Sender, Receiver})|
            && row.inbound == |RunHistory.CountedLinks(s.tables, Uncounted(s), w, c, {Receiver})|
            && row.outbound == |RunHistory.CountedLinks(s.tables, Uncounted(s), w, c, {Sender})|
            && (s.pending == map[] ==> Uncounted(s) == s.lost)
  {
    InitialIsSound();
    SchedulesKeepSound(INITIAL, steps);
    var s := ExecuteFrom(INITIAL, steps).value;
    hide Balanced;
    RunHistory.BalancedRowsCount(s.tables, s.ledger, Uncounted(s), w, c);
  }

  function IsDrop(): Step -> bool { (step: Step) => step.Drop? }

  lemma StepLoses(s: Shared, step: Step)
    requires Orderly(s) && Enabled(s, step)
    ensures |Apply(s, step).lost| == |s.lost| + if IsDrop()(step) then 1 else 0
  {
    hide Upsert, UpsertAll;
  }

  /** Nothing is lost but by a drop, one link each time. */
  lemma {:induction false} LostAreDropped(steps: seq<Step>)
    requires ExecuteFrom(INITIAL, steps).Some?
    ensures |ExecuteFrom(INITIAL, steps).value.lost| == Count(steps, IsDrop())
  {
    hide Balanced, Orderly, Enabled, Apply;
    if steps != [] {
      var before := steps[..|steps| - 1];
      LostAreDropped(before);
      InitialIsSound();
      SchedulesKeepSound(INITIAL, before);
      StepLoses(ExecuteFrom(INITIAL, before).value, steps[|steps| - 1]);
    }
  }

  // ---- The runner's loop is a schedule ----

  /** The steps a worker's loop takes over the first `n` observations. */
  function LoopSteps(id: WorkerId, t: Tables, w: WalletId, obs: seq<Observation>, n: nat, faults: StoreCall -> bool): seq<Step>
    requires n <= |obs|
  {
    if n == 0 then []
    else
      var before, s := LoopSteps(id, t, w, obs, n - 1, faults), LinkAll(t, w, obs, n - 1, faults);
      if s.failed.Some? then before else before + ObservationSteps(id, s, w, obs[n - 1], n - 1, faults)
  }

  /** The steps over one observation: none if the link call fails, else the link, then its count or its loss if it is new. */
  function ObservationSteps(id: WorkerId, s: LinkState, w: WalletId, o: Observation, i: nat, faults: StoreCall -> bool): seq<Step> {
    var next := LinkOne(s, w, o, i, faults);
    if next.failed == Some(AtLink) then []
    else if LinkOf(w, o) in s.tables.links then [LinkWallet(id, w, o)]
    else if next.failed.Some? then [LinkWallet(id, w, o), Drop(id)]
    else [LinkWallet(id, w, o), CountEvent(id)]
  }

  lemma {:induction false} ExecuteAppend(s: Shared, a: seq<Step>, b: seq<Step>)
    requires ExecuteFrom(s, a).Some?
    ensures ExecuteFrom(s, a + b) == ExecuteFrom(ExecuteFrom(s, a).value, b)
  {
    hide Enabled, Apply;
    if b == [] {
      assert a + b == a;
    } else {
      assert (a + b)[..|a + b| - 1] == a + b[..|b| - 1];
      ExecuteAppend(s, a, b[..|b| - 1]);
    }
  }

  lemma OneStep(s: Shared, x: Step)
    requires Enabled(s, x)
    ensures ExecuteFrom(s, [x]) == Some(Apply(s, x))
  {
    assert [x][..0] == [];
  }

  lemma TwoSteps(s: Shared, x: Step, y: Step)
    requires Enabled(s, x) && Enabled(Apply(s, x), y)
    ensures ExecuteFrom(s, [x, y]) == Some(Apply(Apply(s, x), y))
  {
    OneStep(s, x);
    assert [x, y][..1] == [x];
  }

  /** The state after a worker that works alone. */
  function After(ledger: seq<Posting>, lost: set<Link>, pending: map<WorkerId, Posting>, s: LinkState): Shared {
    Shared(s.tables, ledger + s.postings, lost + s.lost, pending)
  }

  lemma ObservationIsScheduled(id: WorkerId, s: LinkState, w: WalletId, o: Observation, i: nat, faults: StoreCall -> bool,
                               ledger: seq<Posting>, lost: set<Link>, pending: map<WorkerId, Posting>)
    requires s.failed.None? && Named(o) && id !in pending
    ensures ExecuteFrom(After(ledger, lost, pending, s), ObservationSteps(id, s, w, o, i, faults))
         == Some(After(ledger, lost, pending, LinkOne(s, w, o, i, faults)))
  {
    hide Upsert;
    var u, next := After(ledger, lost, pending, s), LinkOne(s, w, o, i, faults);
    var link := LinkWallet(id, w, o);
    if next.failed == Some(AtLink) {
    } else if LinkOf(w, o) in s.tables.links {
      OneStep(u, link);
    } else {
      var v := Apply(u, link);
      assert v.pending - {id} == pending && v.pending[id] == PostingOf(w, o);
      if next.failed.Some? {
        TwoSteps(u, link, Drop(id));
        assert lost + s.lost + {LinkOf(w, o)} == lost + next.lost;
      } else {
        TwoSteps(u, link, CountEvent(id));
        assert ledger + s.postings + [PostingOf(w, o)] == ledger + next.postings;
      }
    }
  }

  /** The loop of the runner, failures included, is one worker's part of such a schedule. */
  lemma {:induction false} LoopIsScheduled(id: WorkerId, t: Tables, w: WalletId, obs: seq<Observation>, n: nat, faults: StoreCall -> bool,
                                           ledger: seq<Posting>, lost: set<Link>, pending: map<WorkerId, Posting>)
    requires n <= |obs| && id !in pending && forall o :: o in obs ==> Named(o)
    ensures ExecuteFrom(Shared(t, ledger, lost, pending), LoopSteps(id, t, w, obs, n, faults))
         == Some(After(ledger, lost, pending, LinkAll(t, w, obs, n, faults)))
  {
    hide LinkOne, ObservationSteps, Named, Enabled, Apply;
    var start := Shared(t, ledger, lost, pending);
    if n == 0 {
      assert ledger + [] == ledger && lost + {} == lost;
    } else {
      LoopIsScheduled(id, t, w, obs, n - 1, faults, ledger, lost, pending);
      var s := LinkAll(t, w, obs, n - 1, faults);
      if s.failed.None? {
        ExecuteAppend(start, LoopSteps(id, t, w, obs, n - 1, faults), ObservationSteps(id, s, w, obs[n - 1], n - 1, faults));
        ObservationIsScheduled(id, s, w, obs[n - 1], n - 1, faults, ledger, lost, pending);
      }
    }
  }
}
