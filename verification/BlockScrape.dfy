/** Wallets seen in recent blocks: how many calls that takes, and which wallets are kept. */
module BlockScrape {
  import opened Arithmetic
  import opened Text
  import opened Wrappers
  import opened Counting
  import opened Transfers
  import Sorting

  datatype BlockObservation = BlockObservation(address: Address, outbound: bool)

  /** A transaction of a block: whether it failed, whether it looks like a quiet transfer, and the owners it shows. */
  datatype BlockTx = BlockTx(failed: bool, quiet: bool, observations: seq<BlockObservation>)

  datatype ScrapeOptions = ScrapeOptions(
    startSlot: int, blockLookback: int, maxBlocks: int, maxWallets: int, maxTXPerBlock: int, minScrapeCount: int)

  datatype ScrapedWallet = ScrapedWallet(address: Address, count: nat, outbound: nat, inbound: nat)

  function OrElse(x: int, d: int): int { if x <= 0 then d else x }

  function WithScrapeDefaults(o: ScrapeOptions): ScrapeOptions {
    var lookback := OrElse(o.blockLookback, 100);
    o.(blockLookback := lookback, maxBlocks := OrElse(o.maxBlocks, lookback), maxWallets := OrElse(o.maxWallets, 100),
       maxTXPerBlock := OrElse(o.maxTXPerBlock, 200), minScrapeCount := Max(o.minScrapeCount, 0))
  }

  /** An option that is set stays; what is not set gets its default. */
  lemma ScrapeDefaultsMeaning(o: ScrapeOptions)
    ensures var d := WithScrapeDefaults(o);
      && d.startSlot == o.startSlot
      && (o.blockLookback > 0 ==> d.blockLookback == o.blockLookback) && (o.blockLookback <= 0 ==> d.blockLookback == 100)
      && (o.maxBlocks > 0 ==> d.maxBlocks == o.maxBlocks) && (o.maxBlocks <= 0 ==> d.maxBlocks == d.blockLookback)
      && (o.maxWallets > 0 ==> d.maxWallets == o.maxWallets) && (o.maxWallets <= 0 ==> d.maxWallets == 100)
      && (o.maxTXPerBlock > 0 ==> d.maxTXPerBlock == o.maxTXPerBlock) && (o.maxTXPerBlock <= 0 ==> d.maxTXPerBlock == 200)
      && (o.minScrapeCount >= 0 ==> d.minScrapeCount == o.minScrapeCount) && (o.minScrapeCount < 0 ==> d.minScrapeCount == 0)
  {
  }

  /** The chain as the RPC endpoint answers; `calls` counts the requests. */
  class Rpc {
    const latest: Option<int>
    const blocks: int -> Option<seq<BlockTx>>
    var calls: nat

    constructor (latest: Option<int>, blocks: int -> Option<seq<BlockTx>>)
      ensures this.latest == latest && this.blocks == blocks && calls == 0
    {
      this.latest, this.blocks, calls := latest, blocks, 0;
    }

    method GetSlot() returns (r: Option<int>)
      modifies this`calls
      ensures r == latest && calls == old(calls) + 1
    {
      calls := calls + 1;
      r := latest;
    }

    method GetBlock(slot: int) returns (r: Option<seq<BlockTx>>)
      modifies this`calls
      ensures r == blocks(slot) && calls == old(calls) + 1
    {
      calls := calls + 1;
      r := blocks(slot);
    }
  }

  // ---- What the scraped blocks show ----

  predicate Inspectable(tx: BlockTx) { !tx.failed && tx.quiet }

  /** The observations of the first `max` inspectable transactions. */
  function BlockYield(txs: seq<BlockTx>, max: int): seq<BlockObservation> {
    if txs == [] then []
    else
      var init, tx := txs[..|txs| - 1], txs[|txs| - 1];
      if Inspectable(tx) && (max <= 0 || InspectedIn(init) < max) then BlockYield(init, max) + tx.observations else BlockYield(init, max)
  }

  function InspectedIn(txs: seq<BlockTx>): nat {
    if txs == [] then 0 else InspectedIn(txs[..|txs| - 1]) + if Inspectable(txs[|txs| - 1]) then 1 else 0
  }

  /** An observation is used when its transaction succeeded, is quiet, and comes before the limit is reached. */
  lemma {:induction false} YieldMembers(txs: seq<BlockTx>, max: int, x: BlockObservation)
    ensures x in BlockYield(txs, max) <==>
              exists k: nat :: k < |txs| && !txs[k].failed && txs[k].quiet && x in txs[k].observations && (max <= 0 || |QuietBefore(txs, k)| < max)
  {
    if txs != [] {
      var n := |txs| - 1;
      var init := txs[..n];
      YieldMembers(init, max, x);
      forall k: nat | k <= n ensures QuietBefore(init, k) == QuietBefore(txs, k) {}
      QuietCount(txs, n);
      if k: nat :| k < n && !init[k].failed && init[k].quiet && x in init[k].observations && (max <= 0 || |QuietBefore(init, k)| < max) {
        assert !txs[k].failed && txs[k].quiet && x in txs[k].observations;
      }
      if k: nat :| k < |txs| && !txs[k].failed && txs[k].quiet && x in txs[k].observations && (max <= 0 || |QuietBefore(txs, k)| < max) {
        if k < n { assert !init[k].failed && init[k].quiet && x in init[k].observations; }
      }
    }
  }

  /** The successful quiet transactions before position `k`. */
  function QuietBefore(txs: seq<BlockTx>, k: nat): set<nat>
    requires k <= |txs|
  {
    set j: nat | j < k && !txs[j].failed && txs[j].quiet
  }

  lemma {:induction false} QuietCount(txs: seq<BlockTx>, k: nat)
    requires k <= |txs|
    ensures InspectedIn(txs[..k]) == |QuietBefore(txs, k)|
  {
    if k == 0 {
      assert QuietBefore(txs, 0) == {};
    } else {
      QuietCount(txs, k - 1);
      assert txs[..k][..k - 1] == txs[..k - 1];
      assert QuietBefore(txs, k) == QuietBefore(txs, k - 1) + if !txs[k - 1].failed && txs[k - 1].quiet then {k - 1} else {};
    }
  }

  /** The observations of `n` blocks downwards from `start`; blocks that cannot be read show nothing. */
  function Harvest(rpc: Rpc, start: int, n: nat, max: int): seq<BlockObservation> {
    if n == 0 then []
    else
      var block := rpc.blocks(start - (n - 1));
      Harvest(rpc, start, n - 1, max) + if block.Some? then BlockYield(block.value, max) else []
  }

  function Sees(a: Address): BlockObservation -> bool { (x: BlockObservation) => x.address == a }
  function SeesOutbound(a: Address): BlockObservation -> bool { (x: BlockObservation) => x.address == a && x.outbound }

  function WalletIn(seen: seq<BlockObservation>, a: Address): ScrapedWallet {
    var count, outbound := Count(seen, Sees(a)), Count(seen, SeesOutbound(a));
    OutboundAtMost(seen, a);
    ScrapedWallet(a, count, outbound, count - outbound)
  }

  lemma {:induction false} OutboundAtMost(seen: seq<BlockObservation>, a: Address)
    ensures Count(seen, SeesOutbound(a)) <= Count(seen, Sees(a))
  {
    if seen != [] { OutboundAtMost(seen[..|seen| - 1], a); }
  }

  /** A wallet that sends, at least as much as it receives, and is seen often enough. */
  predicate Kept(w: ScrapedWallet, min: int) { w.outbound > 0 && w.inbound <= w.outbound && w.count >= min }

  /** A wallet is dropped when it never sends, receives more than it sends, or is seen too rarely. */
  lemma KeptMeaning(w: ScrapedWallet, min: int)
    ensures !Kept(w, min) <==> w.outbound == 0 || w.inbound > w.outbound || w.count < min
  {
  }

  ghost predicate IsKept(seen: seq<BlockObservation>, min: int, w: ScrapedWallet) { w == WalletIn(seen, w.address) && Kept(w, min) }

  predicate RarerFirst(a: ScrapedWallet, b: ScrapedWallet) {
    if a.count == b.count then LexLeq(a.address, b.address) else a.count < b.count
  }

  /** Wallets seen more often never come first, and equally many go by the address. */
  lemma RarerFirstMeaning(a: ScrapedWallet, b: ScrapedWallet)
    ensures RarerFirst(a, b) <==> a.count <= b.count && (a.count == b.count ==> LexLeq(a.address, b.address))
  {
  }

  // ---- Scraping ----

  datatype Stats = Stats(count: nat, outbound: nat, inbound: nat)

  function StatsAt(stats: map<Address, Stats>, a: Address): Stats { if a in stats then stats[a] else Stats(0, 0, 0) }

  ghost predicate Tracks(stats: map<Address, Stats>, seen: seq<BlockObservation>) {
    forall a :: StatsAt(stats, a) == (var w := WalletIn(seen, a); Stats(w.count, w.outbound, w.inbound))
  }

  function Bumped(s: Stats, outbound: bool): Stats {
    if outbound then s.(count := s.count + 1, outbound := s.outbound + 1) else s.(count := s.count + 1, inbound := s.inbound + 1)
  }

  lemma ObserveOne(stats: map<Address, Stats>, seen: seq<BlockObservation>, x: BlockObservation)
    requires Tracks(stats, seen)
    ensures Tracks(stats[x.address := Bumped(StatsAt(stats, x.address), x.outbound)], seen + [x])
  {
    var after := stats[x.address := Bumped(StatsAt(stats, x.address), x.outbound)];
    forall a ensures StatsAt(after, a) == (var w := WalletIn(seen + [x], a); Stats(w.count, w.outbound, w.inbound)) {
      CountSnoc(seen, x, Sees(a));
      CountSnoc(seen, x, SeesOutbound(a));
      OutboundAtMost(seen, a);
      assert StatsAt(stats, a) == Stats(WalletIn(seen, a).count, WalletIn(seen, a).outbound, WalletIn(seen, a).inbound);
    }
  }

  method AddObservations(stats: map<Address, Stats>, observations: seq<BlockObservation>, ghost seen: seq<BlockObservation>)
    returns (out: map<Address, Stats>)
    requires Tracks(stats, seen)
    ensures Tracks(out, seen + observations)
  {
    hide Tracks;
    out := stats;
    assert seen + observations[..0] == seen;
    for i := 0 to |observations|
      invariant Tracks(out, seen + observations[..i])
    {
      var x := observations[i];
      assert seen + observations[..i + 1] == seen + observations[..i] + [x];
      ObserveOne(out, seen + observations[..i], x);
      var rec := StatsAt(out, x.address);
      rec := rec.(count := rec.count + 1);
      if x.outbound { rec := rec.(outbound := rec.outbound + 1); } else { rec := rec.(inbound := rec.inbound + 1); }
      out := out[x.address := rec];
    }
    assert observations[..|observations|] == observations;
  }

  lemma {:induction false} NothingMore(txs: seq<BlockTx>, n: nat, max: int)
    requires n <= |txs| && max > 0 && InspectedIn(txs[..n]) >= max
    ensures BlockYield(txs, max) == BlockYield(txs[..n], max) && InspectedIn(txs) >= max
  {
    if n < |txs| {
      assert txs[..|txs| - 1][..n] == txs[..n];
      NothingMore(txs[..|txs| - 1], n, max);
    } else {
      assert txs[..n] == txs;
    }
  }

  method AddBlock(stats: map<Address, Stats>, txs: seq<BlockTx>, max: int, ghost seen: seq<BlockObservation>) returns (out: map<Address, Stats>)
    requires Tracks(stats, seen)
    ensures Tracks(out, seen + BlockYield(txs, max))
  {
    hide Tracks;
    out := stats;
    var inspected := 0;
    assert seen + BlockYield(txs[..0], max) == seen;
    for i := 0 to |txs|
      invariant Tracks(out, seen + BlockYield(txs[..i], max)) && inspected == InspectedIn(txs[..i]) && (max > 0 ==> inspected <= max)
    {
      var tx := txs[i];
      assert txs[..i + 1][..i] == txs[..i];
      if tx.failed { continue; }
      if !tx.quiet { continue; }
      inspected := inspected + 1;
      if max > 0 && inspected > max {
        NothingMore(txs, i, max);
        return;
      }
      assert seen + (BlockYield(txs[..i], max) + tx.observations) == seen + BlockYield(txs[..i], max) + tx.observations;
      out := AddObservations(out, tx.observations, seen + BlockYield(txs[..i], max));
    }
    assert txs[..|txs|] == txs;
  }

  /** The block calls a scrape may make. */
  function BlockCalls(o: ScrapeOptions): nat { Max(Min(o.blockLookback, o.maxBlocks), 0) }

  /** The blocks a scrape reads downwards from `start`: as many as it may, and none below slot 1. */
  function BlocksRead(o: ScrapeOptions, start: int): nat { Min(BlockCalls(o), Max(start, 0)) }

  lemma OneMoreBlock(rpc: Rpc, start: int, n: nat, max: int)
    ensures var block, seen := rpc.blocks(start - n), Harvest(rpc, start, n, max);
            Harvest(rpc, start, n + 1, max) == if block.Some? then seen + BlockYield(block.value, max) else seen
  {
    hide BlockYield;
    assert Harvest(rpc, start, n, max) + [] == Harvest(rpc, start, n, max);
  }

  method ReadBlocks(rpc: Rpc, start: int, o: ScrapeOptions) returns (stats: map<Address, Stats>)
    requires o.maxBlocks >= 1
    modifies rpc`calls
    ensures rpc.calls == old(rpc.calls) + BlocksRead(o, start)
    ensures Tracks(stats, Harvest(rpc, start, BlocksRead(o, start), o.maxTXPerBlock))
  {
    stats := map[];
    assert Tracks(stats, Harvest(rpc, start, 0, o.maxTXPerBlock));
    hide Tracks, Harvest;
    var checked := 0;
    while checked < o.blockLookback
      invariant 0 <= checked <= BlocksRead(o, start) && rpc.calls == old(rpc.calls) + checked
      invariant Tracks(stats, Harvest(rpc, start, checked, o.maxTXPerBlock))
    {
      if o.maxBlocks > 0 && checked >= o.maxBlocks { break; }
      var slot := start - checked;
      if slot <= 0 { break; }
      stats := ReadBlock(rpc, slot, stats, o.maxTXPerBlock, start, checked);
      checked := checked + 1;
    }
  }

  /** Reads one block; one that cannot be read is skipped. */
  method ReadBlock(rpc: Rpc, slot: int, stats: map<Address, Stats>, max: int, ghost start: int, ghost n: nat) returns (out: map<Address, Stats>)
    requires slot == start - n && Tracks(stats, Harvest(rpc, start, n, max))
    modifies rpc`calls
    ensures rpc.calls == old(rpc.calls) + 1 && Tracks(out, Harvest(rpc, start, n + 1, max))
  {
    ghost var seen := Harvest(rpc, start, n, max);
    OneMoreBlock(rpc, start, n, max);
    hide Tracks, BlockYield, Harvest;
    var block := rpc.GetBlock(slot);
    if block.None? { return stats; }
    out := AddBlock(stats, block.value, max, seen);
  }

  ghost predicate DistinctWallets(ws: seq<ScrapedWallet>) { forall i, j :: 0 <= i < j < |ws| ==> ws[i].address != ws[j].address }

  /** `ws` lists the wallets to keep, each once, rarest first. */
  ghost predicate Lists(ws: seq<ScrapedWallet>, seen: seq<BlockObservation>, min: int) {
    Sorting.SortedBy(ws, RarerFirst) && DistinctWallets(ws) && forall w :: w in ws <==> IsKept(seen, min, w)
  }

  lemma RarerFirstOrders(s: seq<ScrapedWallet>)
    ensures Sorting.OrderOn(s, RarerFirst)
  {
    forall a: ScrapedWallet, b: ScrapedWallet ensures RarerFirst(a, b) || RarerFirst(b, a) { LexTotal(a.address, b.address); }
    forall a: ScrapedWallet, b: ScrapedWallet, c: ScrapedWallet | RarerFirst(a, b) && RarerFirst(b, c) ensures RarerFirst(a, c) {
      if LexLeq(a.address, b.address) && LexLeq(b.address, c.address) { LexTransitive(a.address, b.address, c.address); }
    }
  }

  lemma {:induction false} CountNamed(ws: seq<ScrapedWallet>, a: Address)
    requires DistinctWallets(ws)
    ensures Count(ws, Named(a)) <= 1
  {
    if ws != [] {
      var init, last := ws[..|ws| - 1], ws[|ws| - 1];
      CountNamed(init, a);
      if last.address == a { CountPositive(init, Named(a)); }
    }
  }

  function Named(a: Address): ScrapedWallet -> bool { (w: ScrapedWallet) => w.address == a }

  lemma DistinctPermutation(s: seq<ScrapedWallet>, t: seq<ScrapedWallet>)
    requires multiset(s) == multiset(t) && DistinctWallets(s)
    ensures DistinctWallets(t)
  {
    forall i, j | 0 <= i < j < |t| ensures t[i].address != t[j].address {
      var a := t[j].address;
      CountNamed(s, a);
      CountPermutation(s, t, Named(a));
      CountRemove(t, j, Named(a));
      var rest := t[..j] + t[j + 1..];
      assert rest[i] == t[i] && rest[i] in rest;
      CountPositive(rest, Named(a));
    }
  }

  /** Filters the statistics, whatever order the map yields them in, and sorts. */
  method RankWallets(stats: map<Address, Stats>, min: int, ghost seen: seq<BlockObservation>) returns (ws: seq<ScrapedWallet>)
    requires Tracks(stats, seen)
    ensures Lists(ws, seen, min)
  {
    var kept: seq<ScrapedWallet> := [];
    var todo := stats.Keys;
    while todo != {}
      invariant todo <= stats.Keys && DistinctWallets(kept)
      invariant forall w :: w in kept <==> w.address in stats.Keys - todo && IsKept(seen, min, w)
      decreases |todo|
    {
      var a :| a in todo;
      var s := stats[a];
      assert StatsAt(stats, a) == s;
      todo := todo - {a};
      if s.outbound == 0 || s.inbound > s.outbound { continue; }
      if s.count < min { continue; }
      var w := ScrapedWallet(a, s.count, s.outbound, s.inbound);
      assert forall x :: x in kept + [w] <==> x in kept || x == w;
      kept := kept + [w];
    }
    forall w ensures w in kept <==> IsKept(seen, min, w) {
      assert StatsAt(stats, w.address).outbound == WalletIn(seen, w.address).outbound;
    }
    ws := Sorting.SortBy(kept, RarerFirst);
    RarerFirstOrders(kept);
    Sorting.SortSorts(kept, RarerFirst);
    Sorting.SameElements(kept, ws);
    DistinctPermutation(kept, ws);
  }

  /** There is one such list. */
  lemma ListIsUnique(a: seq<ScrapedWallet>, b: seq<ScrapedWallet>, seen: seq<BlockObservation>, min: int)
    requires Lists(a, seen, min) && Lists(b, seen, min)
    ensures a == b
  {
    assert forall i, j :: 0 <= i < j < |a| ==> a[i].address != a[j].address;
    assert forall i, j :: 0 <= i < j < |b| ==> b[i].address != b[j].address;
    Sorting.DistinctMultiset(a, b);
    forall x, y | x in a && y in a && RarerFirst(x, y) && RarerFirst(y, x) ensures x == y {
      LexAntisymmetric(x.address, y.address);
    }
    Sorting.SortedUnique(a, b, RarerFirst);
  }

  /** The first slot read: the one asked for, or the latest less a displacement inside the look-back. */
  function FirstSlot(o: ScrapeOptions, latest: int, offset: nat): int {
    if o.startSlot != 0 then o.startSlot else if o.blockLookback > 1 then latest - offset % o.blockLookback else latest
  }

  /** Without a slot asked for, the displacements reach exactly the slots of the look-back. */
  lemma FirstSlotMeaning(o: ScrapeOptions, latest: int, slot: int)
    ensures o.startSlot != 0 ==> forall offset: nat :: FirstSlot(o, latest, offset) == o.startSlot
    ensures o.startSlot == 0 ==>
              ((exists offset: nat :: FirstSlot(o, latest, offset) == slot) <==> latest - Max(o.blockLookback, 1) < slot <= latest)
  {
    if o.startSlot == 0 && latest - Max(o.blockLookback, 1) < slot <= latest {
      var offset: nat := latest - slot;
      assert FirstSlot(o, latest, offset) == slot;
    }
  }

  /** What the blocks of a scrape that starts at `start` show. */
  function Scraped(rpc: Rpc, o: ScrapeOptions, start: int): seq<BlockObservation> {
    Harvest(rpc, start, BlocksRead(o, start), o.maxTXPerBlock)
  }

  /** Scrapes recent blocks: one call for the slot if none was given, one per block read, and the wallets returned are the
      rarest of exactly those worth keeping. `offset` is the random displacement of the first slot. */
  method ScrapeRecentWallets(rpc: Rpc, options: ScrapeOptions, offset: nat)
    returns (r: Result<seq<ScrapedWallet>, string>, ghost all: seq<ScrapedWallet>)
    modifies rpc`calls
    ensures old(rpc.calls) <= rpc.calls <= old(rpc.calls) + 1 + BlockCalls(WithScrapeDefaults(options))
    ensures r.Failure? <==> options.startSlot == 0 && rpc.latest.None?
    ensures r.Success? ==>
              var o := WithScrapeDefaults(options);
              var start := FirstSlot(o, if rpc.latest.Some? then rpc.latest.value else 0, offset);
              && rpc.calls == old(rpc.calls) + (if options.startSlot == 0 then 1 else 0) + BlocksRead(o, start)
              && Lists(all, Scraped(rpc, o, start), o.minScrapeCount) && r.value == all[..Min(|all|, o.maxWallets)]
  {
    var o := WithScrapeDefaults(options);
    hide Lists, Tracks, Harvest;
    all := [];
    var startSlot := o.startSlot;
    if startSlot == 0 {
      var latest := rpc.GetSlot();
      if latest.None? { return Failure("get latest slot"), all; }
      startSlot := latest.value;
      if o.blockLookback > 1 { startSlot := startSlot - offset % o.blockLookback; }
    }
    var stats := ReadBlocks(rpc, startSlot, o);
    var ranked := RankWallets(stats, o.minScrapeCount, Scraped(rpc, o, startSlot));
    all := ranked;
    var out: seq<ScrapedWallet> := [];
    for i := 0 to |ranked|
      invariant out == ranked[..i] && i <= Min(|ranked|, o.maxWallets) && (o.maxWallets > 0 ==> i < o.maxWallets || i == 0)
    {
      out := out + [ranked[i]];
      if o.maxWallets > 0 && |out| >= o.maxWallets { return Success(out), all; }
    }
    r := Success(out);
  }
}
