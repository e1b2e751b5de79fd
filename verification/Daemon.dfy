/** The daemon cycle: scrape, source, scan; and what it may cost. */
module Daemon {
  import opened Transfers
  import opened Store
  import opened WalletRunner
  import opened Limiter
  import BlockScrape
  import DustRules
  import Execution
  import Fetch
  import Lookalike
  import RunHistory
  import Source
  import Sourcing
  import Wallets
  import WalletSummary

  const ENHANCED_CREDITS := 100
  const RPC_CREDITS := 1

  /** The limits of the scanner's configuration that bound the daemon's. */
  datatype Limits = Limits(
    maxHeliusRetries: int, maxWalletsPerRun: int, maxTXPagesPerWallet: int, maxTXPerWallet: int, maxConcurrentWallets: int)

  datatype DaemonOptions = DaemonOptions(
    dailyCreditBudget: int, rpcRPS: int, enhancedRPS: int, maxHeliusRetries: int, targetCount: int, runMaxTXPages: int,
    runMaxTXPerWallet: int, runMaxConcurrent: int, maxBlocks: int, blockLookback: int, maxTXPerBlock: int,
    maxScrapedWallets: int, minScrapeCount: int, maxSeedWallets: int, maxCandidates: int, candidateMaxPages: int,
    sourceMaxTXPerWallet: int, maxAcceptedTX: int, scanWindowDays: int, baselineLookbackDays: int, maxSameTimestampTX: int,
    maxTransfersPerTX: int, maxUnknownDustSPL: int, minScanInboundDust: int, minUniqueDustRecipients: int, deepDiveTopN: int,
    deepDiveMaxPages: int, deepDiveMaxTX: int, deepDiveMinScore: int, minOutbound: int, mode: WalletSummary.SourceMode)

  /** The worst case of one cycle, in credits. */
  function EstimateCycleCredits(o: DaemonOptions): int {
    var rpcCalls := 1 + o.maxBlocks;
    var sourceCalls, deepDiveCalls := o.maxCandidates * o.candidateMaxPages, o.deepDiveTopN * o.deepDiveMaxPages;
    var runCalls, attempts := o.targetCount * o.runMaxTXPages * 2, o.maxHeliusRetries + 1;
    rpcCalls * RPC_CREDITS + (sourceCalls + deepDiveCalls + runCalls) * attempts * ENHANCED_CREDITS
  }

  predicate ValidOptions(cfg: Limits, o: DaemonOptions) {
    && o.dailyCreditBudget >= 1 && 1 <= o.rpcRPS <= 10 && 1 <= o.enhancedRPS <= 2
    && 0 <= o.maxHeliusRetries <= cfg.maxHeliusRetries && 1 <= o.targetCount <= cfg.maxWalletsPerRun
    && 1 <= o.runMaxTXPages <= cfg.maxTXPagesPerWallet && 1 <= o.runMaxTXPerWallet <= cfg.maxTXPerWallet
    && 1 <= o.runMaxConcurrent <= cfg.maxConcurrentWallets && o.runMaxConcurrent <= o.targetCount
    && o.maxBlocks >= 1 && o.blockLookback >= 1 && o.maxTXPerBlock >= 1
    && o.maxScrapedWallets >= 1 && o.maxSeedWallets >= 1 && o.maxCandidates >= 1 && o.minScrapeCount >= 0
    && o.candidateMaxPages >= 1 && o.sourceMaxTXPerWallet >= 1 && o.maxAcceptedTX >= 1
    && o.deepDiveTopN >= 0 && o.deepDiveMaxPages >= 1 && o.deepDiveMaxTX >= 1 && o.deepDiveMinScore >= 1
    && o.scanWindowDays >= 1 && o.baselineLookbackDays > o.scanWindowDays && o.minUniqueDustRecipients >= 1
    && EstimateCycleCredits(o) <= o.dailyCreditBudget
  }

  /** Detection settings that the daemon passes through. */
  datatype Detection = Detection(requestDelay: int, recencyDays: int, rule: Lookalike.MatchRule, minInjectionCount: int, thresholds: map<string, nat>)

  function ScrapeOptionsOf(o: DaemonOptions): BlockScrape.ScrapeOptions {
    BlockScrape.ScrapeOptions(0, o.blockLookback, o.maxBlocks, o.maxScrapedWallets, o.maxTXPerBlock, o.minScrapeCount)
  }

  function ScanStart(o: DaemonOptions, now: int): int { now - o.scanWindowDays * 86400 }

  function SourceOptionsOf(o: DaemonOptions, d: Detection, now: int, scraped: map<Address, Source.Scrape>): Source.Options {
    Source.Options(
      scraped, true, false, ScanStart(o, now), now, o.baselineLookbackDays * 86400, d.thresholds, o.targetCount, o.maxSeedWallets, o.maxCandidates,
      0, o.candidateMaxPages, o.sourceMaxTXPerWallet, o.maxHeliusRetries, d.requestDelay, o.minOutbound, o.maxAcceptedTX,
      o.maxSameTimestampTX, o.maxTransfersPerTX, o.maxUnknownDustSPL, o.minScanInboundDust, o.minUniqueDustRecipients,
      o.deepDiveTopN, o.deepDiveMaxPages, o.deepDiveMaxTX, o.deepDiveMinScore, o.mode)
  }

  function RunnerConfigOf(o: DaemonOptions, d: Detection, now: int): RunnerConfig {
    RunnerConfig(ScanStart(o, now), now, o.baselineLookbackDays, o.runMaxTXPages, o.runMaxTXPerWallet, o.maxHeliusRetries,
                 d.requestDelay, d.recencyDays, d.rule, d.minInjectionCount)
  }

  /** The windows of a cycle: sampling and scanning both look at the last scan days, before them at the look-back days. */
  lemma CycleWindows(o: DaemonOptions, d: Detection, now: int, scraped: map<Address, Source.Scrape>, at: int)
    ensures var c, s := RunnerConfigOf(o, d, now), SourceOptionsOf(o, d, now, scraped);
      && (c.scanStart <= at < c.scanEnd <==> 0 < now - at <= o.scanWindowDays * 86400)
      && c.baselineLookbackDays == o.baselineLookbackDays
      && (s.scanStart <= at < s.scanEnd <==> 0 < now - at <= o.scanWindowDays * 86400)
      && (Source.SampleParams(s).start <= at < Source.SampleParams(s).end <==>
            0 < now - at <= o.scanWindowDays * 86400 + o.baselineLookbackDays * 86400)
      && c.recencyDays == d.recencyDays && c.rule == d.rule && c.minInjectionCount == d.minInjectionCount && s.mode == o.mode
      && c.maxTxPages == o.runMaxTXPages && c.maxTx == o.runMaxTXPerWallet && c.maxRetries == o.maxHeliusRetries
  {
  }

  /** The options that scraping and sourcing work with, by name; the daemon gives no seed pages and no first slot. */
  lemma SettingsArePassedOn(o: DaemonOptions, d: Detection, now: int, scraped: map<Address, Source.Scrape>)
    ensures var b := ScrapeOptionsOf(o);
      && b.startSlot == 0 && b.blockLookback == o.blockLookback && b.maxBlocks == o.maxBlocks && b.maxWallets == o.maxScrapedWallets
      && b.maxTXPerBlock == o.maxTXPerBlock && b.minScrapeCount == o.minScrapeCount
    ensures var s := SourceOptionsOf(o, d, now, scraped);
      && s.scoreSeedWallets && !s.discoverNeighbors && s.scrapeStats == scraped && s.thresholds == d.thresholds && s.targetCount == o.targetCount
      && s.maxSeedWallets == o.maxSeedWallets && s.maxCandidates == o.maxCandidates && s.seedMaxPages == 0
      && s.candidateMaxPages == o.candidateMaxPages && s.maxTXPerWallet == o.sourceMaxTXPerWallet && s.maxRetries == o.maxHeliusRetries
      && s.minOutbound == o.minOutbound && s.maxAcceptedTX == o.maxAcceptedTX && s.maxSameTimestampTX == o.maxSameTimestampTX
      && s.maxTransfersPerTX == o.maxTransfersPerTX && s.maxUnknownDustSPL == o.maxUnknownDustSPL
      && s.minScanInboundDust == o.minScanInboundDust && s.minUniqueDustRecipients == o.minUniqueDustRecipients
      && s.deepDiveTopN == o.deepDiveTopN && s.deepDiveMaxPages == o.deepDiveMaxPages && s.deepDiveMaxTX == o.deepDiveMaxTX
      && s.deepDiveMinScore == o.deepDiveMinScore && s.requestDelay == d.requestDelay
  {
  }

  // ---- The arithmetic of the estimate ----

  /** Enhanced requests the sourcing of a cycle may make. */
  function SourceRequests(o: DaemonOptions): int {
    o.maxCandidates * (o.candidateMaxPages * (o.maxHeliusRetries + 1)) + o.deepDiveTopN * (o.deepDiveMaxPages * (o.maxHeliusRetries + 1))
  }

  /** Enhanced requests one wallet run may make. */
  function RunRequests(o: DaemonOptions): int { 2 * (o.runMaxTXPages * (o.maxHeliusRetries + 1)) }

  lemma Regroup(c: int, p: int, t: int, d: int, w: int, r: int, m: int)
    ensures (c * p + t * d + w * r * 2) * m == c * (p * m) + t * (d * m) + w * (2 * (r * m))
  {
    assert (c * p + t * d + w * r * 2) * m == (c * p) * m + (t * d) * m + (w * r * 2) * m;
    assert (w * r * 2) * m == 2 * ((w * r) * m) && w * (2 * (r * m)) == 2 * (w * (r * m));
    Associate(c, p, m);
    Associate(t, d, m);
    Associate(w, r, m);
  }

  lemma Associate(x: int, y: int, z: int)
    ensures (x * y) * z == x * (y * z)
  {
  }

  lemma EstimateIs(o: DaemonOptions)
    ensures EstimateCycleCredits(o) == 1 + o.maxBlocks + 100 * (SourceRequests(o) + o.targetCount * RunRequests(o))
    ensures EstimateCycleCredits(o)
         == 1 + o.maxBlocks + 100 * ((o.maxCandidates * o.candidateMaxPages + o.deepDiveTopN * o.deepDiveMaxPages
                                      + 2 * (o.targetCount * o.runMaxTXPages)) * (o.maxHeliusRetries + 1))
  {
    Regroup(o.maxCandidates, o.candidateMaxPages, o.deepDiveTopN, o.deepDiveMaxPages, o.targetCount, o.runMaxTXPages, o.maxHeliusRetries + 1);
  }

  lemma CostsOf(cfg: Limits, o: DaemonOptions, d: Detection, now: int, scraped: map<Address, Source.Scrape>)
    requires ValidOptions(cfg, o)
    ensures Source.SelectionCost(Source.WithDefaults(SourceOptionsOf(o, d, now, scraped))) == SourceRequests(o)
    ensures Source.WithDefaults(SourceOptionsOf(o, d, now, scraped)).targetCount == o.targetCount
    ensures 2 * PagesCost(RunnerConfigOf(o, d, now)) == RunRequests(o) >= 0
    ensures BlockScrape.BlockCalls(BlockScrape.WithScrapeDefaults(ScrapeOptionsOf(o))) <= o.maxBlocks
  {
    hide EstimateCycleCredits;
    NonNegative(o.runMaxTXPages, o.maxHeliusRetries + 1);
  }

  lemma NonNegative(a: int, b: int)
    requires a >= 0 && b >= 0
    ensures a * b >= 0
  {
  }

  // ---- The cycle ----

  /** What the outside decides during the wallet runs of a cycle: which store calls fail, which wallets are held
      elsewhere, which contexts expire. */
  datatype Weather = Weather(faults: nat -> StoreCall -> bool, locked: nat -> bool, expired: nat -> bool)

  method SeedsOf(scraped: seq<BlockScrape.ScrapedWallet>) returns (seeds: seq<Address>, stats: map<Address, Source.Scrape>)
    ensures |seeds| == |scraped| && forall i :: 0 <= i < |seeds| ==> seeds[i] == scraped[i].address
    ensures forall w :: w in scraped ==> w.address in stats
  {
    seeds, stats := [], map[];
    for i := 0 to |scraped|
      invariant |seeds| == i && forall j :: 0 <= j < i ==> seeds[j] == scraped[j].address
      invariant forall j :: 0 <= j < i ==> scraped[j].address in stats
    {
      var w := scraped[i];
      seeds := seeds + [w.address];
      stats := stats[w.address := Source.Scrape(w.count, w.outbound, w.inbound)];
    }
  }

  method AcceptedLines(accepted: seq<WalletSummary.WalletStats>) returns (lines: seq<string>)
    ensures |lines| == |accepted| && forall i :: 0 <= i < |lines| ==> lines[i] == accepted[i].address
  {
    lines := [];
    for i := 0 to |accepted|
      invariant |lines| == i && forall j :: 0 <= j < i ==> lines[j] == accepted[j].address
    {
      lines := lines + [accepted[i].address];
    }
  }

  lemma OneMore(n: nat, cost: nat)
    ensures n * cost + cost == (n + 1) * cost
  {
  }

  /** The tables went from `before` to `after` by the runs, whose core results come from the provider's histories. */
  ghost predicate Went(client: Fetch.Client, table: seq<DustRules.ThresholdRow>, before: Tables, runs: seq<Execution.WalletRun>, after: Tables) {
    after == RunHistory.ExecuteAll(before, runs) && RunHistory.AllGenuine(client, table, runs)
  }

  lemma WentFurther(client: Fetch.Client, table: seq<DustRules.ThresholdRow>, a: Tables, first: seq<Execution.WalletRun>, b: Tables,
                    second: seq<Execution.WalletRun>, c: Tables)
    requires Went(client, table, a, first, b) && Went(client, table, b, second, c)
    ensures Went(client, table, a, first + second, c)
  {
    hide RunHistory.ExecuteAll, RunHistory.Genuine;
    RunHistory.ExecuteMore(a, first, second);
  }

  /** One wallet's run is one step. */
  lemma OneRun(client: Fetch.Client, table: seq<DustRules.ThresholdRow>, c: RunnerConfig, expired: bool, before: Tables, r: Execution.WalletRun,
               after: Tables, from: nat, to: nat)
    requires if Execution.Opens(r) then Met(client, table, c, expired, r, from, to) else r.core.CoreFailed?
    requires after == Execution.Execute(before, r).tables
    ensures Went(client, table, before, [r], after)
  {
    hide Grounded, FailureExplained, TruncationExplained, RulesAccepted, Execution.Execute;
    RunHistory.ExecuteOneMore(before, [], r);
    assert [] + [r] == [r];
    assert RunHistory.Genuine(client, table, r);
  }

  /** Runs one wallet after `runs`. */
  method RunNext(client: Fetch.Client, store: PostgresStore, table: seq<DustRules.ThresholdRow>, wallet: Address, ingestionRun: nat,
                 c: RunnerConfig, faults: StoreCall -> bool, expired: bool, ghost start: Tables, ghost runs: seq<Execution.WalletRun>)
    returns (ghost r: Execution.WalletRun)
    requires Fetch.NewestFirst(client.History(wallet)) && Went(client, table, start, runs, store.tables)
    modifies client`attempts, store
    ensures Went(client, table, start, runs + [r], store.tables) && r.address == wallet
    ensures old(client.attempts) <= client.attempts <= old(client.attempts) + 2 * PagesCost(c)
  {
    hide PagesCost, Went, Met, Execution.Execute, Execution.Opens, Fetch.NewestFirst;
    ghost var before, from := store.tables, client.attempts;
    var report, ok;
    report, ok, r := RunWallet(client, store, table, wallet, ingestionRun, c, faults, expired);
    OneRun(client, table, c, expired, before, r, store.tables, from, client.attempts);
    WentFurther(client, table, start, runs, before, [r], store.tables);
  }

  /** Runs every wallet that is not held elsewhere. */
  method RunWallets(client: Fetch.Client, store: PostgresStore, table: seq<DustRules.ThresholdRow>, wallets: seq<Address>, ingestionRun: nat,
                    c: RunnerConfig, weather: Weather)
    returns (ghost runs: seq<Execution.WalletRun>)
    requires forall a :: Fetch.NewestFirst(client.History(a))
    modifies client`attempts, store
    ensures Went(client, table, old(store.tables), runs, store.tables)
    ensures Addresses(runs) == Unlocked(wallets, weather.locked, |wallets|)
    ensures old(client.attempts) <= client.attempts <= old(client.attempts) + |wallets| * (2 * PagesCost(c))
  {
    runs := [];
    ghost var start := store.tables;
    Stays(client, table, start);
    hide PagesCost, Went, Fetch.NewestFirst;
    for i := 0 to |wallets|
      invariant Went(client, table, start, runs, store.tables) && Addresses(runs) == Unlocked(wallets, weather.locked, i)
      invariant old(client.attempts) <= client.attempts <= old(client.attempts) + i * (2 * PagesCost(c))
    {
      hide Unlocked, Addresses;
      OneMore(i, 2 * PagesCost(c));
      UnlockedStep(wallets, weather.locked, i);
      if weather.locked(i) { continue; }
      ghost var r := RunNext(client, store, table, wallets[i], ingestionRun, c, weather.faults(i), weather.expired(i), start, runs);
      AddressesStep(runs, r);
      runs := runs + [r];
    }
  }

  ghost function Addresses(runs: seq<Execution.WalletRun>): seq<Address> {
    if runs == [] then [] else Addresses(runs[..|runs| - 1]) + [runs[|runs| - 1].address]
  }

  lemma AddressesStep(runs: seq<Execution.WalletRun>, r: Execution.WalletRun)
    ensures Addresses(runs + [r]) == Addresses(runs) + [r.address]
  {
    assert (runs + [r])[..|runs|] == runs;
  }

  lemma UnlockedStep(wallets: seq<Address>, locked: nat -> bool, n: nat)
    requires n < |wallets|
    ensures Unlocked(wallets, locked, n + 1) == if locked(n) then Unlocked(wallets, locked, n) else Unlocked(wallets, locked, n) + [wallets[n]]
  {
  }

  /** The first `n` wallets but for those held elsewhere. */
  function Unlocked(wallets: seq<Address>, locked: nat -> bool, n: nat): seq<Address>
    requires n <= |wallets|
  {
    if n == 0 then [] else Unlocked(wallets, locked, n - 1) + if locked(n - 1) then [] else [wallets[n - 1]]
  }

  lemma CappedLength(lines: seq<string>, excluded: set<string>, max: int)
    requires max > 0
    ensures |Wallets.Capped(Wallets.Listed(lines, excluded), max)| <= max
  {
  }

  lemma Fewer(n: nat, target: nat, cost: nat)
    requires n <= target
    ensures n * cost <= target * cost
  {
  }

  /** One cycle. It spends nothing unless its estimate was granted, and never more than the estimate. */
  method RunDaemonCycle(rpc: BlockScrape.Rpc, client: Fetch.Client, store: PostgresStore, budget: DailyCreditBudget,
                        table: seq<DustRules.ThresholdRow>, cfg: Limits, o: DaemonOptions, d: Detection, now: int, today: int,
                        offset: nat, ingestionRun: nat, weather: Weather)
    returns (granted: bool, ghost spent: nat, ghost runs: seq<Execution.WalletRun>)
    requires ValidOptions(cfg, o) && budget.Valid() && budget.limit == o.dailyCreditBudget && forall a :: Fetch.NewestFirst(client.History(a))
    modifies rpc`calls, client`attempts, store, budget
    ensures budget.Valid() && EstimateCycleCredits(o) >= 0
    ensures budget.requests == old(budget.requests) + [Request(today, EstimateCycleCredits(o))]
    ensures granted == Decide(budget.limit, LedgerAfter(budget.limit, old(budget.requests)), Request(today, EstimateCycleCredits(o))).0
    ensures old(rpc.calls) <= rpc.calls && old(client.attempts) <= client.attempts
    ensures spent == (rpc.calls - old(rpc.calls)) + 100 * (client.attempts - old(client.attempts))
    ensures spent <= if granted then EstimateCycleCredits(o) else 0
    ensures Went(client, table, old(store.tables), runs, store.tables)
  {
    CostsOf(cfg, o, d, now, map[]);
    EstimateIs(o);
    EstimateCovers(o, cfg);
    ghost var calls0, attempts0 := rpc.calls, client.attempts;
    var estimate := EstimateCycleCredits(o);
    granted := budget.Reserve(estimate, today);
    spent, runs := 0, [];
    if !granted { return; }
    var stage;
    stage, runs := SpendCycle(rpc, client, store, table, cfg, o, d, now, offset, ingestionRun, weather);
    spent := RPC_CREDITS * (rpc.calls - calls0) + ENHANCED_CREDITS * (client.attempts - attempts0);
  }

  lemma EstimateCovers(o: DaemonOptions, cfg: Limits)
    requires ValidOptions(cfg, o)
    ensures EstimateCycleCredits(o) >= 0 && SourceRequests(o) >= 0 && o.targetCount * RunRequests(o) >= 0
  {
    EstimateIs(o);
    NonNegative(o.candidateMaxPages, o.maxHeliusRetries + 1);
    NonNegative(o.deepDiveMaxPages, o.maxHeliusRetries + 1);
    NonNegative(o.runMaxTXPages, o.maxHeliusRetries + 1);
    NonNegative(o.maxCandidates, o.candidateMaxPages * (o.maxHeliusRetries + 1));
    NonNegative(o.deepDiveTopN, o.deepDiveMaxPages * (o.maxHeliusRetries + 1));
    NonNegative(o.targetCount, RunRequests(o));
  }

  /** How far a cycle got. */
  datatype CycleEnd = ScrapeFailed | NothingScraped | SourcingFailed | NothingAccepted | Scanned(wallets: nat)

  /** The part of a cycle that makes requests. */
  method SpendCycle(rpc: BlockScrape.Rpc, client: Fetch.Client, store: PostgresStore, table: seq<DustRules.ThresholdRow>, cfg: Limits,
                    o: DaemonOptions, d: Detection, now: int, offset: nat, ingestionRun: nat, weather: Weather)
    returns (end: CycleEnd, ghost runs: seq<Execution.WalletRun>)
    requires ValidOptions(cfg, o) && forall a :: Fetch.NewestFirst(client.History(a))
    modifies rpc`calls, client`attempts, store
    ensures old(rpc.calls) <= rpc.calls <= old(rpc.calls) + 1 + o.maxBlocks
    ensures old(client.attempts) <= client.attempts <= old(client.attempts) + SourceRequests(o) + o.targetCount * RunRequests(o)
    ensures end.Scanned? ==> 1 <= end.wallets <= o.targetCount
    ensures Went(client, table, old(store.tables), runs, store.tables)
  {
    CostsOf(cfg, o, d, now, map[]);
    EstimateCovers(o, cfg);
    Stays(client, table, store.tables);
    hide ValidOptions, EstimateCycleCredits, SourceRequests, RunRequests, BlockScrape.BlockCalls, BlockScrape.WithScrapeDefaults,
         Source.SelectionCost, Source.WithDefaults, PagesCost, Went;
    runs := [];
    var scraped, _ := BlockScrape.ScrapeRecentWallets(rpc, ScrapeOptionsOf(o), offset);
    if scraped.Failure? { return ScrapeFailed, runs; }
    if |scraped.value| == 0 { return NothingScraped, runs; }
    end, runs := SourceAndScan(client, store, table, cfg, o, d, now, scraped.value, ingestionRun, weather);
  }

  /** The rest of a cycle, once wallets were scraped. */
  method SourceAndScan(client: Fetch.Client, store: PostgresStore, table: seq<DustRules.ThresholdRow>, cfg: Limits, o: DaemonOptions, d: Detection,
                       now: int, scraped: seq<BlockScrape.ScrapedWallet>, ingestionRun: nat, weather: Weather)
    returns (end: CycleEnd, ghost runs: seq<Execution.WalletRun>)
    requires ValidOptions(cfg, o) && forall a :: Fetch.NewestFirst(client.History(a))
    modifies client`attempts, store
    ensures old(client.attempts) <= client.attempts <= old(client.attempts) + SourceRequests(o) + o.targetCount * RunRequests(o)
    ensures end.Scanned? ==> 1 <= end.wallets <= o.targetCount
    ensures Went(client, table, old(store.tables), runs, store.tables)
  {
    runs := [];
    Stays(client, table, store.tables);
    EstimateCovers(o, cfg);
    hide ValidOptions, EstimateCycleCredits, SourceRequests, RunRequests, Source.SelectionCost, Source.WithDefaults, PagesCost, Went;
    var seeds, stats := SeedsOf(scraped);
    CostsOf(cfg, o, d, now, stats);
    var sourced, _, _ := Sourcing.SourceDiscovered(client, seeds, SourceOptionsOf(o, d, now, stats));
    if sourced.Failure? { return SourcingFailed, runs; }
    if |sourced.value.accepted| == 0 { return NothingAccepted, runs; }
    var lines := AcceptedLines(sourced.value.accepted);
    var wallets := Wallets.LoadAddressesExcluding(lines, [], o.targetCount);
    TargetIsPositive(cfg, o);
    CappedLength(lines, (set a | a in Wallets.Listed([], {})), o.targetCount);
    if |wallets| == 0 { return NothingAccepted, runs; }
    Fewer(|wallets|, o.targetCount, 2 * PagesCost(RunnerConfigOf(o, d, now)));
    runs := RunWallets(client, store, table, wallets, ingestionRun, RunnerConfigOf(o, d, now), weather);
    end := Scanned(|wallets|);
  }

  lemma Stays(client: Fetch.Client, table: seq<DustRules.ThresholdRow>, t: Tables)
    ensures Went(client, table, t, [], t)
  {
  }

  lemma TargetIsPositive(cfg: Limits, o: DaemonOptions)
    requires ValidOptions(cfg, o)
    ensures o.targetCount > 0
  {
  }

  // ---- Many cycles ----

  /** Credits spent by the cycles of one day. */
  function SpentOn(days: seq<int>, spent: seq<nat>, day: int): nat
    requires |days| == |spent|
  {
    if days == [] then 0
    else SpentOn(days[..|days| - 1], spent[..|spent| - 1], day) + if days[|days| - 1] == day then spent[|spent| - 1] else 0
  }

  /** One more cycle spends no more than the budget granted it. */
  lemma SpendingStep(limit: int, requests: seq<Request>, r: Request, days: seq<int>, spent: seq<nat>, cost: nat, day: int)
    requires |days| == |spent| && SpentOn(days, spent, day) <= GrantedOn(limit, requests, day)
    requires cost <= if Decide(limit, LedgerAfter(limit, requests), r).0 then r.credits else 0
    ensures SpentOn(days + [r.day], spent + [cost], day) <= GrantedOn(limit, requests + [r], day)
  {
    assert (days + [r.day])[..|days|] == days && (spent + [cost])[..|spent|] == spent && (requests + [r])[..|requests|] == requests;
  }

  /** No day has seen more spending than was granted on it. */
  ghost predicate BooksKept(limit: int, requests: seq<Request>, days: seq<int>, spent: seq<nat>) {
    DaysOf(requests) == days && |spent| == |days| && forall day :: SpentOn(days, spent, day) <= GrantedOn(limit, requests, day)
  }

  lemma BooksStep(limit: int, requests: seq<Request>, r: Request, days: seq<int>, spent: seq<nat>, cost: nat)
    requires BooksKept(limit, requests, days, spent)
    requires cost <= if Decide(limit, LedgerAfter(limit, requests), r).0 then r.credits else 0
    ensures BooksKept(limit, requests + [r], days + [r.day], spent + [cost])
    ensures SpentInAll(spent + [cost]) == SpentInAll(spent) + cost
  {
    assert (spent + [cost])[..|spent|] == spent;
    forall day ensures SpentOn(days + [r.day], spent + [cost], day) <= GrantedOn(limit, requests + [r], day) {
      SpendingStep(limit, requests, r, days, spent, cost, day);
    }
  }

  lemma BooksWithinLimit(limit: nat, requests: seq<Request>, days: seq<int>, spent: seq<nat>)
    requires BooksKept(limit, requests, days, spent) && DaysDoNotReturn(days)
    ensures forall day :: SpentOn(days, spent, day) <= limit
  {
    forall day ensures SpentOn(days, spent, day) <= limit { BudgetHolds(limit, requests, day); }
  }

  lemma NoBooks(limit: int)
    ensures BooksKept(limit, [], [], [])
  {
  }

  /** The daemon loop over the days its cycles start on. While the clock's days do not return, the cycles of one day
      together spend at most the daily budget. */
  method RunDaemon(rpc: BlockScrape.Rpc, client: Fetch.Client, store: PostgresStore, table: seq<DustRules.ThresholdRow>, cfg: Limits,
                   o: DaemonOptions, d: Detection, nows: seq<int>, days: seq<int>, offset: nat, ingestionRun: nat, weather: nat -> Weather)
    returns (ghost spent: seq<nat>, ghost runs: seq<Execution.WalletRun>)
    requires ValidOptions(cfg, o) && |nows| == |days| && forall a :: Fetch.NewestFirst(client.History(a))
    modifies rpc`calls, client`attempts, store
    ensures |spent| == |days|
    ensures DaysDoNotReturn(days) ==> forall day :: SpentOn(days, spent, day) <= o.dailyCreditBudget
    ensures old(rpc.calls) <= rpc.calls && old(client.attempts) <= client.attempts
    ensures SpentInAll(spent) == (rpc.calls - old(rpc.calls)) + 100 * (client.attempts - old(client.attempts))
    ensures Went(client, table, old(store.tables), runs, store.tables)
    ensures old(store.tables) == EMPTY ==> forall w, c :: RunHistory.CountsLinks(store.tables, runs, w, c)
  {
    BudgetIsPositive(cfg, o);
    ghost var start := store.tables;
    assert Went(client, table, start, [], start);
    hide Went, ValidOptions, EstimateCycleCredits, Decide, LedgerAfter, BooksKept, SpentOn, DaysDoNotReturn;
    var budget := new DailyCreditBudget(o.dailyCreditBudget);
    spent, runs := [], [];
    NoBooks(o.dailyCreditBudget);
    for i := 0 to |days|
      invariant budget.Valid() && budget.limit == o.dailyCreditBudget && fresh(budget)
      invariant |spent| == i && BooksKept(o.dailyCreditBudget, budget.requests, days[..i], spent)
      invariant old(rpc.calls) <= rpc.calls && old(client.attempts) <= client.attempts && Went(client, table, start, runs, store.tables)
      invariant SpentInAll(spent) == RPC_CREDITS * (rpc.calls - old(rpc.calls)) + ENHANCED_CREDITS * (client.attempts - old(client.attempts))
    {
      ghost var requests := budget.requests;
      ghost var before := store.tables;
      var granted, cost, more := RunDaemonCycle(rpc, client, store, budget, table, cfg, o, d, nows[i], days[i], offset, ingestionRun, weather(i));
      assert days[..i + 1] == days[..i] + [days[i]];
      BooksStep(o.dailyCreditBudget, requests, Request(days[i], EstimateCycleCredits(o)), days[..i], spent, cost);
      WentFurther(client, table, start, runs, before, more, store.tables);
      spent, runs := spent + [cost], runs + more;
    }
    assert days[..|days|] == days;
    if DaysDoNotReturn(days) { BooksWithinLimit(o.dailyCreditBudget, budget.requests, days, spent); }
    if start == EMPTY { FromEmpty(client, table, runs, store.tables); }
  }

  lemma FromEmpty(client: Fetch.Client, table: seq<DustRules.ThresholdRow>, runs: seq<Execution.WalletRun>, t: Tables)
    requires Went(client, table, EMPTY, runs, t)
    ensures forall w, c :: RunHistory.CountsLinks(t, runs, w, c)
  {
    hide RunHistory.CountsLinks, RunHistory.AllGenuine, RunHistory.ExecuteAll;
    RunHistory.GenuineRunsCountLinks(client, table, runs, t);
  }

  lemma BudgetIsPositive(cfg: Limits, o: DaemonOptions)
    requires ValidOptions(cfg, o)
    ensures o.dailyCreditBudget >= 1
  {
  }

  function SpentInAll(spent: seq<nat>): nat {
    if spent == [] then 0 else SpentInAll(spent[..|spent| - 1]) + spent[|spent| - 1]
  }
}
