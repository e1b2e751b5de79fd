/** Choosing wallets to scan: sampling, deep dives, and the best `targetCount` of those that qualify. */
module Source {
  import opened Arithmetic
  import opened Text
  import opened Wrappers
  import opened Counting
  import opened Transfers
  import opened Fetch
  import opened WalletSummary
  import Sorting

  datatype Scrape = Scrape(count: int, outbound: int, inbound: int)

  datatype Options = Options(
    scrapeStats: map<Address, Scrape>, scoreSeedWallets: bool, discoverNeighbors: bool, scanStart: int, scanEnd: int,
    baselineLookback: int, thresholds: map<string, nat>, targetCount: int, maxSeedWallets: int, maxCandidates: int,
    seedMaxPages: int, candidateMaxPages: int, maxTXPerWallet: int, maxRetries: int,
    requestDelay: int, minOutbound: int, maxAcceptedTX: int, maxSameTimestampTX: int, maxTransfersPerTX: int,
    maxUnknownDustSPL: int, minScanInboundDust: int, minUniqueDustRecipients: int, deepDiveTopN: int, deepDiveMaxPages: int,
    deepDiveMaxTX: int, deepDiveMinScore: int, mode: SourceMode)

  function OrElse(x: int, d: int): int { if x <= 0 then d else x }

  function WithDefaults(o: Options): Options {
    var pages, maxTx := OrElse(o.candidateMaxPages, 5), OrElse(o.maxTXPerWallet, 400);
    o.(discoverNeighbors := o.discoverNeighbors || !o.scoreSeedWallets, seedMaxPages := OrElse(o.seedMaxPages, 3),
       targetCount := OrElse(o.targetCount, 30), maxSeedWallets := OrElse(o.maxSeedWallets, 10),
       maxCandidates := OrElse(o.maxCandidates, 100), candidateMaxPages := pages, maxTXPerWallet := maxTx,
       minOutbound := OrElse(o.minOutbound, 1), minUniqueDustRecipients := OrElse(o.minUniqueDustRecipients, 10),
       maxAcceptedTX := OrElse(o.maxAcceptedTX, maxTx), maxSameTimestampTX := OrElse(o.maxSameTimestampTX, 5),
       maxTransfersPerTX := OrElse(o.maxTransfersPerTX, 4), deepDiveTopN := Max(o.deepDiveTopN, 0),
       deepDiveMaxPages := OrElse(o.deepDiveMaxPages, pages + 2), deepDiveMaxTX := OrElse(o.deepDiveMaxTX, maxTx + 200),
       deepDiveMinScore := OrElse(o.deepDiveMinScore, 40))
  }

  /** Options as `WithDefaults` leaves them. */
  predicate Defaulted(o: Options) {
    && o.targetCount >= 1 && o.maxCandidates >= 1 && o.maxSeedWallets >= 1 && o.seedMaxPages >= 1 && o.candidateMaxPages >= 1 && o.maxTXPerWallet >= 1
    && o.deepDiveTopN >= 0 && o.deepDiveMaxPages >= 1 && o.deepDiveMaxTX >= 1
  }

  /** A wallet to sample, and the number of seeds that led to it. */
  datatype Discovery = Discovery(address: Address, seeds: nat)

  datatype Reason =
    | FetchError | DeepDiveFetchError | ActivityCapReached(code: TruncationCode) | RetriesExhausted | NoSampleTransactions
    | TooManySampleTransactions | InsufficientOutbound | BurstyActivity | BatchActivity | UnknownDustActivity
    | InsufficientDustActivity | InsufficientDustRecipients | TargetCountReached

  datatype DeepDiveStatus = NotQueued | QueuedTopNSkip | RetriedCapHit | RetriedOtherReject

  datatype RejectedWallet = RejectedWallet(stats: WalletStats, reason: Reason, deepDive: DeepDiveStatus)

  datatype DeepDive = DeepDive(discovery: Discovery, stats: WalletStats, code: TruncationCode)

  datatype SourceResult = SourceResult(accepted: seq<WalletStats>, rejected: seq<RejectedWallet>)

  function StatsRejectReason(s: WalletStats, o: Options): Option<Reason> {
    if s.sampleTransactions == 0 then Some(NoSampleTransactions)
    else if s.sampleTransactions > o.maxAcceptedTX then Some(TooManySampleTransactions)
    else if s.outboundTransfers < o.minOutbound then Some(InsufficientOutbound)
    else if s.maxSameTimestampTX > o.maxSameTimestampTX then Some(BurstyActivity)
    else if s.maxTransfersPerTX > o.maxTransfersPerTX then Some(BatchActivity)
    else if s.unknownDustSPL > o.maxUnknownDustSPL then Some(UnknownDustActivity)
    else if s.scanInboundDustTransfers < o.minScanInboundDust then Some(InsufficientDustActivity)
    else if o.mode == AttackerOutboundDust && s.uniqueDustRecipients < o.minUniqueDustRecipients then Some(InsufficientDustRecipients)
    else None
  }

  /** A profile is accepted exactly when it meets every condition; otherwise the reason names the first that it misses. */
  lemma RejectReasonMeaning(s: WalletStats, o: Options)
    ensures StatsRejectReason(s, o).None? <==>
      && 1 <= s.sampleTransactions <= o.maxAcceptedTX && s.outboundTransfers >= o.minOutbound
      && s.maxSameTimestampTX <= o.maxSameTimestampTX && s.maxTransfersPerTX <= o.maxTransfersPerTX
      && s.unknownDustSPL <= o.maxUnknownDustSPL && s.scanInboundDustTransfers >= o.minScanInboundDust
      && (o.mode == AttackerOutboundDust ==> s.uniqueDustRecipients >= o.minUniqueDustRecipients)
    ensures StatsRejectReason(s, o).Some? ==>
      match StatsRejectReason(s, o).value
      case NoSampleTransactions => s.sampleTransactions == 0
      case TooManySampleTransactions => s.sampleTransactions >= 1 && s.sampleTransactions > o.maxAcceptedTX
      case InsufficientOutbound => 1 <= s.sampleTransactions <= o.maxAcceptedTX && s.outboundTransfers < o.minOutbound
      case BurstyActivity => s.outboundTransfers >= o.minOutbound && s.maxSameTimestampTX > o.maxSameTimestampTX
      case BatchActivity => s.maxSameTimestampTX <= o.maxSameTimestampTX && s.maxTransfersPerTX > o.maxTransfersPerTX
      case UnknownDustActivity => s.maxTransfersPerTX <= o.maxTransfersPerTX && s.unknownDustSPL > o.maxUnknownDustSPL
      case InsufficientDustActivity => s.unknownDustSPL <= o.maxUnknownDustSPL && s.scanInboundDustTransfers < o.minScanInboundDust
      case InsufficientDustRecipients =>
        s.scanInboundDustTransfers >= o.minScanInboundDust && o.mode == AttackerOutboundDust && s.uniqueDustRecipients < o.minUniqueDustRecipients
      case _ => false
  {
  }

  function ShouldDeepDive(s: WalletStats, code: TruncationCode, o: Options): bool {
    && o.deepDiveTopN > 0 && (code == MaxPagesReached || code == MaxTxReached)
    && s.scanInboundDustTransfers >= o.minScanInboundDust
    && (o.mode == AttackerOutboundDust || s.sourceScore >= o.deepDiveMinScore)
  }

  /** A capped wallet is worth a deeper sample unless it shows too little dust or, as a victim, scores too low. */
  lemma DeepDiveMeaning(s: WalletStats, code: TruncationCode, o: Options)
    ensures !ShouldDeepDive(s, code, o) <==>
      || o.deepDiveTopN <= 0 || code == HeliusRetryExhausted || s.scanInboundDustTransfers < o.minScanInboundDust
      || (o.mode == VictimInboundDust && s.sourceScore < o.deepDiveMinScore)
  {
  }

  /** An option that is set stays; what is not set gets its default. */
  lemma DefaultsMeaning(o: Options)
    ensures var d := WithDefaults(o);
      && d == o.(discoverNeighbors := d.discoverNeighbors, seedMaxPages := d.seedMaxPages, targetCount := d.targetCount,
                 maxSeedWallets := d.maxSeedWallets, maxCandidates := d.maxCandidates, candidateMaxPages := d.candidateMaxPages,
                 maxTXPerWallet := d.maxTXPerWallet, minOutbound := d.minOutbound, minUniqueDustRecipients := d.minUniqueDustRecipients,
                 maxAcceptedTX := d.maxAcceptedTX, maxSameTimestampTX := d.maxSameTimestampTX, maxTransfersPerTX := d.maxTransfersPerTX,
                 deepDiveTopN := d.deepDiveTopN, deepDiveMaxPages := d.deepDiveMaxPages, deepDiveMaxTX := d.deepDiveMaxTX,
                 deepDiveMinScore := d.deepDiveMinScore)
      && (o.discoverNeighbors ==> d.discoverNeighbors) && (!o.scoreSeedWallets && !o.discoverNeighbors ==> d.discoverNeighbors)
      && (o.scoreSeedWallets && !o.discoverNeighbors ==> !d.discoverNeighbors)
      && Set(o.seedMaxPages, d.seedMaxPages, 3) && Set(o.targetCount, d.targetCount, 30) && Set(o.maxSeedWallets, d.maxSeedWallets, 10)
      && Set(o.maxCandidates, d.maxCandidates, 100) && Set(o.candidateMaxPages, d.candidateMaxPages, 5) && Set(o.maxTXPerWallet, d.maxTXPerWallet, 400)
      && Set(o.minOutbound, d.minOutbound, 1) && Set(o.minUniqueDustRecipients, d.minUniqueDustRecipients, 10)
      && Set(o.maxAcceptedTX, d.maxAcceptedTX, d.maxTXPerWallet) && Set(o.maxSameTimestampTX, d.maxSameTimestampTX, 5)
      && Set(o.maxTransfersPerTX, d.maxTransfersPerTX, 4) && Set(o.deepDiveTopN, d.deepDiveTopN, 0)
      && Set(o.deepDiveMaxPages, d.deepDiveMaxPages, d.candidateMaxPages + 2) && Set(o.deepDiveMaxTX, d.deepDiveMaxTX, d.maxTXPerWallet + 200)
      && Set(o.deepDiveMinScore, d.deepDiveMinScore, 40)
  {
  }

  /** `used` is the option if that is positive, and the default otherwise. */
  predicate Set(option: int, used: int, standard: int) { (option > 0 ==> used == option) && (option <= 0 ==> used == standard) }

  // ---- Profiles ----

  function WindowStart(o: Options): int { o.scanStart - o.baselineLookback }

  function ViewOf(a: Address, o: Options): View { View(a, o.scanStart, o.thresholds, o.mode) }

  /** Adds what was known before sampling, and scores. */
  function InContext(s: WalletStats, c: Discovery, o: Options): WalletStats {
    var scrape := if c.address in o.scrapeStats then o.scrapeStats[c.address] else Scrape(0, 0, 0);
    Scored(s.(scrapeCount := scrape.count, scrapeOutbound := scrape.outbound, scrapeInbound := scrape.inbound, discoveredFromSeeds := c.seeds))
  }

  /** The profile of a wallet over its whole window. */
  ghost function TrueStats(h: seq<EnhancedTransaction>, c: Discovery, o: Options): WalletStats {
    InContext(Summary(ViewOf(c.address, o), Window(h, WindowStart(o), o.scanEnd)), c, o)
  }

  /** The wallet qualifies on its whole window. */
  ghost predicate Qualified(h: seq<EnhancedTransaction>, c: Discovery, o: Options, s: WalletStats) {
    s == TrueStats(h, c, o) && StatsRejectReason(s, o).None?
  }

  predicate JudgesProfile(r: Reason) {
    !(r.FetchError? || r.DeepDiveFetchError? || r.ActivityCapReached? || r.RetriesExhausted? || r.TargetCountReached?)
  }

  method ContextualStats(c: Discovery, txs: seq<EnhancedTransaction>, o: Options) returns (s: WalletStats)
    ensures s == InContext(Summary(ViewOf(c.address, o), txs), c, o)
  {
    hide Summary;
    s := SummarizeWallet(ViewOf(c.address, o), txs);
    assert s.address == c.address && s.scrapeCount == 0 && s.scrapeOutbound == 0 && s.scrapeInbound == 0 by { SummaryHead(ViewOf(c.address, o), txs); }
    if c.address in o.scrapeStats {
      var scrape := o.scrapeStats[c.address];
      s := s.(scrapeCount := scrape.count, scrapeOutbound := scrape.outbound, scrapeInbound := scrape.inbound);
    }
    s := s.(discoveredFromSeeds := c.seeds);
    s := s.(sourceScore := SourceScore(s));
  }

  lemma SummaryHead(v: View, txs: seq<EnhancedTransaction>)
    ensures var s := Summary(v, txs); s.address == v.address && s.scrapeCount == 0 && s.scrapeOutbound == 0 && s.scrapeInbound == 0
  {
  }

  /** Both samples reach from the look-back before the scan window to its end, and go as deep as the options say. */
  lemma SamplesMeaning(o: Options, at: int)
    ensures SampleParams(o).start <= at < SampleParams(o).end <==> o.scanStart - at <= o.baselineLookback && at < o.scanEnd
    ensures DeepDiveParams(o).start <= at < DeepDiveParams(o).end <==> o.scanStart - at <= o.baselineLookback && at < o.scanEnd
    ensures SampleParams(o).maxPages == o.candidateMaxPages && SampleParams(o).maxTx == o.maxTXPerWallet
    ensures DeepDiveParams(o).maxPages == o.deepDiveMaxPages && DeepDiveParams(o).maxTx == o.deepDiveMaxTX
    ensures SampleParams(o).maxRetries == DeepDiveParams(o).maxRetries == o.maxRetries
    ensures SampleParams(o).requestDelay == DeepDiveParams(o).requestDelay == o.requestDelay
  {
  }

  /** The profile carries what scraping and discovery knew; only a scraped wallet has scrape figures. */
  lemma ContextMeaning(s: WalletStats, c: Discovery, o: Options)
    ensures var t := InContext(s, c, o);
      && t.discoveredFromSeeds == c.seeds && t.address == s.address
      && (c.address in o.scrapeStats ==> Scrape(t.scrapeCount, t.scrapeOutbound, t.scrapeInbound) == o.scrapeStats[c.address])
      && (c.address !in o.scrapeStats ==> t.scrapeCount == t.scrapeOutbound == t.scrapeInbound == 0)
      && t.sourceScore == SourceScore(s.(discoveredFromSeeds := c.seeds))
      && s == t.(scrapeCount := s.scrapeCount, scrapeOutbound := s.scrapeOutbound, scrapeInbound := s.scrapeInbound,
                 discoveredFromSeeds := s.discoveredFromSeeds, sourceScore := s.sourceScore)
  {
  }

  function SampleParams(o: Options): FetchWindowParams {
    FetchWindowParams(WindowStart(o), o.scanEnd, o.candidateMaxPages, o.maxTXPerWallet, o.maxRetries, o.requestDelay)
  }

  function DeepDiveParams(o: Options): FetchWindowParams {
    FetchWindowParams(WindowStart(o), o.scanEnd, o.deepDiveMaxPages, o.deepDiveMaxTX, o.maxRetries, o.requestDelay)
  }

  /** Page requests one fetch may cost. */
  function FetchCost(p: FetchWindowParams): nat { Max(p.maxPages, 0) * (Max(p.maxRetries, 0) + 1) }

  /** Rejections made before a profile exists carry only what scraping knew. */
  function Unprofiled(c: Discovery, o: Options): WalletStats {
    InContext(WalletStats(c.address, 0, 0, 0, 0, 0, 0, 0, 0, 0, 0, 0, 0, 0, 0, 0, 0, 0), c, o).(sourceScore := 0)
  }

  /** Such a rejection has no figures of a sample. */
  lemma UnprofiledMeaning(c: Discovery, o: Options)
    ensures var s := Unprofiled(c, o);
      && s.address == c.address && s.discoveredFromSeeds == c.seeds && s.sourceScore == 0
      && s.sampleTransactions == s.outboundTransfers == s.inboundTransfers == s.uniqueCounterparties == s.legitOutboundCounterparties == 0
      && s.scanInboundDustTransfers == s.uniqueDustRecipients == s.repeatedInboundDustCounterparts == s.lookalikeInboundDustMatches == 0
      && s.maxSameTimestampTX == s.maxTransfersPerTX == s.unknownDustSPL == 0
      && Scrape(s.scrapeCount, s.scrapeOutbound, s.scrapeInbound) == if c.address in o.scrapeStats then o.scrapeStats[c.address] else Scrape(0, 0, 0)
  {
  }

  // ---- Why a wallet is rejected ----

  /** `s` profiles a truncated sample of wallet `c`, and the truncation is explained by the attempts `(from, to]`. */
  ghost predicate Sampled(client: Client, c: Discovery, o: Options, p: FetchWindowParams, s: WalletStats, code: TruncationCode, from: nat, to: nat) {
    && Explained(client, client.History(c.address), p, code, from, to)
    && exists txs :: txs <= Window(client.History(c.address), p.start, p.end) && s == InContext(Summary(ViewOf(c.address, o), txs), c, o)
  }

  /** The wallet was capped when sampled and looks worth a deeper sample. */
  ghost predicate Capped(client: Client, d: DeepDive, o: Options, from: nat, to: nat) {
    && d.stats.address == d.discovery.address && ShouldDeepDive(d.stats, d.code, o)
    && Sampled(client, d.discovery, o, SampleParams(o), d.stats, d.code, from, to)
  }

  /** The wallet was queued with the profile `s`. */
  ghost predicate WasDeferred(client: Client, c: Discovery, o: Options, s: WalletStats, from: nat, to: nat) {
    exists code :: Capped(client, DeepDive(c, s, code), o, from, to)
  }

  ghost predicate WasQueued(client: Client, c: Discovery, o: Options, from: nat, to: nat) {
    exists s, code :: Capped(client, DeepDive(c, s, code), o, from, to)
  }

  ghost predicate FetchFailed(client: Client, p: FetchWindowParams, from: nat, to: nat) {
    exists e :: ErrorExplained(client, p, e, from, to)
  }

  /** The rejection of a wallet that was not queued for a deep dive. */
  ghost predicate JustifiedAtOnce(client: Client, c: Discovery, o: Options, r: RejectedWallet, from: nat, to: nat) {
    match r.reason
    case FetchError => r.stats == Unprofiled(c, o) && FetchFailed(client, SampleParams(o), from, to)
    case ActivityCapReached(code) => Sampled(client, c, o, SampleParams(o), r.stats, code, from, to) && !ShouldDeepDive(r.stats, code, o)
    case TargetCountReached => Qualified(client.History(c.address), c, o, r.stats)
    case _ => JudgesProfile(r.reason) && r.stats == TrueStats(client.History(c.address), c, o) && StatsRejectReason(r.stats, o) == Some(r.reason)
  }

  /** The rejection of a wallet that was queued and then skipped. */
  ghost predicate JustifiedSkip(client: Client, c: Discovery, o: Options, r: RejectedWallet, from: nat, to: nat) {
    match r.reason
    case ActivityCapReached(code) => Capped(client, DeepDive(c, r.stats, code), o, from, to)
    case TargetCountReached => WasDeferred(client, c, o, r.stats, from, to)
    case _ => false
  }

  /** The rejection of a wallet that was queued and sampled again. */
  ghost predicate JustifiedRetry(client: Client, c: Discovery, o: Options, r: RejectedWallet, from: nat, to: nat) {
    match r.reason
    case ActivityCapReached(code) => r.deepDive == RetriedCapHit && Sampled(client, c, o, DeepDiveParams(o), r.stats, code, from, to)
    case DeepDiveFetchError => r.deepDive == RetriedOtherReject && FetchFailed(client, DeepDiveParams(o), from, to) && WasDeferred(client, c, o, r.stats, from, to)
    case _ => r.deepDive == RetriedOtherReject && JudgesProfile(r.reason)
              && r.stats == TrueStats(client.History(c.address), c, o) && StatsRejectReason(r.stats, o) == Some(r.reason)
  }

  /** A rejection names a reason that holds of wallet `c`: its profile over the whole window, what the provider did to a
      fetch that made attempts in `(from, to]`, or the target count. */
  ghost predicate Justified(client: Client, c: Discovery, o: Options, r: RejectedWallet, from: nat, to: nat) {
    && r.stats.address == c.address
    && match r.deepDive
       case NotQueued => JustifiedAtOnce(client, c, o, r, from, to)
       case QueuedTopNSkip => JustifiedSkip(client, c, o, r, from, to)
       case _ => WasQueued(client, c, o, from, to) && JustifiedRetry(client, c, o, r, from, to)
  }

  lemma SampledWidens(client: Client, c: Discovery, o: Options, p: FetchWindowParams, s: WalletStats, code: TruncationCode, from: nat, to: nat, to': nat)
    requires Sampled(client, c, o, p, s, code, from, to) && to <= to'
    ensures Sampled(client, c, o, p, s, code, from, to')
  {
    hide Explained, Summary, Window;
    ExplanationsWiden(client, client.History(c.address), p, from, to, from, to');
  }

  lemma CappedWidens(client: Client, d: DeepDive, o: Options, from: nat, to: nat, to': nat)
    requires Capped(client, d, o, from, to) && to <= to'
    ensures Capped(client, d, o, from, to')
  {
    hide Sampled;
    SampledWidens(client, d.discovery, o, SampleParams(o), d.stats, d.code, from, to, to');
  }

  lemma QueuedWidens(client: Client, c: Discovery, o: Options, from: nat, to: nat, to': nat)
    requires WasQueued(client, c, o, from, to) && to <= to'
    ensures WasQueued(client, c, o, from, to')
  {
    hide Capped;
    var s, code :| Capped(client, DeepDive(c, s, code), o, from, to);
    CappedWidens(client, DeepDive(c, s, code), o, from, to, to');
  }

  lemma DeferredWidens(client: Client, c: Discovery, o: Options, s: WalletStats, from: nat, to: nat, to': nat)
    requires WasDeferred(client, c, o, s, from, to) && to <= to'
    ensures WasDeferred(client, c, o, s, from, to')
  {
    hide Capped;
    var code :| Capped(client, DeepDive(c, s, code), o, from, to);
    CappedWidens(client, DeepDive(c, s, code), o, from, to, to');
  }

  lemma FetchFailedWidens(client: Client, p: FetchWindowParams, from: nat, to: nat, to': nat)
    requires FetchFailed(client, p, from, to) && to <= to'
    ensures FetchFailed(client, p, from, to')
  {
    ExplanationsWiden(client, [], p, from, to, from, to');
    hide ErrorExplained;
  }

  /** Later attempts leave a rejection justified. */
  lemma JustifiedWidens(client: Client, c: Discovery, o: Options, r: RejectedWallet, from: nat, to: nat, to': nat)
    requires Justified(client, c, o, r, from, to) && to <= to'
    ensures Justified(client, c, o, r, from, to')
  {
    hide Sampled, Capped, FetchFailed, Qualified, TrueStats, StatsRejectReason;
    match r.deepDive
    case NotQueued =>
      if r.reason.FetchError? { FetchFailedWidens(client, SampleParams(o), from, to, to'); }
      if r.reason.ActivityCapReached? { SampledWidens(client, c, o, SampleParams(o), r.stats, r.reason.code, from, to, to'); }
    case QueuedTopNSkip =>
      if r.reason.ActivityCapReached? { CappedWidens(client, DeepDive(c, r.stats, r.reason.code), o, from, to, to'); }
      if r.reason.TargetCountReached? { DeferredWidens(client, c, o, r.stats, from, to, to'); }
    case RetriedCapHit =>
      QueuedWidens(client, c, o, from, to, to');
      SampledWidens(client, c, o, DeepDiveParams(o), r.stats, r.reason.code, from, to, to');
    case RetriedOtherReject =>
      QueuedWidens(client, c, o, from, to, to');
      if r.reason.DeepDiveFetchError? {
        FetchFailedWidens(client, DeepDiveParams(o), from, to, to');
        DeferredWidens(client, c, o, r.stats, from, to, to');
      }
  }

  // ---- Sampling ----

  datatype Verdict = Qualifies(stats: WalletStats) | Defers(dive: DeepDive) | Refuses(rejected: RejectedWallet)

  ghost predicate Sound(client: Client, c: Discovery, o: Options, v: Verdict, from: nat, to: nat) {
    match v
    case Qualifies(s) => Qualified(client.History(c.address), c, o, s)
    case Defers(d) => d.discovery == c && Capped(client, d, o, from, to)
    case Refuses(r) => Justified(client, c, o, r, from, to)
  }

  /** Rejections of the first sampling. */
  predicate Early(r: RejectedWallet) { r.deepDive == NotQueued && r.reason != TargetCountReached }

  /** Samples one candidate. */
  method Assess(client: Client, c: Discovery, o: Options, ghost from: nat) returns (v: Verdict)
    requires NewestFirst(client.History(c.address)) && Defaulted(o) && from <= client.attempts
    modifies client`attempts
    ensures Sound(client, c, o, v, from, client.attempts)
    ensures v.Refuses? ==> Early(v.rejected)
    ensures old(client.attempts) <= client.attempts <= old(client.attempts) + FetchCost(SampleParams(o))
  {
    hide Summary, StatsRejectReason, Window, Explained, ErrorExplained, ShouldDeepDive;
    var page, err := FetchEnhancedWindow(client, c.address, SampleParams(o));
    ExplanationsWiden(client, client.History(c.address), SampleParams(o), old(client.attempts), client.attempts, from, client.attempts);
    if err.Some? {
      assert ErrorExplained(client, SampleParams(o), err.value, from, client.attempts);
      return Refuses(RejectedWallet(Unprofiled(c, o), FetchError, NotQueued));
    }
    var stats := ContextualStats(c, page.transactions, o);
    SummaryHead(ViewOf(c.address, o), page.transactions);
    if page.partial {
      assert Sampled(client, c, o, SampleParams(o), stats, page.code.value, from, client.attempts);
      if ShouldDeepDive(stats, page.code.value, o) { return Defers(DeepDive(c, stats, page.code.value)); }
      return Refuses(RejectedWallet(stats, ActivityCapReached(page.code.value), NotQueued));
    }
    if page.retryExhausted {
      assert false;
      return Refuses(RejectedWallet(stats, RetriesExhausted, NotQueued));
    }
    var reason := StatsRejectReason(stats, o);
    if reason.Some? {
      ProfileReasons(stats, o);
      return Refuses(RejectedWallet(stats, reason.value, NotQueued));
    }
    return Qualifies(stats);
  }

  lemma ProfileReasons(s: WalletStats, o: Options)
    ensures StatsRejectReason(s, o).Some? ==> JudgesProfile(StatsRejectReason(s, o).value)
  {
  }

  /** Samples a queued candidate again, deeper. */
  method Retry(client: Client, d: DeepDive, o: Options, ghost from: nat) returns (v: Verdict)
    requires NewestFirst(client.History(d.discovery.address)) && Defaulted(o) && from <= client.attempts
    requires Capped(client, d, o, from, client.attempts)
    modifies client`attempts
    ensures Sound(client, d.discovery, o, v, from, client.attempts) && !v.Defers?
    ensures v.Refuses? ==> v.rejected.deepDive in {RetriedCapHit, RetriedOtherReject}
    ensures old(client.attempts) <= client.attempts <= old(client.attempts) + FetchCost(DeepDiveParams(o))
  {
    hide Summary, StatsRejectReason, Window, Explained, ErrorExplained, Capped;
    var c := d.discovery;
    var page, err := FetchEnhancedWindow(client, c.address, DeepDiveParams(o));
    ExplanationsWiden(client, client.History(c.address), DeepDiveParams(o), old(client.attempts), client.attempts, from, client.attempts);
    CappedWidens(client, d, o, from, old(client.attempts), client.attempts);
    CappedIsQueued(client, d, o, from, client.attempts);
    if err.Some? {
      assert ErrorExplained(client, DeepDiveParams(o), err.value, from, client.attempts);
      assert d == DeepDive(c, d.stats, d.code) && WasDeferred(client, c, o, d.stats, from, client.attempts);
      return Refuses(RejectedWallet(d.stats, DeepDiveFetchError, RetriedOtherReject));
    }
    var stats := ContextualStats(c, page.transactions, o);
    SummaryHead(ViewOf(c.address, o), page.transactions);
    if page.partial {
      assert Sampled(client, c, o, DeepDiveParams(o), stats, page.code.value, from, client.attempts);
      return Refuses(RejectedWallet(stats, ActivityCapReached(page.code.value), RetriedCapHit));
    }
    if page.retryExhausted {
      assert false;
      return Refuses(RejectedWallet(stats, RetriesExhausted, RetriedOtherReject));
    }
    var reason := StatsRejectReason(stats, o);
    if reason.Some? {
      ProfileReasons(stats, o);
      return Refuses(RejectedWallet(stats, reason.value, RetriedOtherReject));
    }
    return Qualifies(stats);
  }

  lemma CappedIsQueued(client: Client, d: DeepDive, o: Options, from: nat, to: nat)
    requires Capped(client, d, o, from, to)
    ensures WasQueued(client, d.discovery, o, from, to) && d.stats.address == d.discovery.address
  {
    assert DeepDive(d.discovery, d.stats, d.code) == d;
  }

  // ---- Every candidate ends up somewhere, once ----

  datatype Pools = Pools(eligible: seq<WalletStats>, queue: seq<DeepDive>, rejected: seq<RejectedWallet>)

  function IsStats(a: Address): WalletStats -> bool { (s: WalletStats) => s.address == a }
  function IsDive(a: Address): DeepDive -> bool { (d: DeepDive) => d.discovery.address == a }
  function IsRejection(a: Address): RejectedWallet -> bool { (r: RejectedWallet) => r.stats.address == a }
  function IsDiscovery(a: Address): Discovery -> bool { (c: Discovery) => c.address == a }

  /** The pools hold each wallet as often as the candidates name it. */
  ghost predicate Shares(p: Pools, cs: seq<Discovery>) {
    forall a :: Count(p.eligible, IsStats(a)) + Count(p.queue, IsDive(a)) + Count(p.rejected, IsRejection(a)) == Count(cs, IsDiscovery(a))
  }

  /** Everything in the pools is vouched for by a candidate and by the attempts `(from, to]`. */
  ghost predicate Vouched(client: Client, cs: seq<Discovery>, o: Options, p: Pools, from: nat, to: nat) {
    && (forall s :: s in p.eligible ==> exists c :: c in cs && Qualified(client.History(c.address), c, o, s))
    && (forall d :: d in p.queue ==> d.discovery in cs && Capped(client, d, o, from, to))
    && (forall r :: r in p.rejected ==> exists c :: c in cs && Justified(client, c, o, r, from, to))
  }

  lemma VouchedWidens(client: Client, cs: seq<Discovery>, o: Options, p: Pools, from: nat, to: nat, to': nat)
    requires Vouched(client, cs, o, p, from, to) && to <= to'
    ensures Vouched(client, cs, o, p, from, to')
  {
    hide Qualified, Justified, Capped;
    forall d | d in p.queue ensures Capped(client, d, o, from, to') { CappedWidens(client, d, o, from, to, to'); }
    forall r | r in p.rejected ensures exists c :: c in cs && Justified(client, c, o, r, from, to') {
      var c :| c in cs && Justified(client, c, o, r, from, to);
      JustifiedWidens(client, c, o, r, from, to, to');
    }
  }

  ghost predicate Served(client: Client, cs: seq<Discovery>) { forall c :: c in cs ==> NewestFirst(client.History(c.address)) }

  function Placed(p: Pools, v: Verdict): Pools {
    match v
    case Qualifies(s) => p.(eligible := p.eligible + [s])
    case Defers(d) => p.(queue := p.queue + [d])
    case Refuses(r) => p.(rejected := p.rejected + [r])
  }

  lemma SoundAddress(client: Client, c: Discovery, o: Options, v: Verdict, from: nat, to: nat)
    requires Sound(client, c, o, v, from, to)
    ensures match v
            case Qualifies(s) => s.address == c.address
            case Defers(d) => d.discovery == c
            case Refuses(r) => r.stats.address == c.address
  {
    SummaryHead(ViewOf(c.address, o), Window(client.History(c.address), WindowStart(o), o.scanEnd));
  }

  /** Placing the verdict on the next candidate. */
  lemma PlacedShares(p: Pools, cs: seq<Discovery>, c: Discovery, client: Client, o: Options, v: Verdict, from: nat, to: nat)
    requires Shares(p, cs) && Sound(client, c, o, v, from, to)
    ensures Shares(Placed(p, v), cs + [c])
  {
    SoundAddress(client, c, o, v, from, to);
    hide Sound;
    var q := Placed(p, v);
    forall a ensures Count(q.eligible, IsStats(a)) + Count(q.queue, IsDive(a)) + Count(q.rejected, IsRejection(a)) == Count(cs + [c], IsDiscovery(a)) {
      CountSnoc(cs, c, IsDiscovery(a));
      match v {
        case Qualifies(s) => CountSnoc(p.eligible, s, IsStats(a));
        case Defers(d) => CountSnoc(p.queue, d, IsDive(a));
        case Refuses(r) => CountSnoc(p.rejected, r, IsRejection(a));
      }
    }
  }

  lemma PlacedVouched(client: Client, p: Pools, cs: seq<Discovery>, c: Discovery, o: Options, v: Verdict, all: seq<Discovery>, from: nat, to: nat)
    requires Vouched(client, cs, o, p, from, to) && Sound(client, c, o, v, from, to)
    requires c in all && forall x :: x in cs ==> x in all
    ensures Vouched(client, all, o, Placed(p, v), from, to)
  {
    hide Qualified, Justified, Capped;
  }

  lemma CostStep(n: nat, cost: nat)
    ensures n * cost + cost == (n + 1) * cost
  {
  }

  method Place(p: Pools, v: Verdict) returns (q: Pools)
    ensures q == Placed(p, v)
  {
    match v {
      case Qualifies(s) => q := p.(eligible := p.eligible + [s]);
      case Defers(d) => q := p.(queue := p.queue + [d]);
      case Refuses(r) => q := p.(rejected := p.rejected + [r]);
    }
  }

  /** All rejections so far are of the first sampling. */
  predicate AllEarly(rejected: seq<RejectedWallet>) { forall r :: r in rejected ==> Early(r) }

  lemma PlacedEarly(p: Pools, v: Verdict)
    requires AllEarly(p.rejected) && (v.Refuses? ==> Early(v.rejected))
    ensures AllEarly(Placed(p, v).rejected)
  {
  }

  /** Samples the next candidate. */
  method AssessNext(client: Client, p: Pools, c: Discovery, o: Options, ghost past: seq<Discovery>, ghost from: nat) returns (q: Pools)
    requires NewestFirst(client.History(c.address)) && Defaulted(o) && from <= client.attempts
    requires Shares(p, past) && Vouched(client, past, o, p, from, client.attempts) && AllEarly(p.rejected)
    modifies client`attempts
    ensures Shares(q, past + [c]) && Vouched(client, past + [c], o, q, from, client.attempts) && AllEarly(q.rejected)
    ensures old(client.attempts) <= client.attempts <= old(client.attempts) + FetchCost(SampleParams(o))
  {
    hide Shares, Vouched, Sound, FetchCost, Placed, AllEarly;
    var v := Assess(client, c, o, from);
    VouchedWidens(client, past, o, p, from, old(client.attempts), client.attempts);
    PlacedShares(p, past, c, client, o, v, from, client.attempts);
    PlacedVouched(client, p, past, c, o, v, past + [c], from, client.attempts);
    PlacedEarly(p, v);
    q := Place(p, v);
  }

  lemma NothingPlaced(client: Client, o: Options, at: nat)
    ensures Shares(Pools([], [], []), []) && Vouched(client, [], o, Pools([], [], []), at, at) && AllEarly([])
  {
  }

  /** Samples every candidate. */
  method AssessAll(client: Client, cs: seq<Discovery>, o: Options) returns (p: Pools)
    requires Served(client, cs) && Defaulted(o)
    modifies client`attempts
    ensures Shares(p, cs) && Vouched(client, cs, o, p, old(client.attempts), client.attempts) && AllEarly(p.rejected)
    ensures old(client.attempts) <= client.attempts <= old(client.attempts) + |cs| * FetchCost(SampleParams(o))
  {
    hide Shares, Vouched, FetchCost, AllEarly;
    ghost var cost, from := FetchCost(SampleParams(o)), client.attempts;
    p := Pools([], [], []);
    NothingPlaced(client, o, from);
    for i := 0 to |cs|
      invariant Shares(p, cs[..i]) && Vouched(client, cs[..i], o, p, from, client.attempts) && AllEarly(p.rejected)
      invariant from <= client.attempts <= from + i * cost
    {
      assert cs[i] in cs && cs[..i + 1] == cs[..i] + [cs[i]];
      CostStep(i, cost);
      p := AssessNext(client, p, cs[i], o, cs[..i], from);
    }
    assert cs[..|cs|] == cs;
  }

  // ---- Deep dives ----

  /** Higher scores first, then by address. */
  predicate DivesFirst(a: DeepDive, b: DeepDive) {
    if a.stats.sourceScore == b.stats.sourceScore then LexLeq(a.stats.address, b.stats.address)
    else a.stats.sourceScore > b.stats.sourceScore
  }

  lemma DivesFirstMeaning(a: DeepDive, b: DeepDive)
    ensures DivesFirst(a, b) <==> HigherOrBefore(a.stats, b.stats)
  {
  }

  /** `a` scores at least as high as `b`, and comes first in byte order if they score the same. */
  predicate HigherOrBefore(a: WalletStats, b: WalletStats) {
    a.sourceScore >= b.sourceScore && (a.sourceScore == b.sourceScore ==> LexLeq(a.address, b.address))
  }

  predicate BestScoresFirst(queue: seq<DeepDive>) {
    forall i, j :: 0 <= i < j < |queue| ==> HigherOrBefore(queue[i].stats, queue[j].stats)
  }

  lemma SortedByScore(queue: seq<DeepDive>)
    requires Sorting.SortedBy(queue, DivesFirst)
    ensures BestScoresFirst(queue)
  {
    forall i, j | 0 <= i < j < |queue| ensures HigherOrBefore(queue[i].stats, queue[j].stats) { DivesFirstMeaning(queue[i], queue[j]); }
  }

  lemma CountHead<T>(s: seq<T>, p: T -> bool)
    requires s != []
    ensures Count(s, p) == Count(s[1..], p) + if p(s[0]) then 1 else 0
  {
    assert s == [s[0]] + s[1..];
    CountAppend([s[0]], s[1..], p);
    CountSnoc([], s[0], p);
    assert [] + [s[0]] == [s[0]];
  }

  /** The verdict on the head of the queue takes its place. */
  lemma HeadPlaced(p: Pools, cs: seq<Discovery>, client: Client, o: Options, v: Verdict, from: nat, to: nat)
    requires p.queue != [] && Shares(p, cs) && Sound(client, p.queue[0].discovery, o, v, from, to) && !v.Defers?
    ensures Shares(Placed(p, v).(queue := p.queue[1..]), cs)
  {
    var d := p.queue[0];
    SoundAddress(client, d.discovery, o, v, from, to);
    hide Sound;
    var q := Placed(p, v).(queue := p.queue[1..]);
    forall a ensures Count(q.eligible, IsStats(a)) + Count(q.queue, IsDive(a)) + Count(q.rejected, IsRejection(a)) == Count(cs, IsDiscovery(a)) {
      CountHead(p.queue, IsDive(a));
      match v {
        case Qualifies(s) => CountSnoc(p.eligible, s, IsStats(a));
        case Refuses(r) => CountSnoc(p.rejected, r, IsRejection(a));
      }
    }
  }

  lemma HeadVouched(client: Client, p: Pools, cs: seq<Discovery>, o: Options, v: Verdict, from: nat, to: nat)
    requires p.queue != [] && Vouched(client, cs, o, p, from, to) && !v.Defers?
    requires Sound(client, p.queue[0].discovery, o, v, from, to)
    ensures Vouched(client, cs, o, Placed(p, v).(queue := p.queue[1..]), from, to)
  {
    hide Qualified, Justified, Capped;
    assert p.queue[0] in p.queue && forall d :: d in p.queue[1..] ==> d in p.queue;
  }

  /** The rejection of a queued wallet beyond the first N. */
  function SkipOf(d: DeepDive): RejectedWallet { RejectedWallet(d.stats, ActivityCapReached(d.code), QueuedTopNSkip) }

  predicate IsSkip(r: RejectedWallet) { r.deepDive == QueuedTopNSkip && r.reason.ActivityCapReached? }

  /** Decides one queued wallet: skipped, or sampled again. */
  method Dive(client: Client, d: DeepDive, idx: nat, eligibleCount: nat, o: Options, ghost from: nat) returns (v: Verdict)
    requires NewestFirst(client.History(d.discovery.address)) && Defaulted(o) && from <= client.attempts
    requires Capped(client, d, o, from, client.attempts)
    modifies client`attempts
    ensures Sound(client, d.discovery, o, v, from, client.attempts) && !v.Defers?
    ensures idx >= o.deepDiveTopN ==> v == Refuses(SkipOf(d))
    ensures idx < o.deepDiveTopN && v.Refuses? ==> !IsSkip(v.rejected)
    ensures idx < o.deepDiveTopN && eligibleCount >= o.targetCount ==> v == Refuses(RejectedWallet(d.stats, TargetCountReached, QueuedTopNSkip))
    ensures v.Refuses? && v.rejected.reason == TargetCountReached ==> v.rejected.deepDive == QueuedTopNSkip && eligibleCount >= o.targetCount
    ensures idx >= o.deepDiveTopN || eligibleCount >= o.targetCount ==> client.attempts == old(client.attempts)
    ensures old(client.attempts) <= client.attempts <= old(client.attempts) + if idx < o.deepDiveTopN then FetchCost(DeepDiveParams(o)) else 0
  {
    hide Capped, FetchCost, Sampled;
    CappedIsQueued(client, d, o, from, client.attempts);
    assert DeepDive(d.discovery, d.stats, d.code) == d;
    if idx >= o.deepDiveTopN { return Refuses(RejectedWallet(d.stats, ActivityCapReached(d.code), QueuedTopNSkip)); }
    if o.targetCount > 0 && eligibleCount >= o.targetCount {
      return Refuses(RejectedWallet(d.stats, TargetCountReached, QueuedTopNSkip));
    }
    v := Retry(client, d, o, from);
  }

  /** After `n` entries of the queue, exactly those at position `top` or later were skipped for their position. */
  ghost predicate SkipsUpTo(queue: seq<DeepDive>, top: int, n: nat, rejected: seq<RejectedWallet>) {
    && n <= |queue|
    && (forall k :: 0 <= k < n && top <= k ==> SkipOf(queue[k]) in rejected)
    && (forall r :: r in rejected && IsSkip(r) ==> exists k :: 0 <= k < n && top <= k && r == SkipOf(queue[k]))
  }

  /** The target count was a reason only for queued wallets, and only once it was met. */
  predicate TargetKept(p: Pools, target: int) {
    forall r :: r in p.rejected && r.reason == TargetCountReached ==> r.deepDive == QueuedTopNSkip && |p.eligible| >= target
  }

  lemma SkipsGoOn(queue: seq<DeepDive>, top: int, n: nat, p: Pools, v: Verdict)
    requires SkipsUpTo(queue, top, n, p.rejected) && n < |queue| && !v.Defers?
    requires n >= top ==> v == Refuses(SkipOf(queue[n]))
    requires n < top && v.Refuses? ==> !IsSkip(v.rejected)
    ensures SkipsUpTo(queue, top, n + 1, Placed(p, v).rejected)
  {
    var after := Placed(p, v).rejected;
    assert forall r :: r in p.rejected ==> r in after;
    if n >= top { assert after == p.rejected + [SkipOf(queue[n])] && after[|after| - 1] in after; }
    forall r | r in after && IsSkip(r) ensures exists k :: 0 <= k < n + 1 && top <= k && r == SkipOf(queue[k]) {
      if r in p.rejected {
        var k :| 0 <= k < n && top <= k && r == SkipOf(queue[k]);
      }
    }
  }

  lemma TargetStaysKept(p: Pools, v: Verdict, target: int, rest: seq<DeepDive>)
    requires TargetKept(p, target)
    requires v.Refuses? && v.rejected.reason == TargetCountReached ==> v.rejected.deepDive == QueuedTopNSkip && |p.eligible| >= target
    ensures TargetKept(Placed(p, v).(queue := rest), target)
  {
  }

  /** Takes the head off the queue. */
  method DiveNext(client: Client, p: Pools, idx: nat, o: Options, ghost cs: seq<Discovery>, ghost queue: seq<DeepDive>, ghost from: nat) returns (q: Pools)
    requires idx < |queue| && p.queue == queue[idx..] && from <= client.attempts && Served(client, cs) && Defaulted(o)
    requires Shares(p, cs) && Vouched(client, cs, o, p, from, client.attempts)
    requires SkipsUpTo(queue, o.deepDiveTopN, idx, p.rejected) && TargetKept(p, o.targetCount)
    modifies client`attempts
    ensures q.queue == queue[idx + 1..] && Shares(q, cs) && Vouched(client, cs, o, q, from, client.attempts)
    ensures SkipsUpTo(queue, o.deepDiveTopN, idx + 1, q.rejected) && TargetKept(q, o.targetCount)
    ensures old(client.attempts) <= client.attempts <= old(client.attempts) + if idx < o.deepDiveTopN then FetchCost(DeepDiveParams(o)) else 0
  {
    QueueHead(client, p, cs, o, from, client.attempts);
    hide Shares, Vouched, Sound, FetchCost, SkipsUpTo, TargetKept, Capped, Served;
    var d := p.queue[0];
    assert d == queue[idx] && p.queue[1..] == queue[idx + 1..];
    var v := Dive(client, d, idx, |p.eligible|, o, from);
    VouchedWidens(client, cs, o, p, from, old(client.attempts), client.attempts);
    HeadPlaced(p, cs, client, o, v, from, client.attempts);
    HeadVouched(client, p, cs, o, v, from, client.attempts);
    SkipsGoOn(queue, o.deepDiveTopN, idx, p, v);
    TargetStaysKept(p, v, o.targetCount, p.queue[1..]);
    q := Place(p, v);
    q := q.(queue := p.queue[1..]);
  }

  lemma QueueHead(client: Client, p: Pools, cs: seq<Discovery>, o: Options, from: nat, to: nat)
    requires p.queue != [] && Vouched(client, cs, o, p, from, to) && Served(client, cs)
    ensures NewestFirst(client.History(p.queue[0].discovery.address)) && Capped(client, p.queue[0], o, from, to)
  {
    assert p.queue[0] in p.queue;
  }

  /** What `n` queue entries may cost: only the first `top` are fetched. */
  ghost function DiveCost(n: nat, top: int, cost: nat): nat { Max(Min(n, top), 0) * cost }

  lemma DiveCostStep(n: nat, top: int, cost: nat)
    requires top >= 0
    ensures DiveCost(n + 1, top, cost) == DiveCost(n, top, cost) + if n < top then cost else 0
    ensures DiveCost(n, top, cost) <= top * cost && DiveCost(0, top, cost) == 0
  {
    if n < top { CostStep(n, cost); }
    CostUpTo(Min(n, top), top, cost);
  }

  lemma DivesFirstOrders(s: seq<DeepDive>)
    ensures Sorting.OrderOn(s, DivesFirst)
  {
    forall a: DeepDive, b: DeepDive ensures DivesFirst(a, b) || DivesFirst(b, a) { LexTotal(a.stats.address, b.stats.address); }
    forall a: DeepDive, b: DeepDive, c: DeepDive | DivesFirst(a, b) && DivesFirst(b, c) ensures DivesFirst(a, c) {
      if LexLeq(a.stats.address, b.stats.address) && LexLeq(b.stats.address, c.stats.address) {
        LexTransitive(a.stats.address, b.stats.address, c.stats.address);
      }
    }
  }

  /** Works through the queue, best first. */
  method DeepDiveAll(client: Client, p: Pools, o: Options, ghost cs: seq<Discovery>, ghost from: nat) returns (q: Pools, queue: seq<DeepDive>)
    requires Served(client, cs) && Defaulted(o) && from <= client.attempts
    requires Shares(p, cs) && Vouched(client, cs, o, p, from, client.attempts) && AllEarly(p.rejected)
    modifies client`attempts
    ensures q.queue == [] && Shares(q, cs) && Vouched(client, cs, o, q, from, client.attempts)
    ensures multiset(queue) == multiset(p.queue) && Sorting.SortedBy(queue, DivesFirst)
    ensures SkipsUpTo(queue, o.deepDiveTopN, |queue|, q.rejected) && TargetKept(q, o.targetCount)
    ensures old(client.attempts) <= client.attempts <= old(client.attempts) + o.deepDiveTopN * FetchCost(DeepDiveParams(o))
  {
    ghost var cost := FetchCost(DeepDiveParams(o));
    queue := Sorting.SortBy(p.queue, DivesFirst);
    q := p.(queue := queue);
    DivesFirstOrders(p.queue);
    Sorting.SortSorts(p.queue, DivesFirst);
    SortedQueue(client, p, q, cs, o, from, client.attempts);
    hide Shares, Vouched, FetchCost, DivesFirst, Served, DiveCost, SkipsUpTo, TargetKept, AllEarly;
    DiveCostStep(0, o.deepDiveTopN, cost);
    NothingSkipped(q, queue, o);
    for idx := 0 to |queue|
      invariant q.queue == queue[idx..] && Shares(q, cs) && Vouched(client, cs, o, q, from, client.attempts)
      invariant SkipsUpTo(queue, o.deepDiveTopN, idx, q.rejected) && TargetKept(q, o.targetCount)
      invariant old(client.attempts) <= client.attempts <= old(client.attempts) + DiveCost(idx, o.deepDiveTopN, cost)
    {
      DiveCostStep(idx, o.deepDiveTopN, cost);
      q := DiveNext(client, q, idx, o, cs, queue, from);
    }
    DiveCostStep(|queue|, o.deepDiveTopN, cost);
  }

  lemma NothingSkipped(p: Pools, queue: seq<DeepDive>, o: Options)
    requires AllEarly(p.rejected)
    ensures SkipsUpTo(queue, o.deepDiveTopN, 0, p.rejected) && TargetKept(p, o.targetCount)
  {
  }

  lemma CostUpTo(m: nat, n: nat, cost: nat)
    requires m <= n
    ensures m * cost <= n * cost
  {
  }

  lemma SortedQueue(client: Client, p: Pools, q: Pools, cs: seq<Discovery>, o: Options, from: nat, to: nat)
    requires Shares(p, cs) && Vouched(client, cs, o, p, from, to)
    requires multiset(q.queue) == multiset(p.queue) && q.eligible == p.eligible && q.rejected == p.rejected
    ensures Shares(q, cs) && Vouched(client, cs, o, q, from, to)
  {
    hide Qualified, Justified, Capped;
    Sorting.SameElements(q.queue, p.queue);
    forall a ensures Count(q.queue, IsDive(a)) == Count(p.queue, IsDive(a)) { CountPermutation(q.queue, p.queue, IsDive(a)); }
  }

  // ---- The selection ----

  /** The order wallets are accepted in: score, dust, legitimate counterparties, then address. */
  predicate Ranks(a: WalletStats, b: WalletStats) {
    if a.sourceScore != b.sourceScore then a.sourceScore > b.sourceScore
    else if a.scanInboundDustTransfers != b.scanInboundDustTransfers then a.scanInboundDustTransfers > b.scanInboundDustTransfers
    else if a.legitOutboundCounterparties != b.legitOutboundCounterparties then a.legitOutboundCounterparties > b.legitOutboundCounterparties
    else LexLeq(a.address, b.address)
  }

  /** `a` is no worse than `b`: a higher score decides, then more dust, then more counterparties paid, then the address. */
  predicate NoWorse(a: WalletStats, b: WalletStats) {
    && a.sourceScore >= b.sourceScore
    && (a.sourceScore == b.sourceScore ==>
          && a.scanInboundDustTransfers >= b.scanInboundDustTransfers
          && (a.scanInboundDustTransfers == b.scanInboundDustTransfers ==>
                && a.legitOutboundCounterparties >= b.legitOutboundCounterparties
                && (a.legitOutboundCounterparties == b.legitOutboundCounterparties ==> LexLeq(a.address, b.address))))
  }

  lemma RanksMeaning(a: WalletStats, b: WalletStats)
    ensures Ranks(a, b) <==> NoWorse(a, b)
  {
  }

  lemma RanksOrders(s: seq<WalletStats>)
    ensures Sorting.OrderOn(s, Ranks)
  {
    forall a: WalletStats, b: WalletStats ensures Ranks(a, b) || Ranks(b, a) { LexTotal(a.address, b.address); }
    forall a: WalletStats, b: WalletStats, c: WalletStats | Ranks(a, b) && Ranks(b, c) ensures Ranks(a, c) {
      if LexLeq(a.address, b.address) && LexLeq(b.address, c.address) { LexTransitive(a.address, b.address, c.address); }
    }
  }

  /** The accepted wallets are the best of the eligible ones, best first; `turnedAway` are the others. */
  ghost predicate BestOf(accepted: seq<WalletStats>, turnedAway: seq<WalletStats>, eligible: seq<WalletStats>, k: nat) {
    && multiset(accepted) + multiset(turnedAway) == multiset(eligible)
    && |accepted| == Min(k, |eligible|) && Sorting.SortedBy(accepted, Ranks)
    && forall a, e :: a in accepted && e in turnedAway ==> Ranks(a, e)
  }

  /** The rejections of wallets that qualify but come after the target count. */
  function TurnAway(s: seq<WalletStats>): seq<RejectedWallet> {
    if s == [] then [] else TurnAway(s[..|s| - 1]) + [RejectedWallet(s[|s| - 1], TargetCountReached, NotQueued)]
  }

  lemma {:induction false} TurnAwayMeaning(s: seq<WalletStats>, a: Address)
    ensures Count(TurnAway(s), IsRejection(a)) == Count(s, IsStats(a))
    ensures forall r :: r in TurnAway(s) <==> r.stats in s && r.reason == TargetCountReached && r.deepDive == NotQueued
  {
    if s != [] {
      var init, last := s[..|s| - 1], s[|s| - 1];
      assert s == init + [last];
      TurnAwayMeaning(init, a);
      CountSnoc(TurnAway(init), RejectedWallet(last, TargetCountReached, NotQueued), IsRejection(a));
    }
  }

  lemma SplitIsBest(eligible: seq<WalletStats>, k: nat)
    ensures var sorted := Sorting.SortBy(eligible, Ranks);
            var m := Min(k, |sorted|);
            BestOf(sorted[..m], sorted[m..], eligible, k)
  {
    var sorted := Sorting.SortBy(eligible, Ranks);
    var m := Min(k, |sorted|);
    hide Ranks;
    RanksOrders(eligible);
    Sorting.SortSorts(eligible, Ranks);
    Sorting.SplitSorted(sorted, m, Ranks);
  }

  lemma SplitShares(p: Pools, cs: seq<Discovery>, sorted: seq<WalletStats>, k: nat, r: SourceResult)
    requires p.queue == [] && Shares(p, cs) && multiset(sorted) == multiset(p.eligible) && k <= |sorted|
    requires r == SourceResult(sorted[..k], p.rejected + TurnAway(sorted[k..]))
    ensures forall a :: Count(r.accepted, IsStats(a)) + Count(r.rejected, IsRejection(a)) == Count(cs, IsDiscovery(a))
  {
    forall a ensures Count(r.accepted, IsStats(a)) + Count(r.rejected, IsRejection(a)) == Count(cs, IsDiscovery(a)) {
      CountPermutation(sorted, p.eligible, IsStats(a));
      assert sorted == sorted[..k] + sorted[k..];
      CountAppend(sorted[..k], sorted[k..], IsStats(a));
      TurnAwayMeaning(sorted[k..], a);
      CountAppend(p.rejected, TurnAway(sorted[k..]), IsRejection(a));
    }
  }

  /** The first `i` wallets of the ranking are placed. */
  ghost predicate PlacedUpTo(r: SourceResult, rejected: seq<RejectedWallet>, sorted: seq<WalletStats>, k: nat, i: nat) {
    && i <= |sorted| && r.accepted == sorted[..Min(i, k)]
    && r.rejected == rejected + TurnAway(sorted[Min(i, k)..i])
  }

  lemma AcceptStep(r: SourceResult, rejected: seq<RejectedWallet>, sorted: seq<WalletStats>, k: nat, i: nat)
    requires PlacedUpTo(r, rejected, sorted, k, i) && i < |sorted| && i < k
    ensures PlacedUpTo(r.(accepted := r.accepted + [sorted[i]]), rejected, sorted, k, i + 1)
  {
    assert sorted[i..i] == sorted[i + 1..i + 1] == [];
  }

  lemma TurnAwayStep(r: SourceResult, rejected: seq<RejectedWallet>, sorted: seq<WalletStats>, k: nat, i: nat)
    requires PlacedUpTo(r, rejected, sorted, k, i) && k <= i < |sorted|
    ensures PlacedUpTo(r.(rejected := r.rejected + [RejectedWallet(sorted[i], TargetCountReached, NotQueued)]), rejected, sorted, k, i + 1)
  {
    assert sorted[k..i + 1][..i - k] == sorted[k..i];
  }

  lemma AllPlaced(r: SourceResult, rejected: seq<RejectedWallet>, sorted: seq<WalletStats>, k: nat)
    requires PlacedUpTo(r, rejected, sorted, k, |sorted|)
    ensures var m := Min(k, |sorted|); r == SourceResult(sorted[..m], rejected + TurnAway(sorted[m..]))
  {
    var m := Min(k, |sorted|);
    assert sorted[m..|sorted|] == sorted[m..];
  }

  /** The rejection of a wallet that qualified but ranks after the target count. */
  predicate TurnedAway(r: RejectedWallet) { r.reason == TargetCountReached && r.deepDive == NotQueued }

  /** The result alone shows the best were accepted: accepted wallets are ranked, none comes after a wallet that was
      turned away, and the target count is a reason only if it was met. */
  ghost predicate BestFirst(r: SourceResult, k: nat) {
    && |r.accepted| <= k && (forall i, j :: 0 <= i < j < |r.accepted| ==> NoWorse(r.accepted[i], r.accepted[j]))
    && (forall a, x :: a in r.accepted && x in r.rejected && TurnedAway(x) ==> NoWorse(a, x.stats))
    && (forall x :: x in r.rejected && x.reason == TargetCountReached ==> |r.accepted| == k)
  }

  lemma BestOfIsBestFirst(p: Pools, r: SourceResult, turnedAway: seq<WalletStats>, k: nat)
    requires BestOf(r.accepted, turnedAway, p.eligible, k) && r.rejected == p.rejected + TurnAway(turnedAway) && TargetKept(p, k)
    ensures BestFirst(r, k)
  {
    forall a: WalletStats, b: WalletStats ensures Ranks(a, b) <==> NoWorse(a, b) { RanksMeaning(a, b); }
    hide Ranks, NoWorse;
    TurnAwayMeaning(turnedAway, "");
    assert |multiset(r.accepted) + multiset(turnedAway)| == |multiset(p.eligible)|;
    assert |r.accepted| + |turnedAway| == |p.eligible|;
    forall x | x in r.rejected && x.reason == TargetCountReached ensures |r.accepted| == k {
      if x !in p.rejected { assert x in TurnAway(turnedAway) && x.stats in turnedAway; }
    }
  }

  /** Splits the eligible wallets at the target count. */
  method Choose(p: Pools, o: Options, ghost cs: seq<Discovery>) returns (r: SourceResult, ghost turnedAway: seq<WalletStats>)
    requires Defaulted(o) && p.queue == [] && Shares(p, cs) && TargetKept(p, o.targetCount)
    ensures BestOf(r.accepted, turnedAway, p.eligible, o.targetCount) && r.rejected == p.rejected + TurnAway(turnedAway)
    ensures BestFirst(r, o.targetCount)
    ensures forall a :: Count(r.accepted, IsStats(a)) + Count(r.rejected, IsRejection(a)) == Count(cs, IsDiscovery(a))
  {
    hide Ranks, Shares, BestOf, BestFirst, TurnAway, TargetKept;
    var sorted := Sorting.SortBy(p.eligible, Ranks);
    SplitIsBest(p.eligible, o.targetCount);
    r := SourceResult([], p.rejected);
    NonePlaced(p.rejected, sorted, o.targetCount);
    hide PlacedUpTo;
    for i := 0 to |sorted|
      invariant PlacedUpTo(r, p.rejected, sorted, o.targetCount, i)
    {
      if o.targetCount > 0 && i >= o.targetCount {
        TurnAwayStep(r, p.rejected, sorted, o.targetCount, i);
        r := r.(rejected := r.rejected + [RejectedWallet(sorted[i], TargetCountReached, NotQueued)]);
        continue;
      }
      AcceptStep(r, p.rejected, sorted, o.targetCount, i);
      r := r.(accepted := r.accepted + [sorted[i]]);
    }
    AllPlaced(r, p.rejected, sorted, o.targetCount);
    turnedAway := sorted[Min(o.targetCount, |sorted|)..];
    SplitShares(p, cs, sorted, Min(o.targetCount, |sorted|), r);
    BestOfIsBestFirst(p, r, turnedAway, o.targetCount);
  }

  lemma NonePlaced(rejected: seq<RejectedWallet>, sorted: seq<WalletStats>, k: nat)
    ensures PlacedUpTo(SourceResult([], rejected), rejected, sorted, k, 0)
  {
  }

  // ---- Candidates ----

  /** More seeds first, then by address. */
  predicate DiscoveredFirst(a: Discovery, b: Discovery) {
    if a.seeds == b.seeds then LexLeq(a.address, b.address) else a.seeds > b.seeds
  }

  /** Fewer seeds never come first, and equally many go by the address. */
  lemma DiscoveredFirstMeaning(a: Discovery, b: Discovery)
    ensures DiscoveredFirst(a, b) <==> a.seeds >= b.seeds && (a.seeds == b.seeds ==> LexLeq(a.address, b.address))
  {
  }

  /** `cs` lists the discovered wallets, each once, in the order they are sampled. */
  ghost predicate Arranges(cs: seq<Discovery>, discovered: map<Address, nat>) {
    && Sorting.SortedBy(cs, DiscoveredFirst) && Distinct(cs)
    && forall c :: c in cs <==> c.address in discovered && c.seeds == discovered[c.address]
  }

  ghost predicate Distinct(cs: seq<Discovery>) { forall i, j :: 0 <= i < j < |cs| ==> cs[i].address != cs[j].address }

  lemma DiscoveredFirstOrders(s: seq<Discovery>)
    ensures Sorting.OrderOn(s, DiscoveredFirst)
  {
    forall a: Discovery, b: Discovery ensures DiscoveredFirst(a, b) || DiscoveredFirst(b, a) { LexTotal(a.address, b.address); }
    forall a: Discovery, b: Discovery, c: Discovery | DiscoveredFirst(a, b) && DiscoveredFirst(b, c) ensures DiscoveredFirst(a, c) {
      if LexLeq(a.address, b.address) && LexLeq(b.address, c.address) { LexTransitive(a.address, b.address, c.address); }
    }
  }

  lemma {:induction false} CountDistinct(cs: seq<Discovery>, a: Address)
    requires Distinct(cs)
    ensures Count(cs, IsDiscovery(a)) == if exists c :: c in cs && c.address == a then 1 else 0
  {
    if cs != [] {
      var init, last := cs[..|cs| - 1], cs[|cs| - 1];
      assert cs == init + [last];
      CountDistinct(init, a);
      assert forall c :: c in cs <==> c in init || c == last;
    }
  }

  lemma DistinctPermutation(s: seq<Discovery>, t: seq<Discovery>)
    requires multiset(s) == multiset(t) && Distinct(s)
    ensures Distinct(t)
  {
    forall i, j | 0 <= i < j < |t| ensures t[i].address != t[j].address {
      if t[i].address == t[j].address {
        var a := t[i].address;
        CountDistinct(s, a);
        CountPermutation(s, t, IsDiscovery(a));
        CountRemove(t, j, IsDiscovery(a));
        var rest := t[..j] + t[j + 1..];
        assert rest[i] == t[i] && rest[i] in rest && IsDiscovery(a)(rest[i]);
        CountPositive(rest, IsDiscovery(a));
      }
    }
  }

  /** Collects the discovered wallets in whatever order the map yields them, and sorts them. */
  method SortedDiscoveries(discovered: map<Address, nat>) returns (out: seq<Discovery>)
    ensures Arranges(out, discovered)
  {
    var all: seq<Discovery> := [];
    var todo := discovered.Keys;
    while todo != {}
      invariant todo <= discovered.Keys && Distinct(all)
      invariant forall c :: c in all <==> c.address in discovered.Keys - todo && c.seeds == discovered[c.address]
      decreases |todo|
    {
      var a :| a in todo;
      assert forall c :: c in all + [Discovery(a, discovered[a])] <==> c in all || c == Discovery(a, discovered[a]);
      all, todo := all + [Discovery(a, discovered[a])], todo - {a};
    }
    out := Sorting.SortBy(all, DiscoveredFirst);
    DiscoveredFirstOrders(all);
    Sorting.SortSorts(all, DiscoveredFirst);
    Sorting.SameElements(all, out);
    DistinctPermutation(all, out);
  }

  /** Each candidate is accepted or rejected, once, and nobody else is. */
  ghost predicate Partitions(r: SourceResult, candidates: seq<Discovery>) {
    forall a :: Count(r.accepted, IsStats(a)) + Count(r.rejected, IsRejection(a))
             == if exists c :: c in candidates && c.address == a then 1 else 0
  }

  /** Accepted wallets qualified on their whole window, and every rejection is justified. */
  ghost predicate Reliable(client: Client, candidates: seq<Discovery>, o: Options, r: SourceResult, from: nat, to: nat) {
    && (forall s :: s in r.accepted ==> exists c :: c in candidates && Qualified(client.History(c.address), c, o, s))
    && (forall x :: x in r.rejected ==> exists c :: c in candidates && Justified(client, c, o, x, from, to))
  }

  /** `queue` holds distinct capped candidates, best first, and exactly those after the first N were skipped for their place. */
  ghost predicate QueueServed(client: Client, candidates: seq<Discovery>, o: Options, queue: seq<DeepDive>, r: SourceResult, from: nat, to: nat) {
    && BestScoresFirst(queue) && SkipsUpTo(queue, o.deepDiveTopN, |queue|, r.rejected)
    && (forall d :: d in queue ==> d.discovery in candidates && Capped(client, d, o, from, to))
    && (forall i, j :: 0 <= i < j < |queue| ==> queue[i].discovery.address != queue[j].discovery.address)
  }

  lemma ChosenAreReliable(client: Client, cs: seq<Discovery>, o: Options, p: Pools, r: SourceResult, turnedAway: seq<WalletStats>, from: nat, to: nat)
    requires Vouched(client, cs, o, p, from, to) && BestOf(r.accepted, turnedAway, p.eligible, Max(o.targetCount, 0))
    requires r.rejected == p.rejected + TurnAway(turnedAway)
    ensures Reliable(client, cs, o, r, from, to)
  {
    hide Qualified, Capped, TurnAway, JustifiedAtOnce, JustifiedSkip, JustifiedRetry, Ranks;
    forall s | s in r.accepted || s in turnedAway ensures s in p.eligible {
      assert s in multiset(r.accepted) + multiset(turnedAway);
      assert s in multiset(p.eligible);
    }
    forall x | x in r.rejected ensures exists c :: c in cs && Justified(client, c, o, x, from, to) {
      if x !in p.rejected {
        TurnAwayMeaning(turnedAway, x.stats.address);
        assert x in TurnAway(turnedAway);
        var c :| c in cs && Qualified(client.History(c.address), c, o, x.stats);
        TurnedAwayIsJustified(client, c, o, x, from, to);
      }
    }
  }

  lemma TurnedAwayIsJustified(client: Client, c: Discovery, o: Options, x: RejectedWallet, from: nat, to: nat)
    requires Qualified(client.History(c.address), c, o, x.stats) && TurnedAway(x)
    ensures Justified(client, c, o, x, from, to)
  {
    SummaryHead(ViewOf(c.address, o), Window(client.History(c.address), WindowStart(o), o.scanEnd));
  }

  /** Turning wallets away skips nobody. */
  lemma SkipsUnchanged(queue: seq<DeepDive>, top: int, rejected: seq<RejectedWallet>, turnedAway: seq<WalletStats>)
    requires SkipsUpTo(queue, top, |queue|, rejected)
    ensures SkipsUpTo(queue, top, |queue|, rejected + TurnAway(turnedAway))
  {
    TurnAwayMeaning(turnedAway, "");
    assert forall r :: r in rejected + TurnAway(turnedAway) <==> r in rejected || r in TurnAway(turnedAway);
  }

  lemma QueueIsDistinct(p: Pools, cs: seq<Discovery>, queue: seq<DeepDive>)
    requires Shares(p, cs) && Distinct(cs) && multiset(queue) == multiset(p.queue)
    ensures forall i, j :: 0 <= i < j < |queue| ==> queue[i].discovery.address != queue[j].discovery.address
  {
    forall i, j | 0 <= i < j < |queue| ensures queue[i].discovery.address != queue[j].discovery.address {
      var a := queue[j].discovery.address;
      CountDistinct(cs, a);
      CountPermutation(queue, p.queue, IsDive(a));
      CountRemove(queue, j, IsDive(a));
      var rest := queue[..j] + queue[j + 1..];
      assert rest[i] == queue[i] && rest[i] in rest;
      CountPositive(rest, IsDive(a));
    }
  }

  lemma QueueIsCapped(client: Client, cs: seq<Discovery>, o: Options, p: Pools, queue: seq<DeepDive>, from: nat, to: nat, to': nat)
    requires Vouched(client, cs, o, p, from, to) && multiset(queue) == multiset(p.queue) && to <= to'
    ensures forall d :: d in queue ==> d.discovery in cs && Capped(client, d, o, from, to')
  {
    hide Capped, Qualified, Justified;
    Sorting.SameElements(queue, p.queue);
    forall d | d in queue ensures Capped(client, d, o, from, to') { CappedWidens(client, d, o, from, to, to'); }
  }

  /** Page requests a selection may cost. */
  function SelectionCost(o: Options): nat {
    Max(o.maxCandidates, 0) * FetchCost(SampleParams(o)) + Max(o.deepDiveTopN, 0) * FetchCost(DeepDiveParams(o))
  }

  lemma PartitionOfDistinct(r: SourceResult, candidates: seq<Discovery>)
    requires Distinct(candidates)
    requires forall a :: Count(r.accepted, IsStats(a)) + Count(r.rejected, IsRejection(a)) == Count(candidates, IsDiscovery(a))
    ensures Partitions(r, candidates)
  {
    forall a ensures Count(r.accepted, IsStats(a)) + Count(r.rejected, IsRejection(a))
                  == if exists c :: c in candidates && c.address == a then 1 else 0
    {
      CountDistinct(candidates, a);
    }
  }

  /** The first sampling and, if anyone waits for one, the deep dives. */
  method Sample(client: Client, candidates: seq<Discovery>, o: Options) returns (p: Pools, queue: seq<DeepDive>)
    requires Defaulted(o) && Served(client, candidates) && Distinct(candidates) && |candidates| <= o.maxCandidates
    modifies client`attempts
    ensures p.queue == [] && Shares(p, candidates) && Vouched(client, candidates, o, p, old(client.attempts), client.attempts)
    ensures TargetKept(p, o.targetCount)
    ensures forall r: SourceResult :: r.rejected == p.rejected ==> QueueServed(client, candidates, o, queue, r, old(client.attempts), client.attempts)
    ensures old(client.attempts) <= client.attempts <= old(client.attempts) + SelectionCost(o)
  {
    hide Shares, Vouched, Served, Distinct, FetchCost, AllEarly, Capped, SkipsUpTo, TargetKept, DivesFirst;
    ghost var from := client.attempts;
    p := AssessAll(client, candidates, o);
    CostUpTo(|candidates|, o.maxCandidates, FetchCost(SampleParams(o)));
    QueueNeedsDives(client, candidates, o, p, from, client.attempts);
    NothingSkipped(p, [], o);
    NonNegative(o.deepDiveTopN, FetchCost(DeepDiveParams(o)));
    queue := [];
    if |p.queue| > 0 && o.deepDiveTopN > 0 {
      ghost var before, mid := p, client.attempts;
      p, queue := DeepDiveAll(client, p, o, candidates, from);
      QueueIsDistinct(before, candidates, queue);
      QueueIsCapped(client, candidates, o, before, queue, from, mid, client.attempts);
      SortedByScore(queue);
    }
  }

  lemma NonNegative(a: int, b: int)
    requires a >= 0 && b >= 0
    ensures a * b >= 0
  {
  }

  /** Sampling, deep dives and the final choice. */
  method Screen(client: Client, candidates: seq<Discovery>, o: Options) returns (r: SourceResult, ghost queue: seq<DeepDive>)
    requires Defaulted(o) && Served(client, candidates) && Distinct(candidates) && |candidates| <= o.maxCandidates
    modifies client`attempts
    ensures Partitions(r, candidates) && BestFirst(r, o.targetCount)
    ensures Reliable(client, candidates, o, r, old(client.attempts), client.attempts)
    ensures QueueServed(client, candidates, o, queue, r, old(client.attempts), client.attempts)
    ensures old(client.attempts) <= client.attempts <= old(client.attempts) + SelectionCost(o)
  {
    hide Shares, Vouched, Served, Distinct, Partitions, Reliable, SelectionCost, BestOf, BestFirst, SkipsUpTo, TargetKept, Capped, DivesFirst;
    ghost var from := client.attempts;
    var p, q := Sample(client, candidates, o);
    queue := q;
    ghost var turnedAway;
    r, turnedAway := Choose(p, o, candidates);
    ChosenAreReliable(client, candidates, o, p, r, turnedAway, from, client.attempts);
    PartitionOfDistinct(r, candidates);
    assert QueueServed(client, candidates, o, queue, SourceResult([], p.rejected), from, client.attempts);
    SkipsUnchanged(queue, o.deepDiveTopN, p.rejected, turnedAway);
  }

  lemma CappedCandidates(client: Client, all: seq<Discovery>, discovered: map<Address, nat>, k: nat)
    requires Arranges(all, discovered) && k <= |all| && forall a :: a in discovered ==> NewestFirst(client.History(a))
    ensures Served(client, all[..k]) && Distinct(all[..k])
  {
    forall c | c in all[..k] ensures NewestFirst(client.History(c.address)) { assert c in all; }
  }

  /** There is one arrangement. */
  lemma ArrangementIsUnique(a: seq<Discovery>, b: seq<Discovery>, discovered: map<Address, nat>)
    requires Arranges(a, discovered) && Arranges(b, discovered)
    ensures a == b
  {
    assert forall i, j :: 0 <= i < j < |a| ==> a[i].address != a[j].address;
    assert forall i, j :: 0 <= i < j < |b| ==> b[i].address != b[j].address;
    Sorting.DistinctMultiset(a, b);
    forall x, y | x in a && y in a && DiscoveredFirst(x, y) && DiscoveredFirst(y, x) ensures x == y {
      LexAntisymmetric(x.address, y.address);
    }
    Sorting.SortedUnique(a, b, DiscoveredFirst);
  }

  /** The candidates sampled: the discovered wallets, arranged, up to the cap. */
  ghost predicate AreCandidates(cs: seq<Discovery>, discovered: map<Address, nat>, o: Options) {
    exists all :: Arranges(all, discovered) && cs == all[..Min(|all|, Max(o.maxCandidates, 0))]
  }

  /** What a selection over `candidates` that made the attempts `(from, to]` delivers. */
  ghost predicate Selected(client: Client, candidates: seq<Discovery>, o: Options, r: SourceResult, queue: seq<DeepDive>, from: nat, to: nat) {
    && Partitions(r, candidates) && BestFirst(r, Max(o.targetCount, 0))
    && Reliable(client, candidates, o, r, from, to) && QueueServed(client, candidates, o, queue, r, from, to)
  }

  /** From discovered wallets to accepted and rejected ones. */
  method SelectWallets(client: Client, discovered: map<Address, nat>, o: Options)
    returns (r: SourceResult, ghost candidates: seq<Discovery>, ghost queue: seq<DeepDive>)
    requires Defaulted(o) && forall a :: a in discovered ==> NewestFirst(client.History(a))
    modifies client`attempts
    ensures AreCandidates(candidates, discovered, o)
    ensures Selected(client, candidates, o, r, queue, old(client.attempts), client.attempts)
    ensures old(client.attempts) <= client.attempts <= old(client.attempts) + SelectionCost(o)
  {
    hide Arranges, Partitions, Reliable, FetchCost, BestFirst, QueueServed;
    var all := SortedDiscoveries(discovered);
    var kept := all;
    if o.maxCandidates > 0 && |kept| > o.maxCandidates {
      kept := kept[..o.maxCandidates];
    }
    assert kept == all[..Min(|all|, o.maxCandidates)];
    CappedCandidates(client, all, discovered, |kept|);
    candidates := kept;
    r, queue := Screen(client, kept, o);
  }

  lemma QueueNeedsDives(client: Client, cs: seq<Discovery>, o: Options, p: Pools, from: nat, to: nat)
    requires Vouched(client, cs, o, p, from, to)
    ensures p.queue != [] ==> o.deepDiveTopN > 0
  {
    if p.queue != [] { assert p.queue[0] in p.queue; }
  }
}
