/** Poisoning in terms of the provider's own transfers: which of them are candidates, and what a candidate records. */
module Poisoning {
  import opened Text
  import opened Wrappers
  import opened Counting
  import opened Transfers
  import opened Counterparties
  import opened Decimal
  import opened Lookalike
  import opened Materialize
  import opened CoreSync
  import Fetch

  // ---- What a transfer brings ----

  /** The amount as the provider writes it. */
  function AmountText(tx: EnhancedTransaction, i: nat): string
    requires i < TransferCount(tx)
  {
    if i < |tx.native| then tx.native[i].amount else tx.token[i - |tx.native|].amount
  }

  /** In transfer `i` address `c` sent the focal wallet nothing, or dust. */
  ghost predicate Injects(p: CoreSyncParams, tx: EnhancedTransaction, i: nat, c: Address)
    requires i < TransferCount(tx)
  {
    Moves(tx, i, c, TrimSpace(p.focal)) && Counts(tx, i) && (ZeroText(AmountText(tx, i)) || p.classify(Rows(tx)[i]) == DustTrue)
  }

  ghost function InjectionsIn(p: CoreSyncParams, tx: EnhancedTransaction, c: Address): set<nat> {
    set i: nat | i < TransferCount(tx) && Injects(p, tx, i, c)
  }

  /** How often `c` did so in the scan window. */
  ghost function Injections(p: CoreSyncParams, h: seq<EnhancedTransaction>, c: Address): nat {
    if h == [] then 0
    else
      var before, tx := Injections(p, h[..|h| - 1], c), h[|h| - 1];
      if p.scanStart <= tx.time < p.scanEnd then before + |InjectionsIn(p, tx, c)| else before
  }

  // ---- Who is imitated ----

  /** The focal wallet paid `c` in the baseline window. */
  ghost predicate Paid(p: CoreSyncParams, h: seq<EnhancedTransaction>, c: Address) {
    exists tx, i: nat :: tx in h && p.baselineStart <= tx.time < p.baselineEnd && i < TransferCount(tx) && IsPayment(p, tx, i, c)
  }

  /** Of all it paid, `m` is the one that `a` resembles most, the first in byte order if there are several. */
  ghost predicate Imitates(p: CoreSyncParams, h: seq<EnhancedTransaction>, a: Address, m: Address) {
    && Paid(p, h, m) && Resembles(a, m, p.rule)
    && forall n :: Paid(p, h, n) && Resembles(a, n, p.rule) ==>
         Score(a, n) < Score(a, m) || (Score(a, n) == Score(a, m) && LexLeq(m, n))
  }

  // ---- What a candidate records ----

  /** `x` carries what the provider says of transfer `i`. */
  ghost predicate Cites(p: CoreSyncParams, tx: EnhancedTransaction, i: nat, x: PoisoningCandidate)
    requires i < TransferCount(tx)
  {
    && x.signature == tx.signature && x.index == i && x.blockTime == tx.time
    && x.mint == (if i < |tx.native| then "" else tx.token[i - |tx.native|].mint)
    && x.amountRaw == (if i < |tx.native| then tx.native[i].amount else TrimSpace(tx.token[i - |tx.native|].amount))
    && (x.isZeroValue <==> ZeroText(AmountText(tx, i))) && (x.isDust <==> p.classify(Rows(tx)[i]) == DustTrue)
    && x.isInbound && x.isNewCounterparty && !x.incompleteWindow && x.unknownGateReason == "" && x.matchRuleVersion == "phase1-v1"
  }

  /** The age of the imitated payment, also in whole days. */
  predicate Fresh(p: CoreSyncParams, x: PoisoningCandidate) {
    && 0 < x.blockTime - x.legitLastSeenAt <= p.recencyDays * 86400
    && x.recencyDays * 86400 <= x.blockTime - x.legitLastSeenAt < x.recencyDays * 86400 + 86400
  }

  /** Transfer `i` is a poisoning and `x` records it: an address the wallet had never met sent it nothing or dust, often
      enough, and resembles another address that the wallet had paid not long before. */
  ghost predicate Poisons(p: CoreSyncParams, h: seq<EnhancedTransaction>, tx: EnhancedTransaction, i: nat, x: PoisoningCandidate)
    requires i < TransferCount(tx)
  {
    && Injects(p, tx, i, x.suspicious) && Cites(p, tx, i, x)
    && NeverMetBefore(p, h, x.suspicious)
    && Imitates(p, h, x.suspicious, x.matchedLegit) && x.matchedLegit != x.suspicious
    && LastPaidAt(p, h, x.matchedLegit, x.legitLastSeenAt) && Fresh(p, x)
    && x.repeatInjectionCount == Injections(p, h, x.suspicious) && x.repeatInjectionCount >= p.minInjectionCount
  }

  // ---- The detector finds exactly these ----

  /** The observation that the detector makes of an injection. */
  function ObservationOf(p: CoreSyncParams, tx: EnhancedTransaction, i: nat, c: Address): Observation
    requires i < TransferCount(tx)
  {
    Observation(Classified(Rows(tx)[i], p.classify), Receiver, c)
  }

  lemma AmountFacts(tx: EnhancedTransaction, i: nat)
    requires i < TransferCount(tx) && Counts(tx, i)
    ensures IsAmountZero(Rows(tx)[i].amountRaw).0 <==> ZeroText(AmountText(tx, i))
    ensures Rows(tx)[i].amountRaw == if i < |tx.native| then tx.native[i].amount else TrimSpace(tx.token[i - |tx.native|].amount)
    ensures Rows(tx)[i].mint == if i < |tx.native| then "" else tx.token[i - |tx.native|].mint
  {
    RowsAreRecorded(tx);
    CountsMeansResolved(tx, i);
    hide Rows, DigitsOnly;
    assert Records(tx, i, Rows(tx)[i]);
    ZeroMeaning(Rows(tx)[i].amountRaw);
    hide IsAmountZero;
  }

  /** A mapped inbound row that qualifies is an injection from its source, and conversely. */
  lemma InjectionIsMapped(p: CoreSyncParams, tx: EnhancedTransaction, i: nat, c: Address)
    requires ValidCoreParams(p) && i < TransferCount(tx)
    ensures var row := Rows(tx)[i];
            Injects(p, tx, i, c) <==>
              && MapWalletRelation(p.focal, row) == Some(Mapping(Receiver, c)) && row.eligible
              && (IsAmountZero(row.amountRaw).0 || p.classify(row) == DustTrue)
  {
    RowFacts(tx, i);
    MappingIsExact(p.focal, Rows(tx)[i], c);
    if Counts(tx, i) { AmountFacts(tx, i); }
    if Counts(tx, i) && Moves(tx, i, c, TrimSpace(p.focal)) { CountedOwners(tx, i, c, TrimSpace(p.focal)); }
    hide Rows, Moves, Counts, IsAmountZero, ZeroText, AmountText;
  }

  lemma CountedOwners(tx: EnhancedTransaction, i: nat, a: Address, b: Address)
    requires i < TransferCount(tx) && Counts(tx, i) && Moves(tx, i, a, b)
    ensures a != "" && b != "" && a != b
  {
  }

  /** The detector's test on an observation of row `i` is that of the transfer. */
  lemma KnownIsInjection(p: CoreSyncParams, tx: EnhancedTransaction, i: nat, c: Address)
    requires ValidCoreParams(p) && i < TransferCount(tx)
    ensures var m := MapWalletRelation(p.focal, Rows(tx)[i]);
            Injects(p, tx, i, c) <==>
              m.Some? && KnownFrom(c)(Observation(Classified(Rows(tx)[i], p.classify), m.value.relation, m.value.counterparty))
  {
    InjectionIsMapped(p, tx, i, c);
    RowFacts(tx, i);
    MappingIsExact(p.focal, Rows(tx)[i], c);
    if Counts(tx, i) { CountsMeansResolved(tx, i); }
    hide Rows, MapWalletRelation, Injects, Counts, Resolves, Moves;
  }

  ghost function InjectionsUpTo(p: CoreSyncParams, tx: EnhancedTransaction, c: Address, n: nat): set<nat>
    requires n <= TransferCount(tx)
  {
    set i: nat | i < n && Injects(p, tx, i, c)
  }

  lemma {:induction false} KnownUpTo(p: CoreSyncParams, tx: EnhancedTransaction, c: Address, n: nat)
    requires ValidCoreParams(p) && n <= TransferCount(tx)
    ensures |ClassifiedRows(tx, p.classify)| == TransferCount(tx)
    ensures Known(ObservationsOf(p.focal, ClassifiedRows(tx, p.classify)[..n]), c) == |InjectionsUpTo(p, tx, c, n)|
  {
    hide Rows, Injects, MapWalletRelation, KnownFrom;
    var rows := ClassifiedRows(tx, p.classify);
    if n == 0 {
      assert InjectionsUpTo(p, tx, c, 0) == {} && rows[..0] == [];
    } else {
      KnownUpTo(p, tx, c, n - 1);
      KnownIsInjection(p, tx, n - 1, c);
      SameMapping(p.focal, Rows(tx)[n - 1], p.classify);
      assert rows[..n][..n - 1] == rows[..n - 1] && rows[n - 1] == Classified(Rows(tx)[n - 1], p.classify);
      assert InjectionsUpTo(p, tx, c, n) == InjectionsUpTo(p, tx, c, n - 1) + if Injects(p, tx, n - 1, c) then {n - 1} else {};
      ObservedSnoc(p.focal, rows, n, c);
    }
  }

  lemma ObservedSnoc(focal: Address, rows: seq<NormalizedTransfer>, n: nat, c: Address)
    requires 0 < n <= |rows|
    ensures var m, before := MapWalletRelation(focal, rows[n - 1]), Known(ObservationsOf(focal, rows[..n - 1]), c);
            Known(ObservationsOf(focal, rows[..n]), c)
            == if m.Some? && KnownFrom(c)(Observation(rows[n - 1], m.value.relation, m.value.counterparty)) then before + 1 else before
  {
    hide MapWalletRelation, KnownFrom;
    assert rows[..n][..n - 1] == rows[..n - 1];
    var m := MapWalletRelation(focal, rows[n - 1]);
    if m.Some? { CountSnoc(ObservationsOf(focal, rows[..n - 1]), Observation(rows[n - 1], m.value.relation, m.value.counterparty), KnownFrom(c)); }
  }

  /** The detector counts the injections of the scan window. */
  lemma {:induction false} KnownIsInjections(p: CoreSyncParams, h: seq<EnhancedTransaction>, c: Address)
    requires ValidCoreParams(p)
    ensures Known(TrueScan(p, h), c) == Injections(p, h, c)
  {
    hide ClassifiedRows, InjectionsIn, KnownFrom;
    if h == [] {
      assert TrueScan(p, h) == [];
    } else {
      var init, tx := h[..|h| - 1], h[|h| - 1];
      KnownIsInjections(p, init, c);
      if p.scanStart <= tx.time < p.scanEnd {
        var before := Fetch.Window(init, p.scanStart, p.scanEnd);
        KnownInOne(p, tx, c);
        TransfersOfAppend(before, [tx], p.classify);
        ObservationsOfAppend(p.focal, TransfersOf(before, p.classify), TransfersOf([tx], p.classify));
        CountAppend(Observed(p, before), Observed(p, [tx]), KnownFrom(c));
      }
    }
  }

  lemma KnownInOne(p: CoreSyncParams, tx: EnhancedTransaction, c: Address)
    requires ValidCoreParams(p)
    ensures Known(Observed(p, [tx]), c) == |InjectionsIn(p, tx, c)|
  {
    hide Injects, KnownFrom;
    var rows := ClassifiedRows(tx, p.classify);
    KnownUpTo(p, tx, c, TransferCount(tx));
    hide ClassifiedRows;
    assert [tx][..0] == [] && TransfersOf([], p.classify) == [] && TransfersOf([tx], p.classify) == rows;
    assert rows[..|rows|] == rows;
    assert InjectionsIn(p, tx, c) == InjectionsUpTo(p, tx, c, TransferCount(tx));
  }

  /** Legitimate addresses are those that were paid. */
  lemma LegitIsPaid(p: CoreSyncParams, h: seq<EnhancedTransaction>, c: Address)
    requires ValidCoreParams(p)
    ensures c in LegitSet(TrueBaseline(p, h)) <==> Paid(p, h, c)
  {
    hide TrueBaseline, IsLegit, IsPayment, MappedAddress;
    if c in LegitSet(TrueBaseline(p, h)) {
      var o :| o in TrueBaseline(p, h) && IsLegit(o) && o.counterparty == c;
      LegitObservationIsPayment(p, h, o);
    }
    if Paid(p, h, c) {
      var tx, i: nat :| tx in h && p.baselineStart <= tx.time < p.baselineEnd && i < TransferCount(tx) && IsPayment(p, tx, i, c);
      PayeeIsMapped(p, tx, i, c);
      var o := PaymentIsLegitObservation(p, h, c, tx, i);
    }
  }

  lemma BestIsImitated(p: CoreSyncParams, h: seq<EnhancedTransaction>, a: Address, m: Address)
    requires ValidCoreParams(p)
    ensures IsBest(a, LegitSet(TrueBaseline(p, h)), p.rule, m) <==> Imitates(p, h, a, m)
  {
    hide LegitSet, TrueBaseline, Paid, Resembles, Score;
    forall n ensures n in LegitSet(TrueBaseline(p, h)) <==> Paid(p, h, n) { LegitIsPaid(p, h, n); }
  }

  lemma OneLastPayment(p: CoreSyncParams, h: seq<EnhancedTransaction>, c: Address, s: int, t: int)
    requires LastPaidAt(p, h, c, s) && LastPaidAt(p, h, c, t)
    ensures s == t
  {
    hide IsPayment;
  }

  lemma WholeDays(legitAt: int, at: int, days: int)
    requires legitAt > ZERO_TIME && legitAt < at
    ensures AgeInDays(legitAt, at) == days <==> days * 86400 <= at - legitAt < days * 86400 + 86400
  {
  }

  /** What the detector asks of an inbound observation besides the observation itself. */
  ghost predicate Suspects(p: CoreSyncParams, h: seq<EnhancedTransaction>, c: Address, m: Address, at: int) {
    && NeverMetBefore(p, h, c) && Imitates(p, h, c, m) && m != c && Injections(p, h, c) >= p.minInjectionCount
    && exists t :: LastPaidAt(p, h, m, t) && 0 < at - t <= p.recencyDays * 86400
  }

  /** The match of an observation is the address it imitates, and its time that of the last payment. */
  lemma MatchIsImitated(p: CoreSyncParams, h: seq<EnhancedTransaction>, o: Observation)
    requires ValidCoreParams(p)
    ensures var b := TrueBaseline(p, h);
            var m := MatchOf(b, DetectorParams(p, true), o);
            && (forall n :: Imitates(p, h, o.counterparty, n) <==> n != "" && n == m)
            && (m != "" ==> LastLegit(b, m) > ZERO_TIME && forall t :: LastPaidAt(p, h, m, t) <==> t == LastLegit(b, m))
  {
    var b, d := TrueBaseline(p, h), DetectorParams(p, true);
    var m := MatchOf(b, d, o);
    MatchDecides(b, d, o);
    hide TrueBaseline, MatchOf;
    forall n ensures IsBest(o.counterparty, LegitSet(b), p.rule, n) <==> Imitates(p, h, o.counterparty, n) { BestIsImitated(p, h, o.counterparty, n); }
    if m != "" {
      assert IsBest(o.counterparty, LegitSet(b), p.rule, m);
      LastLegitMeaning(b, m);
      LastLegitIsLastPayment(p, h, m);
      hide LegitSet, Imitates, LastPaidAt, LastLegit;
      forall t | LastPaidAt(p, h, m, t) ensures t == LastLegit(b, m) { OneLastPayment(p, h, m, t, LastLegit(b, m)); }
    }
  }

  /** The detector's own account of imitation. */
  lemma MatchedImitates(baseline: seq<Observation>, d: MaterializeParams, o: Observation)
    requires !Blank(o.counterparty)
    ensures var m := MatchOf(baseline, d, o);
            Materialize.Imitates(baseline, d, o) <==>
              m != "" && 0 < o.transfer.blockTime - LastLegit(baseline, m) <= d.recencyDays * 86400 && o.counterparty != m
  {
    MatchDecides(baseline, d, o);
    hide MatchOf, LegitSet, LastLegit;
  }

  /** What is left to ask of an observation that qualifies in itself. */
  lemma QualifiedEmits(baseline: seq<Observation>, scan: seq<Observation>, d: MaterializeParams, o: Observation)
    requires o.relation == Receiver && o.transfer.status == Resolved && o.transfer.eligible && SupportedAsset(o.transfer.assetType)
    requires (IsAmountZero(o.transfer.amountRaw).0 || o.transfer.dust == DustTrue) && d.baselineComplete
    ensures Emits(baseline, scan, d, o) <==>
              && !SeenInBaseline(baseline, o.counterparty) && Materialize.Imitates(baseline, d, o)
              && Known(scan, o.counterparty) >= d.minInjectionCount
  {
  }

  /** There is one address to suspect of being imitated: the match. */
  lemma SuspectIsMatch(p: CoreSyncParams, h: seq<EnhancedTransaction>, o: Observation, n: Address)
    requires ValidCoreParams(p)
    ensures var b := TrueBaseline(p, h);
            var m := MatchOf(b, DetectorParams(p, true), o);
            Suspects(p, h, o.counterparty, n, o.transfer.blockTime) <==>
              && n == m && m != "" && m != o.counterparty && 0 < o.transfer.blockTime - LastLegit(b, m) <= p.recencyDays * 86400
              && NeverMetBefore(p, h, o.counterparty) && Injections(p, h, o.counterparty) >= p.minInjectionCount
  {
    MatchIsImitated(p, h, o);
    hide TrueBaseline, Imitates, NeverMetBefore, LastPaidAt, LastLegit, MatchOf, Injections, DetectorParams;
    var b := TrueBaseline(p, h);
    var m := MatchOf(b, DetectorParams(p, true), o);
    if m != "" { assert LastPaidAt(p, h, m, LastLegit(b, m)); }
  }

  lemma EmitsIsSuspects(p: CoreSyncParams, h: seq<EnhancedTransaction>, o: Observation)
    requires ValidCoreParams(p) && MappedAddress(p, o.counterparty)
    requires o.relation == Receiver && o.transfer.status == Resolved && o.transfer.eligible && SupportedAsset(o.transfer.assetType)
    requires IsAmountZero(o.transfer.amountRaw).0 || o.transfer.dust == DustTrue
    ensures var b, d := TrueBaseline(p, h), DetectorParams(p, true);
            && (Emits(b, TrueScan(p, h), d, o) <==> exists m :: Suspects(p, h, o.counterparty, m, o.transfer.blockTime))
            && (forall m :: Suspects(p, h, o.counterparty, m, o.transfer.blockTime) ==>
                  m == MatchOf(b, d, o) && LastPaidAt(p, h, m, LastLegit(b, m)) && LastLegit(b, m) > ZERO_TIME)
  {
    var b, d := TrueBaseline(p, h), DetectorParams(p, true);
    UnseenMeansNeverMet(p, h, o.counterparty);
    KnownIsInjections(p, h, o.counterparty);
    MatchIsImitated(p, h, o);
    MatchedImitates(b, d, o);
    QualifiedEmits(b, TrueScan(p, h), d, o);
    forall n ensures Suspects(p, h, o.counterparty, n, o.transfer.blockTime) <==>
                       && n == MatchOf(b, d, o) && n != "" && n != o.counterparty
                       && 0 < o.transfer.blockTime - LastLegit(b, n) <= p.recencyDays * 86400
                       && NeverMetBefore(p, h, o.counterparty) && Injections(p, h, o.counterparty) >= p.minInjectionCount
    {
      SuspectIsMatch(p, h, o, n);
    }
    hide Suspects, Emits, TrueBaseline, TrueScan, Imitates, Materialize.Imitates, NeverMetBefore, LastPaidAt, SeenInBaseline, LastLegit, Known,
         MatchOf, IsAmountZero, SupportedAsset, Injections, Blank;
  }

  /** What an injection's observation is to the detector. */
  lemma InjectionObserved(p: CoreSyncParams, tx: EnhancedTransaction, i: nat, c: Address)
    requires ValidCoreParams(p) && i < TransferCount(tx) && Injects(p, tx, i, c)
    ensures var o := ObservationOf(p, tx, i, c);
            && MappedAddress(p, c) && o.transfer.status == Resolved && o.transfer.eligible && SupportedAsset(o.transfer.assetType)
            && (IsAmountZero(o.transfer.amountRaw).0 || o.transfer.dust == DustTrue) && o.transfer.blockTime == tx.time
            && MapWalletRelation(p.focal, Rows(tx)[i]) == Some(Mapping(Receiver, c))
  {
    InjectionIsMapped(p, tx, i, c);
    MappingIsExact(p.focal, Rows(tx)[i], c);
    RowFacts(tx, i);
    CountsMeansResolved(tx, i);
    hide Rows, MapWalletRelation, Counts, Resolves, Moves, IsAmountZero, ZeroText, AmountText;
  }

  /** What the observation of an injection says of its transfer. */
  lemma CitedFields(p: CoreSyncParams, tx: EnhancedTransaction, i: nat, c: Address)
    requires i < TransferCount(tx) && Injects(p, tx, i, c)
    ensures var tr := ObservationOf(p, tx, i, c).transfer;
            && tr.signature == tx.signature && tr.index == i && tr.blockTime == tx.time && tr.dust == p.classify(Rows(tx)[i])
            && tr.mint == (if i < |tx.native| then "" else tx.token[i - |tx.native|].mint)
            && tr.amountRaw == (if i < |tx.native| then tx.native[i].amount else TrimSpace(tx.token[i - |tx.native|].amount))
            && (IsAmountZero(tr.amountRaw).0 <==> ZeroText(AmountText(tx, i)))
  {
    RowFacts(tx, i);
    AmountFacts(tx, i);
    hide Rows, IsAmountZero, ZeroText, AmountText, Counts, Moves;
  }

  lemma CitesFields(p: CoreSyncParams, tx: EnhancedTransaction, i: nat, c: Address, x: PoisoningCandidate)
    requires i < TransferCount(tx) && Injects(p, tx, i, c)
    ensures var tr := ObservationOf(p, tx, i, c).transfer;
            Cites(p, tx, i, x) <==>
              && x.signature == tr.signature && x.index == tr.index && x.blockTime == tr.blockTime && x.mint == tr.mint && x.amountRaw == tr.amountRaw
              && x.isZeroValue == IsAmountZero(tr.amountRaw).0 && x.isDust == (tr.dust == DustTrue)
              && x.isInbound && x.isNewCounterparty && !x.incompleteWindow && x.unknownGateReason == "" && x.matchRuleVersion == "phase1-v1"
  {
    CitedFields(p, tx, i, c);
    hide Injects, ObservationOf, IsAmountZero, ZeroText, AmountText, Rows;
  }

  /** A record equals the one made of an observation when their fields do. */
  lemma RecordFields(baseline: seq<Observation>, scan: seq<Observation>, d: MaterializeParams, o: Observation, x: PoisoningCandidate)
    ensures var m := MatchOf(baseline, d, o);
            x == CandidateOf(baseline, scan, d, o) <==>
              && x.signature == o.transfer.signature && x.index == o.transfer.index && x.suspicious == o.counterparty && x.matchedLegit == m
              && x.mint == o.transfer.mint && x.amountRaw == o.transfer.amountRaw && x.blockTime == o.transfer.blockTime
              && x.isZeroValue == IsAmountZero(o.transfer.amountRaw).0 && x.isDust == (o.transfer.dust == DustTrue)
              && x.isNewCounterparty && x.isInbound && x.legitLastSeenAt == LastLegit(baseline, m)
              && x.recencyDays == AgeInDays(LastLegit(baseline, m), o.transfer.blockTime) && x.repeatInjectionCount == Known(scan, o.counterparty)
              && !x.incompleteWindow && x.unknownGateReason == "" && x.matchRuleVersion == "phase1-v1"
  {
    hide MatchOf, LastLegit, AgeInDays, Known, IsAmountZero;
  }

  /** The record made of an injection's observation cites the transfer, and nothing else does. */
  lemma RecordCites(p: CoreSyncParams, h: seq<EnhancedTransaction>, tx: EnhancedTransaction, i: nat, c: Address, x: PoisoningCandidate)
    requires ValidCoreParams(p) && i < TransferCount(tx) && Injects(p, tx, i, c)
    requires LastLegit(TrueBaseline(p, h), MatchOf(TrueBaseline(p, h), DetectorParams(p, true), ObservationOf(p, tx, i, c))) > ZERO_TIME
    requires LastLegit(TrueBaseline(p, h), MatchOf(TrueBaseline(p, h), DetectorParams(p, true), ObservationOf(p, tx, i, c))) < tx.time
    ensures var b, d, o := TrueBaseline(p, h), DetectorParams(p, true), ObservationOf(p, tx, i, c);
            var m := MatchOf(b, d, o);
            x == CandidateOf(b, TrueScan(p, h), d, o) <==>
              && x.suspicious == c && Cites(p, tx, i, x) && x.matchedLegit == m && x.legitLastSeenAt == LastLegit(b, m)
              && x.recencyDays * 86400 <= tx.time - LastLegit(b, m) < x.recencyDays * 86400 + 86400
              && x.repeatInjectionCount == Injections(p, h, c)
  {
    var b, d, o := TrueBaseline(p, h), DetectorParams(p, true), ObservationOf(p, tx, i, c);
    CitesFields(p, tx, i, c, x);
    CitedFields(p, tx, i, c);
    KnownIsInjections(p, h, c);
    RecordFields(b, TrueScan(p, h), d, o, x);
    WholeDays(LastLegit(b, MatchOf(b, d, o)), tx.time, x.recencyDays);
    hide CandidateOf, Cites, Rows, IsAmountZero, ZeroText, AmountText, LastLegit, MatchOf, Known, TrueBaseline, TrueScan, Injects, DetectorParams, AgeInDays;
  }

  /** Whom an emitted observation imitates. */
  lemma EmissionMatched(p: CoreSyncParams, h: seq<EnhancedTransaction>, tx: EnhancedTransaction, i: nat, c: Address) returns (m: Address)
    requires ValidCoreParams(p) && i < TransferCount(tx) && Injects(p, tx, i, c)
    requires Emits(TrueBaseline(p, h), TrueScan(p, h), DetectorParams(p, true), ObservationOf(p, tx, i, c))
    ensures m == MatchOf(TrueBaseline(p, h), DetectorParams(p, true), ObservationOf(p, tx, i, c))
    ensures var at := LastLegit(TrueBaseline(p, h), m);
            ZERO_TIME < at && 0 < tx.time - at <= p.recencyDays * 86400 && LastPaidAt(p, h, m, at)
    ensures NeverMetBefore(p, h, c) && Imitates(p, h, c, m) && m != c && Injections(p, h, c) >= p.minInjectionCount
  {
    InjectionObserved(p, tx, i, c);
    hide TrueBaseline, TrueScan, Emits, Injects, Imitates, NeverMetBefore, LastPaidAt, LastLegit, MatchOf, Injections,
         IsAmountZero, MapWalletRelation, Rows, SupportedAsset, MappedAddress, Counts, Moves, DetectorParams;
    m := SuspectMatched(p, h, ObservationOf(p, tx, i, c));
  }

  lemma SuspectMatched(p: CoreSyncParams, h: seq<EnhancedTransaction>, o: Observation) returns (m: Address)
    requires ValidCoreParams(p) && MappedAddress(p, o.counterparty)
    requires o.relation == Receiver && o.transfer.status == Resolved && o.transfer.eligible && SupportedAsset(o.transfer.assetType)
    requires IsAmountZero(o.transfer.amountRaw).0 || o.transfer.dust == DustTrue
    requires Emits(TrueBaseline(p, h), TrueScan(p, h), DetectorParams(p, true), o)
    ensures m == MatchOf(TrueBaseline(p, h), DetectorParams(p, true), o)
    ensures var at := LastLegit(TrueBaseline(p, h), m);
            ZERO_TIME < at && 0 < o.transfer.blockTime - at <= p.recencyDays * 86400 && LastPaidAt(p, h, m, at)
    ensures NeverMetBefore(p, h, o.counterparty) && Imitates(p, h, o.counterparty, m) && m != o.counterparty
            && Injections(p, h, o.counterparty) >= p.minInjectionCount
  {
    hide TrueBaseline, TrueScan, Emits, Imitates, NeverMetBefore, LastPaidAt, LastLegit, MatchOf, Injections, IsAmountZero,
         SupportedAsset, MappedAddress, DetectorParams;
    EmitsIsSuspects(p, h, o);
    m :| Suspects(p, h, o.counterparty, m, o.transfer.blockTime);
    OneTime(p, h, m, LastLegit(TrueBaseline(p, h), m), o.transfer.blockTime);
  }

  lemma EmissionPoisons(p: CoreSyncParams, h: seq<EnhancedTransaction>, tx: EnhancedTransaction, i: nat, c: Address, x: PoisoningCandidate)
    requires ValidCoreParams(p) && i < TransferCount(tx) && Injects(p, tx, i, c)
    requires Emits(TrueBaseline(p, h), TrueScan(p, h), DetectorParams(p, true), ObservationOf(p, tx, i, c))
    requires x == CandidateOf(TrueBaseline(p, h), TrueScan(p, h), DetectorParams(p, true), ObservationOf(p, tx, i, c))
    ensures x.suspicious == c && Poisons(p, h, tx, i, x)
  {
    var m := EmissionMatched(p, h, tx, i, c);
    hide Cites, TrueBaseline, TrueScan, Emits, Injects, Imitates, NeverMetBefore, LastPaidAt, LastLegit, MatchOf, Injections, CandidateOf, ObservationOf;
    RecordCites(p, h, tx, i, c, x);
    CitedTime(p, tx, i, x);
  }

  lemma PoisoningEmits(p: CoreSyncParams, h: seq<EnhancedTransaction>, tx: EnhancedTransaction, i: nat, x: PoisoningCandidate)
    requires ValidCoreParams(p) && i < TransferCount(tx) && Poisons(p, h, tx, i, x)
    ensures var b, d, o := TrueBaseline(p, h), DetectorParams(p, true), ObservationOf(p, tx, i, x.suspicious);
            Emits(b, TrueScan(p, h), d, o) && x == CandidateOf(b, TrueScan(p, h), d, o)
  {
    InjectionObserved(p, tx, i, x.suspicious);
    EmitsIsSuspects(p, h, ObservationOf(p, tx, i, x.suspicious));
    hide TrueBaseline, TrueScan, Emits, Injects, Imitates, NeverMetBefore, LastPaidAt, LastLegit, MatchOf, Injections, CandidateOf,
         IsAmountZero, MapWalletRelation, Rows, SupportedAsset, MappedAddress, ZeroText, AmountText;
    CitedTime(p, tx, i, x);
    assert Suspects(p, h, x.suspicious, x.matchedLegit, tx.time);
    OneLastPayment(p, h, x.matchedLegit, x.legitLastSeenAt, LastLegit(TrueBaseline(p, h), x.matchedLegit));
    RecordCites(p, h, tx, i, x.suspicious, x);
  }

  lemma CitedTime(p: CoreSyncParams, tx: EnhancedTransaction, i: nat, x: PoisoningCandidate)
    requires i < TransferCount(tx) && Cites(p, tx, i, x)
    ensures x.blockTime == tx.time
  {
  }

  lemma OneTime(p: CoreSyncParams, h: seq<EnhancedTransaction>, m: Address, t: int, at: int)
    requires LastPaidAt(p, h, m, t) && exists s :: LastPaidAt(p, h, m, s) && 0 < at - s <= p.recencyDays * 86400
    ensures 0 < at - t <= p.recencyDays * 86400
  {
    hide LastPaidAt;
    var s :| LastPaidAt(p, h, m, s) && 0 < at - s <= p.recencyDays * 86400;
    OneLastPayment(p, h, m, s, t);
  }

  /** Only observations of injections are emitted. */
  lemma EmittedIsInjection(p: CoreSyncParams, h: seq<EnhancedTransaction>, o: Observation)
    requires ValidCoreParams(p) && o in TrueScan(p, h) && Emits(TrueBaseline(p, h), TrueScan(p, h), DetectorParams(p, true), o)
    ensures exists tx, i: nat :: tx in h && p.scanStart <= tx.time < p.scanEnd && i < TransferCount(tx)
                              && Injects(p, tx, i, o.counterparty) && o == ObservationOf(p, tx, i, o.counterparty)
  {
    ObservedMembers(p, h, p.scanStart, p.scanEnd, o);
    hide Fetch.Window, Observed, Rows, MapWalletRelation, Injects, IsAmountZero;
    var tx :| tx in h && Fetch.InWindow(tx, p.scanStart, p.scanEnd) && o.transfer in ClassifiedRows(tx, p.classify);
    var i :| 0 <= i < |Rows(tx)| && ClassifiedRows(tx, p.classify)[i] == o.transfer;
    assert o.transfer == Classified(Rows(tx)[i], p.classify);
    SameMapping(p.focal, Rows(tx)[i], p.classify);
    InjectionIsMapped(p, tx, i, o.counterparty);
  }

  lemma CandidatePoisons(p: CoreSyncParams, h: seq<EnhancedTransaction>, x: PoisoningCandidate) returns (tx: EnhancedTransaction, i: nat)
    requires ValidCoreParams(p) && x in TrueCandidates(p, h)
    ensures tx in h && p.scanStart <= tx.time < p.scanEnd && i < TransferCount(tx) && Poisons(p, h, tx, i, x)
  {
    var b, scan, d := TrueBaseline(p, h), TrueScan(p, h), DetectorParams(p, true);
    EmittedMembers(b, scan, d, |scan|, x);
    hide TrueBaseline, TrueScan, Emits, CandidateOf, Poisons, Injects, Emitted, ObservationOf;
    var k :| 0 <= k < |scan| && Emits(b, scan, d, scan[k]) && x == CandidateOf(b, scan, d, scan[k]);
    EmittedIsInjection(p, h, scan[k]);
    tx, i :| tx in h && p.scanStart <= tx.time < p.scanEnd && i < TransferCount(tx)
          && Injects(p, tx, i, scan[k].counterparty) && scan[k] == ObservationOf(p, tx, i, scan[k].counterparty);
    EmissionPoisons(p, h, tx, i, scan[k].counterparty, x);
  }

  lemma PoisoningIsCandidate(p: CoreSyncParams, h: seq<EnhancedTransaction>, tx: EnhancedTransaction, i: nat, x: PoisoningCandidate)
    requires ValidCoreParams(p) && tx in h && p.scanStart <= tx.time < p.scanEnd && i < TransferCount(tx) && Poisons(p, h, tx, i, x)
    ensures x in TrueCandidates(p, h)
  {
    var b, scan, d := TrueBaseline(p, h), TrueScan(p, h), DetectorParams(p, true);
    EmittedMembers(b, scan, d, |scan|, x);
    PoisoningEmits(p, h, tx, i, x);
    PoisoningObserved(p, h, tx, i, x);
    hide TrueBaseline, TrueScan, Emits, CandidateOf, Poisons, Emitted, ObservationOf;
    var k :| 0 <= k < |scan| && scan[k] == ObservationOf(p, tx, i, x.suspicious);
  }

  /** The candidates that a history calls for are exactly its poisonings, each as the transfer and the history say. */
  lemma CandidatesArePoisonings(p: CoreSyncParams, h: seq<EnhancedTransaction>, x: PoisoningCandidate)
    requires ValidCoreParams(p)
    ensures x in TrueCandidates(p, h) <==>
              exists tx, i: nat :: tx in h && p.scanStart <= tx.time < p.scanEnd && i < TransferCount(tx) && Poisons(p, h, tx, i, x)
  {
    hide TrueCandidates, Poisons;
    if x in TrueCandidates(p, h) { var tx, i := CandidatePoisons(p, h, x); }
    if tx, i: nat :| tx in h && p.scanStart <= tx.time < p.scanEnd && i < TransferCount(tx) && Poisons(p, h, tx, i, x) {
      PoisoningIsCandidate(p, h, tx, i, x);
    }
  }

  lemma PoisoningObserved(p: CoreSyncParams, h: seq<EnhancedTransaction>, tx: EnhancedTransaction, i: nat, x: PoisoningCandidate)
    requires ValidCoreParams(p) && tx in h && p.scanStart <= tx.time < p.scanEnd && i < TransferCount(tx) && Poisons(p, h, tx, i, x)
    ensures ObservationOf(p, tx, i, x.suspicious) in TrueScan(p, h)
  {
    InjectionObserved(p, tx, i, x.suspicious);
    hide Fetch.Window, Observed, Rows, MapWalletRelation, Injects, IsAmountZero, SupportedAsset, MappedAddress, Imitates, NeverMetBefore, LastPaidAt, Injections, Cites;
    RowIsObserved(p, h, p.scanStart, p.scanEnd, tx, i, Mapping(Receiver, x.suspicious));
  }
}
