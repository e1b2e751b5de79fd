/** From wallet observations to candidates: the indexed detector and the conditions it decides. */
module Materialize {
  import opened Text
  import opened Wrappers
  import opened Arithmetic
  import opened Counting
  import opened Transfers
  import opened Counterparties
  import opened Decimal
  import opened Lookalike
  import opened Reasons
  import opened Detection

  datatype Observation = Observation(transfer: NormalizedTransfer, relation: Relation, counterparty: Address)

  datatype MaterializeParams = MaterializeParams(
    baselineComplete: bool, recencyDays: int, rule: MatchRule, minInjectionCount: int)

  datatype PoisoningCandidate = PoisoningCandidate(
    signature: string, index: nat, suspicious: Address, matchedLegit: Address, mint: string, amountRaw: string,
    blockTime: BlockTime, isZeroValue: bool, isDust: bool, isNewCounterparty: bool, isInbound: bool,
    legitLastSeenAt: int, recencyDays: int, repeatInjectionCount: nat,
    incompleteWindow: bool, unknownGateReason: string, matchRuleVersion: string)

  datatype MaterializationResult = MaterializationResult(
    candidates: seq<PoisoningCandidate>, incompleteWindow: bool, unknownGateReason: string,
    unknownGateBlocks: nat, candidateBlocks: nat)

  const MATCH_RULE_VERSION := "phase1-v1"
  const INVALID_PARAMS := "invalid_candidate_params"
  const SECONDS_PER_DAY := 86400

  predicate ValidRule(recencyDays: int, rule: MatchRule, minInjectionCount: int) {
    recencyDays >= 1 && rule.prefixMin >= 4 && rule.suffixMin >= 4 && rule.singleSideMin >= 6 && minInjectionCount >= 1
  }

  predicate ValidParams(p: MaterializeParams) { ValidRule(p.recencyDays, p.rule, p.minInjectionCount) }

  // ---- Gates ----

  function GateBool(b: bool): GateState { if b then Pass else Fail }

  predicate SupportedAsset(a: AssetType) { a == NativeSOL || a == SPLFungible }

  function GateZeroOrDust(tr: NormalizedTransfer): GateState {
    var (isZero, known) := IsAmountZero(tr.amountRaw);
    if isZero && known then Pass
    else match tr.dust
         case DustTrue => Pass
         case DustFalse => Fail
         case DustUnknown => Unknown
  }

  function GateNewCounterparty(baselineComplete: bool, seen: bool): GateState {
    if !baselineComplete then Unknown else if seen then Fail else Pass
  }

  function GateAddressInequality(suspicious: Address, matched: Address, lookalike: GateState): GateState {
    if lookalike == Unknown then Unknown
    else if lookalike != Pass then Fail
    else if Blank(suspicious) || Blank(matched) then Fail
    else if suspicious == matched then Fail
    else Pass
  }

  function GateMinInjection(known: nat, potential: nat, min: int): GateState {
    var least := if min < 1 then 1 else min;
    if known >= least then Pass else if known + potential < least then Fail else Unknown
  }

  function GateRecency(legitAt: int, suspiciousAt: int, recencyDays: int): GateState {
    if legitAt == ZERO_TIME || suspiciousAt == ZERO_TIME then Unknown
    else if suspiciousAt - legitAt <= 0 then Fail
    else if suspiciousAt - legitAt > recencyDays * SECONDS_PER_DAY then Fail
    else Pass
  }

  function AgeInDays(legitAt: int, suspiciousAt: int): nat {
    if legitAt == ZERO_TIME || suspiciousAt <= legitAt then 0 else (suspiciousAt - legitAt) / SECONDS_PER_DAY
  }

  // ---- The baseline ----

  predicate IsLegit(o: Observation) {
    && o.relation == Sender && !Blank(o.counterparty)
    && o.transfer.status == Resolved && o.transfer.eligible && o.transfer.dust == DustFalse
  }

  /** Some baseline observation involves `c`. */
  ghost predicate SeenInBaseline(baseline: seq<Observation>, c: Address) {
    !Blank(c) && exists o :: o in baseline && o.counterparty == c
  }

  /** The counterparties the wallet really paid. */
  function LegitSet(baseline: seq<Observation>): set<Address> {
    set o | o in baseline && IsLegit(o) :: o.counterparty
  }

  /** The time of the latest legitimate payment to `c`, Go's zero time when there is none. */
  function LastLegit(baseline: seq<Observation>, c: Address): int {
    if baseline == [] then ZERO_TIME
    else
      var o, before := baseline[|baseline| - 1], LastLegit(baseline[..|baseline| - 1], c);
      if IsLegit(o) && o.counterparty == c && o.transfer.blockTime > before then o.transfer.blockTime else before
  }

  /** `t` is the time of a legitimate payment to `c`, and none is later. */
  ghost predicate IsLastLegit(baseline: seq<Observation>, c: Address, t: int) {
    && (exists o :: o in baseline && IsLegit(o) && o.counterparty == c && o.transfer.blockTime == t)
    && (forall o :: o in baseline && IsLegit(o) && o.counterparty == c ==> o.transfer.blockTime <= t)
  }

  lemma {:induction false} LastLegitMeaning(baseline: seq<Observation>, c: Address)
    ensures c in LegitSet(baseline) ==> IsLastLegit(baseline, c, LastLegit(baseline, c)) && LastLegit(baseline, c) > ZERO_TIME
    ensures c !in LegitSet(baseline) ==> LastLegit(baseline, c) == ZERO_TIME
  {
    if baseline != [] {
      var init, o := baseline[..|baseline| - 1], baseline[|baseline| - 1];
      assert baseline == init + [o];
      LastLegitMeaning(init, c);
      assert forall x :: x in baseline <==> x in init || x == o;
    }
  }

  method BuildPreWindowInteractionSet(baseline: seq<Observation>) returns (out: set<Address>)
    ensures forall c :: c in out <==> SeenInBaseline(baseline, c)
  {
    out := {};
    for i := 0 to |baseline|
      invariant forall c :: c in out <==> SeenInBaseline(baseline[..i], c)
    {
      var o := baseline[i];
      assert forall x :: x in baseline[..i + 1] <==> x in baseline[..i] || x == o;
      if Blank(o.counterparty) { continue; }
      out := out + {o.counterparty};
    }
    assert baseline[..|baseline|] == baseline;
  }

  lemma LegitStep(baseline: seq<Observation>, i: nat)
    requires i < |baseline|
    ensures LegitSet(baseline[..i + 1]) == LegitSet(baseline[..i]) + if IsLegit(baseline[i]) then {baseline[i].counterparty} else {}
    ensures forall c :: LastLegit(baseline[..i + 1], c) ==
              var o, before := baseline[i], LastLegit(baseline[..i], c);
              if IsLegit(o) && o.counterparty == c && o.transfer.blockTime > before then o.transfer.blockTime else before
  {
    assert baseline[..i + 1][..i] == baseline[..i];
    assert forall x :: x in baseline[..i + 1] <==> x in baseline[..i] || x == baseline[i];
  }

  method BuildLegitBaseline(baseline: seq<Observation>) returns (out: map<Address, int>)
    ensures forall c :: c in out <==> exists o :: o in baseline && PaysAboveDust(o, c)
    ensures forall o, c :: o in baseline && PaysAboveDust(o, c) ==> o.transfer.blockTime <= out[c]
    ensures out.Keys == LegitSet(baseline)
    ensures forall c :: c in out ==> out[c] == LastLegit(baseline, c)
  {
    out := map[];
    for i := 0 to |baseline|
      invariant out.Keys == LegitSet(baseline[..i])
      invariant forall c :: c in out ==> out[c] == LastLegit(baseline[..i], c)
    {
      var o := baseline[i];
      LegitStep(baseline, i);
      if o.relation != Sender { continue; }
      if Blank(o.counterparty) { continue; }
      if o.transfer.status != Resolved || !o.transfer.eligible { continue; }
      if o.transfer.dust != DustFalse { continue; }
      LastLegitMeaning(baseline[..i], o.counterparty);
      var lastSeen := if o.counterparty in out then out[o.counterparty] else ZERO_TIME;
      if lastSeen == ZERO_TIME || o.transfer.blockTime > lastSeen {
        out := out[o.counterparty := o.transfer.blockTime];
      }
    }
    assert baseline[..|baseline|] == baseline;
    LegitMeaning(baseline);
  }

  /** The wallet pays `c` above dust in an eligible resolved transfer. */
  predicate PaysAboveDust(o: Observation, c: Address) {
    && o.relation == Sender && o.counterparty == c && (exists k :: 0 <= k < |c| && !IsSpace(c[k]))
    && o.transfer.status == Resolved && o.transfer.eligible && o.transfer.dust == DustFalse
  }

  lemma LegitMeaning(baseline: seq<Observation>)
    ensures forall c :: c in LegitSet(baseline) <==> exists o :: o in baseline && PaysAboveDust(o, c)
    ensures forall o, c :: o in baseline && PaysAboveDust(o, c) ==> o.transfer.blockTime <= LastLegit(baseline, c)
  {
    forall o: Observation, c: Address ensures PaysAboveDust(o, c) <==> IsLegit(o) && o.counterparty == c { BlankMeaning(o.counterparty); }
    hide PaysAboveDust, IsLegit;
    forall c ensures c in LegitSet(baseline) <==> exists o :: o in baseline && PaysAboveDust(o, c) {
      LastLegitMeaning(baseline, c);
    }
    forall o, c | o in baseline && PaysAboveDust(o, c) ensures o.transfer.blockTime <= LastLegit(baseline, c) {
      assert c in LegitSet(baseline);
      LastLegitMeaning(baseline, c);
    }
  }

  // ---- The scan ----

  predicate BaseQualifies(o: Observation) {
    o.relation == Receiver && o.transfer.status == Resolved && o.transfer.eligible && SupportedAsset(o.transfer.assetType)
  }

  /** Injections from `c` known to be zero or dust. */
  function KnownFrom(c: Address): Observation -> bool {
    (o: Observation) => BaseQualifies(o) && c != "" && TrimSpace(o.counterparty) == c && GateZeroOrDust(o.transfer) == Pass
  }

  /** Injections from `c` that may turn out to be dust. */
  function PotentialFrom(c: Address): Observation -> bool {
    (o: Observation) => BaseQualifies(o) && c != "" && TrimSpace(o.counterparty) == c && GateZeroOrDust(o.transfer) == Unknown
  }

  /** What counts as an injection from `c`: eligible, resolved, inbound, of a supported asset, and of nothing or dust; with
      dust unknown it may count. */
  lemma InjectionMeaning(o: Observation, c: Address)
    ensures KnownFrom(c)(o) <==>
              && o.relation == Receiver && o.transfer.status == Resolved && o.transfer.eligible && o.transfer.assetType != OtherAsset
              && c != "" && TrimSpace(o.counterparty) == c && (ZeroText(o.transfer.amountRaw) || o.transfer.dust == DustTrue)
    ensures PotentialFrom(c)(o) <==>
              && o.relation == Receiver && o.transfer.status == Resolved && o.transfer.eligible && o.transfer.assetType != OtherAsset
              && c != "" && TrimSpace(o.counterparty) == c && !ZeroText(o.transfer.amountRaw) && o.transfer.dust == DustUnknown
  {
    ZeroMeaning(o.transfer.amountRaw);
    hide ZeroText;
  }

  function Known(scan: seq<Observation>, c: Address): nat { Count(scan, KnownFrom(c)) }

  function Potential(scan: seq<Observation>, c: Address): nat { Count(scan, PotentialFrom(c)) }

  datatype InboundStats = InboundStats(known: nat, potential: nat)

  function StatsOf(stats: map<Address, InboundStats>, c: Address): InboundStats {
    if c in stats then stats[c] else InboundStats(0, 0)
  }

  method BuildInboundStats(scan: seq<Observation>) returns (out: map<Address, InboundStats>)
    ensures forall c :: StatsOf(out, c) == InboundStats(Known(scan, c), Potential(scan, c))
  {
    out := map[];
    for i := 0 to |scan|
      invariant forall c :: StatsOf(out, c) == InboundStats(Known(scan[..i], c), Potential(scan[..i], c))
    {
      var o := scan[i];
      forall c
        ensures Known(scan[..i + 1], c) == Known(scan[..i], c) + if KnownFrom(c)(o) then 1 else 0
        ensures Potential(scan[..i + 1], c) == Potential(scan[..i], c) + if PotentialFrom(c)(o) then 1 else 0
      {
        CountStep(scan, i, KnownFrom(c));
        CountStep(scan, i, PotentialFrom(c));
      }
      if !BaseQualifies(o) { continue; }
      var cp := TrimSpace(o.counterparty);
      if cp == "" { continue; }
      var stats := StatsOf(out, cp);
      match GateZeroOrDust(o.transfer) {
        case Pass => stats := stats.(known := stats.known + 1);
        case Unknown => stats := stats.(potential := stats.potential + 1);
        case Fail =>
      }
      out := out[cp := stats];
    }
    assert scan[..|scan|] == scan;
  }

  // ---- The conditions, stated over the two sequences ----

  /** The legitimate address observation `o` imitates, or the empty address. */
  ghost function MatchOf(baseline: seq<Observation>, p: MaterializeParams, o: Observation): Address {
    BestMatch(o.counterparty, LegitSet(baseline), p.rule)
  }

  /** The imitated address is fresh enough and differs from the suspicious one. */
  ghost predicate Imitates(baseline: seq<Observation>, p: MaterializeParams, o: Observation) {
    exists m :: IsBest(o.counterparty, LegitSet(baseline), p.rule, m)
             && 0 < o.transfer.blockTime - LastLegit(baseline, m) <= p.recencyDays * SECONDS_PER_DAY
             && !Blank(o.counterparty) && o.counterparty != m
  }

  /** The eleven conditions for emitting observation `o`. */
  ghost predicate Emits(baseline: seq<Observation>, scan: seq<Observation>, p: MaterializeParams, o: Observation) {
    && o.transfer.status == Resolved
    && o.transfer.eligible
    && o.transfer.assetType != OtherAsset
    && o.relation == Receiver
    && (IsAmountZero(o.transfer.amountRaw).0 || o.transfer.dust == DustTrue)
    && !SeenInBaseline(baseline, o.counterparty)
    && p.baselineComplete
    && Imitates(baseline, p, o)
    && Known(scan, o.counterparty) >= p.minInjectionCount
  }

  /** Some gate of `o` cannot be decided. */
  ghost predicate Undecided(scan: seq<Observation>, p: MaterializeParams, o: Observation) {
    || !p.baselineComplete
    || (!IsAmountZero(o.transfer.amountRaw).0 && o.transfer.dust == DustUnknown)
    || Known(scan, o.counterparty) < p.minInjectionCount <= Known(scan, o.counterparty) + Potential(scan, o.counterparty)
  }

  ghost function Gates(baseline: seq<Observation>, scan: seq<Observation>, p: MaterializeParams, o: Observation): CandidateGate {
    var m := MatchOf(baseline, p, o);
    var lookalike := if !p.baselineComplete then Unknown else GateBool(m != "");
    CandidateGate(
      GateBool(o.transfer.status == Resolved), GateBool(o.transfer.eligible), GateBool(SupportedAsset(o.transfer.assetType)),
      GateBool(o.relation == Receiver), GateZeroOrDust(o.transfer),
      GateNewCounterparty(p.baselineComplete, SeenInBaseline(baseline, o.counterparty)), GateBool(p.baselineComplete),
      lookalike,
      if !p.baselineComplete then Unknown else if m == "" then Fail
      else GateRecency(LastLegit(baseline, m), o.transfer.blockTime, p.recencyDays),
      GateAddressInequality(o.counterparty, m, lookalike),
      GateMinInjection(Known(scan, o.counterparty), Potential(scan, o.counterparty), p.minInjectionCount))
  }

  lemma LegitNotBlank(baseline: seq<Observation>)
    ensures forall c :: c in LegitSet(baseline) ==> !Blank(c) && c != ""
  {
    assert Blank("");
  }

  lemma AllPassMeans(g: CandidateGate)
    ensures AllPass(g) <==>
      && g.normalizationResolved == Pass && g.poisoningEligible == Pass && g.assetTypeSupported == Pass
      && g.inbound == Pass && g.zeroOrDust == Pass && g.newCounterparty == Pass && g.baselineComplete == Pass
      && g.lookalikeMatch == Pass && g.recencyValid == Pass && g.addressInequality == Pass && g.minInjectionCountMet == Pass
    ensures SomeUnknown(g) <==>
      || g.normalizationResolved == Unknown || g.poisoningEligible == Unknown || g.assetTypeSupported == Unknown
      || g.inbound == Unknown || g.zeroOrDust == Unknown || g.newCounterparty == Unknown || g.baselineComplete == Unknown
      || g.lookalikeMatch == Unknown || g.recencyValid == Unknown || g.addressInequality == Unknown
      || g.minInjectionCountMet == Unknown
  {
    assert g.State(NormalizationResolved) == g.normalizationResolved && g.State(PoisoningEligible) == g.poisoningEligible;
    assert g.State(AssetTypeSupported) == g.assetTypeSupported && g.State(Inbound) == g.inbound;
    assert g.State(ZeroOrDust) == g.zeroOrDust && g.State(NewCounterparty) == g.newCounterparty;
    assert g.State(BaselineComplete) == g.baselineComplete && g.State(LookalikeMatch) == g.lookalikeMatch;
    assert g.State(RecencyValid) == g.recencyValid && g.State(AddressInequality) == g.addressInequality;
    assert g.State(MinInjectionCountMet) == g.minInjectionCountMet;
  }

  /** The match gate finds an imitated address exactly when there is one. */
  lemma MatchDecides(baseline: seq<Observation>, p: MaterializeParams, o: Observation)
    ensures var m := MatchOf(baseline, p, o);
            forall n :: IsBest(o.counterparty, LegitSet(baseline), p.rule, n) <==> n != "" && n == m
  {
    LegitNotBlank(baseline);
    var m := MatchOf(baseline, p, o);
    forall n | IsBest(o.counterparty, LegitSet(baseline), p.rule, n) ensures n != "" && n == m {
      BestUnique(o.counterparty, LegitSet(baseline), p.rule, m, n);
    }
  }

  lemma ImitationGates(baseline: seq<Observation>, scan: seq<Observation>, p: MaterializeParams, o: Observation)
    requires p.baselineComplete
    ensures var g := Gates(baseline, scan, p, o);
            && (Imitates(baseline, p, o) <==> g.lookalikeMatch == Pass && g.recencyValid == Pass && g.addressInequality == Pass)
            && g.lookalikeMatch != Unknown && g.recencyValid != Unknown && g.addressInequality != Unknown
  {
    MatchDecides(baseline, p, o);
    LegitNotBlank(baseline);
    var m := MatchOf(baseline, p, o);
    LastLegitMeaning(baseline, m);
  }

  /** All gates pass exactly when the eleven conditions hold; a gate is unknown exactly when something is undecided. */
  lemma GatesDecide(baseline: seq<Observation>, scan: seq<Observation>, p: MaterializeParams, o: Observation)
    requires ValidParams(p)
    ensures AllPass(Gates(baseline, scan, p, o)) <==> Emits(baseline, scan, p, o)
    ensures SomeUnknown(Gates(baseline, scan, p, o)) <==> Undecided(scan, p, o)
  {
    AllPassMeans(Gates(baseline, scan, p, o));
    if p.baselineComplete { ImitationGates(baseline, scan, p, o); }
  }

  /** Which gates an undecided observation names: dust that is not known, an injection count that unknown dust may yet
      raise to the minimum, and everything that needs the baseline when that is incomplete. */
  lemma UnknownGateNames(baseline: seq<Observation>, scan: seq<Observation>, p: MaterializeParams, o: Observation, w: string)
    requires ValidParams(p)
    ensures w in UnknownLabels(Gates(baseline, scan, p, o)) <==>
      || (w == "zero_or_dust" && !IsAmountZero(o.transfer.amountRaw).0 && o.transfer.dust == DustUnknown)
      || (w == "min_injection_count_met"
          && Known(scan, o.counterparty) < p.minInjectionCount <= Known(scan, o.counterparty) + Potential(scan, o.counterparty))
      || (w in {"is_new_counterparty", "lookalike_match", "recency_valid", "address_inequality"} && !p.baselineComplete)
  {
    UndecidedGates(baseline, scan, p, o);
    UnknownNames(Gates(baseline, scan, p, o), w);
    hide Gates, IsAmountZero, UnknownLabels, Label;
  }

  /** The states of the gates that can be unknown; the others never are. */
  lemma UndecidedGates(baseline: seq<Observation>, scan: seq<Observation>, p: MaterializeParams, o: Observation)
    requires ValidParams(p)
    ensures var g := Gates(baseline, scan, p, o);
            && (g.zeroOrDust == Unknown <==> !IsAmountZero(o.transfer.amountRaw).0 && o.transfer.dust == DustUnknown)
            && (g.minInjectionCountMet == Unknown <==>
                  Known(scan, o.counterparty) < p.minInjectionCount <= Known(scan, o.counterparty) + Potential(scan, o.counterparty))
            && (g.newCounterparty == Unknown <==> !p.baselineComplete) && (g.lookalikeMatch == Unknown <==> !p.baselineComplete)
            && (g.recencyValid == Unknown <==> !p.baselineComplete) && (g.addressInequality == Unknown <==> !p.baselineComplete)
            && g.normalizationResolved != Unknown && g.poisoningEligible != Unknown && g.assetTypeSupported != Unknown
            && g.inbound != Unknown && g.baselineComplete != Unknown
  {
    if p.baselineComplete { ImitationGates(baseline, scan, p, o); }
  }

  // ---- The detector ----

  /** The record emitted for an observation that meets the conditions. */
  ghost function CandidateOf(baseline: seq<Observation>, scan: seq<Observation>, p: MaterializeParams, o: Observation): PoisoningCandidate {
    var m := MatchOf(baseline, p, o);
    PoisoningCandidate(
      o.transfer.signature, o.transfer.index, o.counterparty, m, o.transfer.mint, o.transfer.amountRaw,
      o.transfer.blockTime, IsAmountZero(o.transfer.amountRaw).0, o.transfer.dust == DustTrue, true, true,
      LastLegit(baseline, m), AgeInDays(LastLegit(baseline, m), o.transfer.blockTime), Known(scan, o.counterparty),
      false, "", MATCH_RULE_VERSION)
  }

  /** The candidates of the first `n` observations, in scan order. */
  ghost function Emitted(baseline: seq<Observation>, scan: seq<Observation>, p: MaterializeParams, n: nat): seq<PoisoningCandidate>
    requires n <= |scan|
  {
    if n == 0 then []
    else
      var o := scan[n - 1];
      Emitted(baseline, scan, p, n - 1) + (if Emits(baseline, scan, p, o) then [CandidateOf(baseline, scan, p, o)] else [])
  }

  /** How many of the first `n` observations are undecided. */
  ghost function UndecidedCount(scan: seq<Observation>, p: MaterializeParams, n: nat): nat
    requires n <= |scan|
  {
    if n == 0 then 0 else UndecidedCount(scan, p, n - 1) + if Undecided(scan, p, scan[n - 1]) then 1 else 0
  }

  /** Every gate that was unknown for one of the first `n` observations. */
  ghost function UnknownUpTo(baseline: seq<Observation>, scan: seq<Observation>, p: MaterializeParams, n: nat): set<string>
    requires n <= |scan|
  {
    if n == 0 then {} else UnknownUpTo(baseline, scan, p, n - 1) + UnknownLabels(Gates(baseline, scan, p, scan[n - 1]))
  }

  /** Finds the imitated address and judges how long ago it was paid. */
  method EvaluateLookalikeAndRecency(o: Observation, legit: map<Address, int>, p: MaterializeParams, ghost baseline: seq<Observation>, ghost scan: seq<Observation>)
    returns (matched: Address, days: nat, recency: GateState, lookalike: GateState)
    requires legit.Keys == LegitSet(baseline) && forall c :: c in legit ==> legit[c] == LastLegit(baseline, c)
    ensures lookalike == Gates(baseline, scan, p, o).lookalikeMatch && recency == Gates(baseline, scan, p, o).recencyValid
    ensures p.baselineComplete ==> matched == MatchOf(baseline, p, o)
    ensures lookalike == Pass && recency == Pass ==> matched in legit && days == AgeInDays(legit[matched], o.transfer.blockTime)
    ensures lookalike != Pass ==> matched == ""
  {
    LegitNotBlank(baseline);
    if !p.baselineComplete { return "", 0, Unknown, Unknown; }
    matched := FindBestLookalike(o.counterparty, legit.Keys, p.rule);
    if matched == "" { return "", 0, Fail, Fail; }
    var legitAt, suspiciousAt := legit[matched], o.transfer.blockTime;
    if legitAt == ZERO_TIME || suspiciousAt == ZERO_TIME { return matched, 0, Unknown, Pass; }
    var delta := suspiciousAt - legitAt;
    if delta <= 0 { return matched, 0, Fail, Pass; }
    var limit := p.recencyDays * SECONDS_PER_DAY;
    if delta > limit { return matched, delta / SECONDS_PER_DAY, Fail, Pass; }
    return matched, delta / SECONDS_PER_DAY, Pass, Pass;
  }

  /** Judges one observation against the three indexes. */
  method JudgeObservation(o: Observation, seen: set<Address>, legit: map<Address, int>, stats: map<Address, InboundStats>,
                          p: MaterializeParams, ghost baseline: seq<Observation>, ghost scan: seq<Observation>)
    returns (gates: CandidateGate, matched: Address, days: nat)
    requires forall c :: c in seen <==> SeenInBaseline(baseline, c)
    requires legit.Keys == LegitSet(baseline) && forall c :: c in legit ==> legit[c] == LastLegit(baseline, c)
    requires forall c :: StatsOf(stats, c) == InboundStats(Known(scan, c), Potential(scan, c))
    ensures gates == Gates(baseline, scan, p, o)
    ensures AllPass(gates) ==> matched == MatchOf(baseline, p, o) && matched in legit && days == AgeInDays(legit[matched], o.transfer.blockTime)
  {
    var recency, lookalike;
    matched, days, recency, lookalike := EvaluateLookalikeAndRecency(o, legit, p, baseline, scan);
    var tally := StatsOf(stats, o.counterparty);
    gates := CandidateGate(
      GateBool(o.transfer.status == Resolved), GateBool(o.transfer.eligible), GateBool(SupportedAsset(o.transfer.assetType)),
      GateBool(o.relation == Receiver), GateZeroOrDust(o.transfer),
      GateNewCounterparty(p.baselineComplete, o.counterparty in seen), GateBool(p.baselineComplete),
      lookalike, recency, GateAddressInequality(o.counterparty, matched, lookalike),
      GateMinInjection(tally.known, tally.potential, p.minInjectionCount));
    AllPassMeans(gates);
  }

  /** What a run of the detector over valid parameters reports. */
  ghost predicate Reports(baseline: seq<Observation>, scan: seq<Observation>, p: MaterializeParams, r: MaterializationResult) {
    && r.candidates == Emitted(baseline, scan, p, |scan|)
    && |r.candidates| + r.candidateBlocks == |scan|
    && r.unknownGateBlocks == UndecidedCount(scan, p, |scan|)
    && (r.incompleteWindow <==> r.unknownGateBlocks > 0)
    && (r.incompleteWindow <==> !Blank(r.unknownGateReason))
    && GatesOf(r.unknownGateReason) == UnknownUpTo(baseline, scan, p, |scan|)
  }

  lemma {:induction false} UnknownUpToWords(baseline: seq<Observation>, scan: seq<Observation>, p: MaterializeParams, n: nat)
    requires n <= |scan| && ValidParams(p)
    ensures forall w :: w in UnknownUpTo(baseline, scan, p, n) ==> GateWord(w)
    ensures UnknownUpTo(baseline, scan, p, n) == {} <==> UndecidedCount(scan, p, n) == 0
  {
    hide Gates, UnknownLabels, SomeUnknown, Undecided;
    if n > 0 {
      UnknownUpToWords(baseline, scan, p, n - 1);
      LabelsAreWords(Gates(baseline, scan, p, scan[n - 1]));
      GatesDecide(baseline, scan, p, scan[n - 1]);
    }
  }

  /** The final reason names every gate that was ever unknown, and is blank only if none was. */
  lemma UnknownNamed(baseline: seq<Observation>, scan: seq<Observation>, p: MaterializeParams, n: nat, names: seq<string>, reason: string)
    requires n <= |scan| && ValidParams(p)
    requires Arranges(names, UnknownUpTo(baseline, scan, p, n))
    requires reason == if UnknownUpTo(baseline, scan, p, n) == {} then "" else GATE_PREFIX + Join(names, ',')
    ensures GatesOf(reason) == UnknownUpTo(baseline, scan, p, n)
    ensures Blank(reason) <==> UndecidedCount(scan, p, n) == 0
  {
    hide UnknownUpTo, UndecidedCount;
    var all := UnknownUpTo(baseline, scan, p, n);
    UnknownUpToWords(baseline, scan, p, n);
    assert GatesOf("") == {} && Blank("");
    ArrangedMembers(names, all);
    if all != {} {
      ReasonRoundTrip(names);
      assert (set w | w in names) == all;
    }
  }

  /** What the loop has established after `n` observations. */
  ghost predicate Progress(baseline: seq<Observation>, scan: seq<Observation>, p: MaterializeParams, n: nat,
                           res: MaterializationResult, unknownGates: set<string>) {
    && n <= |scan|
    && res.candidates == Emitted(baseline, scan, p, n)
    && |res.candidates| + res.candidateBlocks == n
    && res.unknownGateBlocks == UndecidedCount(scan, p, n)
    && (res.incompleteWindow <==> res.unknownGateBlocks > 0)
    && unknownGates == UnknownUpTo(baseline, scan, p, n)
    && res.unknownGateReason == ""
  }

  /** Counts a decision and, when it allows it, appends the candidate. */
  method Account(o: Observation, decision: CandidateDecision, candidate: PoisoningCandidate, res: MaterializationResult, unknownGates: set<string>,
                 p: MaterializeParams, ghost baseline: seq<Observation>, ghost scan: seq<Observation>, ghost n: nat)
    returns (out: MaterializationResult, unknown: set<string>)
    requires n < |scan| && o == scan[n] && Progress(baseline, scan, p, n, res, unknownGates)
    requires decision.canEmit <==> Emits(baseline, scan, p, o)
    requires decision.incompleteWindow <==> Undecided(scan, p, o)
    requires GatesOf(decision.unknownGateReason) == UnknownLabels(Gates(baseline, scan, p, o))
    requires !decision.incompleteWindow ==> UnknownLabels(Gates(baseline, scan, p, o)) == {}
    requires decision.canEmit ==> candidate == CandidateOf(baseline, scan, p, o)
    ensures Progress(baseline, scan, p, n + 1, out, unknown)
  {
    hide Gates, Emits, Undecided, UnknownLabels, GatesOf, CandidateOf;
    out, unknown := res, unknownGates;
    if decision.incompleteWindow {
      unknown := AddUnknownGates(unknown, decision.unknownGateReason);
      out := out.(incompleteWindow := true, unknownGateBlocks := out.unknownGateBlocks + 1);
    }
    if !decision.canEmit {
      out := out.(candidateBlocks := out.candidateBlocks + 1);
      return;
    }
    out := out.(candidates := out.candidates + [candidate]);
  }

  /** Judges one observation and records the outcome. */
  method Consider(o: Observation, seen: set<Address>, legit: map<Address, int>, stats: map<Address, InboundStats>, p: MaterializeParams,
                  res: MaterializationResult, unknownGates: set<string>,
                  ghost baseline: seq<Observation>, ghost scan: seq<Observation>, ghost n: nat)
    returns (out: MaterializationResult, unknown: set<string>)
    requires ValidParams(p) && n < |scan| && o == scan[n] && Progress(baseline, scan, p, n, res, unknownGates)
    requires forall c :: c in seen <==> SeenInBaseline(baseline, c)
    requires legit.Keys == LegitSet(baseline) && forall c :: c in legit ==> legit[c] == LastLegit(baseline, c)
    requires forall c :: StatsOf(stats, c) == InboundStats(Known(scan, c), Potential(scan, c))
    ensures Progress(baseline, scan, p, n + 1, out, unknown)
  {
    hide Progress, Gates, Emits, Undecided, UnknownLabels, GatesOf, AllPass, SomeUnknown;
    var gates, matched, days := JudgeObservation(o, seen, legit, stats, p, baseline, scan);
    GatesDecide(baseline, scan, p, o);
    LabelsAreWords(gates);
    var decision := EvaluateCandidate(gates);
    var candidate := PoisoningCandidate(
      o.transfer.signature, o.transfer.index, o.counterparty, matched, o.transfer.mint, o.transfer.amountRaw,
      o.transfer.blockTime, IsAmountZero(o.transfer.amountRaw).0, o.transfer.dust == DustTrue, true, true,
      if matched in legit then legit[matched] else ZERO_TIME, days,
      StatsOf(stats, o.counterparty).known, false, "", MATCH_RULE_VERSION);
    out, unknown := Account(o, decision, candidate, res, unknownGates, p, baseline, scan, n);
  }

  /** The detector over hash indexes decides exactly the conditions stated over the two sequences. */
  method MaterializeCandidates(baseline: seq<Observation>, scan: seq<Observation>, p: MaterializeParams) returns (res: MaterializationResult)
    ensures ValidParams(p) ==> Reports(baseline, scan, p, res)
    ensures !ValidParams(p) ==> res == MaterializationResult([], true, "invalid_candidate_params", 0, 0)
    ensures !ValidParams(p) <==> p.recencyDays < 1 || p.rule.prefixMin < 4 || p.rule.suffixMin < 4 || p.rule.singleSideMin < 6 || p.minInjectionCount < 1
  {
    res := MaterializationResult([], false, "", 0, 0);
    if !ValidParams(p) {
      res := res.(incompleteWindow := true, unknownGateReason := INVALID_PARAMS);
      return;
    }
    var seen := BuildPreWindowInteractionSet(baseline);
    var legit := BuildLegitBaseline(baseline);
    var stats := BuildInboundStats(scan);
    var unknownGates: set<string> := {};
    for i := 0 to |scan|
      invariant Progress(baseline, scan, p, i, res, unknownGates)
    {
      res, unknownGates := Consider(scan[i], seen, legit, stats, p, res, unknownGates, baseline, scan, i);
    }
    var reason, names := BuildUnknownGateReason(unknownGates);
    UnknownNamed(baseline, scan, p, |scan|, names, reason);
    if res.incompleteWindow {
      res := res.(unknownGateReason := reason);
    }
  }

  // ---- More of the scan, and answers to unknown dust ----

  /** Emission survives any enlargement of the scan, and the injection count does not shrink. */
  lemma EmissionMonotone(baseline: seq<Observation>, scan: seq<Observation>, more: seq<Observation>, p: MaterializeParams, o: Observation)
    requires multiset(scan) <= multiset(more) && Emits(baseline, scan, p, o)
    ensures Emits(baseline, more, p, o)
    ensures Known(scan, o.counterparty) <= Known(more, o.counterparty)
    ensures CandidateOf(baseline, more, p, o)
         == CandidateOf(baseline, scan, p, o).(repeatInjectionCount := Known(more, o.counterparty))
  {
    CountMonotone(scan, more, KnownFrom(o.counterparty));
  }

  lemma {:induction false} EmittedMembers(baseline: seq<Observation>, scan: seq<Observation>, p: MaterializeParams, n: nat, c: PoisoningCandidate)
    requires n <= |scan|
    ensures c in Emitted(baseline, scan, p, n) <==>
              exists k :: 0 <= k < n && Emits(baseline, scan, p, scan[k]) && c == CandidateOf(baseline, scan, p, scan[k])
  {
    hide Emits, CandidateOf;
    if n > 0 { EmittedMembers(baseline, scan, p, n - 1, c); }
  }

  /** `c` occurs among `all`, possibly with a larger injection count. */
  ghost predicate FoundAgain(c: PoisoningCandidate, all: seq<PoisoningCandidate>) {
    exists d :: d in all && d.repeatInjectionCount >= c.repeatInjectionCount && d == c.(repeatInjectionCount := d.repeatInjectionCount)
  }

  /** Every candidate found on a scan is found again, no less often repeated, on any scan that contains it. */
  lemma TruncationCreatesNothing(baseline: seq<Observation>, scan: seq<Observation>, more: seq<Observation>, p: MaterializeParams, c: PoisoningCandidate)
    requires multiset(scan) <= multiset(more)
    requires c in Emitted(baseline, scan, p, |scan|)
    ensures FoundAgain(c, Emitted(baseline, more, p, |more|))
  {
    EmittedMembers(baseline, scan, p, |scan|, c);
    var k :| 0 <= k < |scan| && Emits(baseline, scan, p, scan[k]) && c == CandidateOf(baseline, scan, p, scan[k]);
    var o := scan[k];
    EmissionMonotone(baseline, scan, more, p, o);
    assert o in multiset(scan) && o in multiset(more);
    var j :| 0 <= j < |more| && more[j] == o;
    EmittedMembers(baseline, more, p, |more|, CandidateOf(baseline, more, p, o));
  }

  /** The observation with its dust status replaced. */
  function WithDust(o: Observation, d: DustStatus): Observation { o.(transfer := o.transfer.(dust := d)) }

  /** `b` is `a`, or answers its unknown dust status. */
  predicate Answers(a: Observation, b: Observation) {
    b == a || (a.transfer.dust == DustUnknown && b == WithDust(a, b.transfer.dust))
  }

  predicate Refines(scan: seq<Observation>, answered: seq<Observation>) {
    |scan| == |answered| && forall i :: 0 <= i < |scan| ==> Answers(scan[i], answered[i])
  }

  /** Answers can only move injections from potential to known, or out of both. */
  lemma {:induction false} RefinedCounts(scan: seq<Observation>, answered: seq<Observation>, c: Address)
    requires Refines(scan, answered)
    ensures Known(scan, c) <= Known(answered, c)
    ensures Known(answered, c) + Potential(answered, c) <= Known(scan, c) + Potential(scan, c)
  {
    if scan != [] {
      RefinedCounts(scan[..|scan| - 1], answered[..|answered| - 1], c);
      assert Answers(scan[|scan| - 1], answered[|answered| - 1]);
    }
  }

  /** Answering unknown dust in the scan keeps what was emitted, and keeps blocked what no unknown gate blocked. */
  lemma AnswersChangeNothingDecided(baseline: seq<Observation>, scan: seq<Observation>, answered: seq<Observation>, p: MaterializeParams, i: nat)
    requires Refines(scan, answered) && i < |scan|
    ensures Emits(baseline, scan, p, scan[i]) ==> Emits(baseline, answered, p, answered[i])
    ensures !Emits(baseline, scan, p, scan[i]) && !Undecided(scan, p, scan[i]) ==> !Emits(baseline, answered, p, answered[i])
    ensures !Undecided(scan, p, scan[i]) ==> !Undecided(answered, p, answered[i])
  {
    RefinedCounts(scan, answered, scan[i].counterparty);
    assert Answers(scan[i], answered[i]);
    assert Imitates(baseline, p, scan[i]) == Imitates(baseline, p, answered[i]);
  }

  /** No dust status is unknown. */
  predicate FullyAnswered(scan: seq<Observation>) {
    forall o :: o in scan ==> o.transfer.dust != DustUnknown
  }

  ghost predicate Resolution(scan: seq<Observation>, answered: seq<Observation>) {
    Refines(scan, answered) && FullyAnswered(answered)
  }

  /** Gives every unknown dust status the same answer. */
  function AnswerAll(scan: seq<Observation>, d: DustStatus): seq<Observation> {
    seq(|scan|, i requires 0 <= i < |scan| => if scan[i].transfer.dust == DustUnknown then WithDust(scan[i], d) else scan[i])
  }

  lemma {:induction false} AnswerAllCounts(scan: seq<Observation>, c: Address)
    ensures Known(AnswerAll(scan, DustTrue), c) == Known(scan, c) + Potential(scan, c)
    ensures Known(AnswerAll(scan, DustFalse), c) == Known(scan, c)
  {
    if scan != [] {
      var init := scan[..|scan| - 1];
      AnswerAllCounts(init, c);
      forall d ensures AnswerAll(scan, d)[..|scan| - 1] == AnswerAll(init, d) {}
    }
  }

  lemma AnswerAllResolves(scan: seq<Observation>, d: DustStatus)
    requires d != DustUnknown
    ensures Resolution(scan, AnswerAll(scan, d))
  {
  }

  lemma AnsweredHasNoPotential(answered: seq<Observation>, c: Address)
    requires FullyAnswered(answered)
    ensures Potential(answered, c) == 0
  {
    CountPositive(answered, PotentialFrom(c));
  }

  ghost predicate Reaches(scan: seq<Observation>, c: Address, min: int) {
    Known(scan, c) >= Max(min, 1)
  }

  /** The gate is the exact abstraction: Pass when every resolution reaches the minimum, Fail when none does,
      Unknown when resolutions disagree. */
  lemma MinInjectionGateExact(scan: seq<Observation>, c: Address, min: int)
    ensures var gate := GateMinInjection(Known(scan, c), Potential(scan, c), min);
            && (gate == Pass <==> forall r :: Resolution(scan, r) ==> Reaches(r, c, min))
            && (gate == Fail <==> forall r :: Resolution(scan, r) ==> !Reaches(r, c, min))
            && (gate == Unknown <==>
                  ((exists r :: Resolution(scan, r) && Reaches(r, c, min)) && (exists r :: Resolution(scan, r) && !Reaches(r, c, min))))
  {
    var most, least := AnswerAll(scan, DustTrue), AnswerAll(scan, DustFalse);
    AnswerAllResolves(scan, DustTrue);
    AnswerAllResolves(scan, DustFalse);
    AnswerAllCounts(scan, c);
    forall r | Resolution(scan, r) ensures Known(scan, c) <= Known(r, c) <= Known(scan, c) + Potential(scan, c) {
      RefinedCounts(scan, r, c);
      AnsweredHasNoPotential(r, c);
    }
  }

  /** A suspicious address the wallet itself paid matches itself at best, so the two address gates alone block it. */
  lemma LegitIsNeverSuspicious(baseline: seq<Observation>, scan: seq<Observation>, p: MaterializeParams, o: Observation)
    requires o.counterparty in LegitSet(baseline)
    ensures var g := Gates(baseline, scan, p, o); !(g.lookalikeMatch == Pass && g.addressInequality == Pass)
    ensures MatchOf(baseline, p, o) in {"", o.counterparty}
  {
    var m := MatchOf(baseline, p, o);
    if m != "" { SelfMatch(o.counterparty, LegitSet(baseline), p.rule, m); }
  }
}
