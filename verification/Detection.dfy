/** The fail-closed decision over eleven three-valued gates. */
module Detection {
  import opened Text
  import opened Reasons

  datatype GateState = Pass | Fail | Unknown

  datatype GateName = NormalizationResolved | PoisoningEligible | AssetTypeSupported | Inbound | ZeroOrDust
                    | NewCounterparty | BaselineComplete | LookalikeMatch | RecencyValid | AddressInequality
                    | MinInjectionCountMet

  /** One state per gate. */
  datatype CandidateGate = CandidateGate(
    normalizationResolved: GateState, poisoningEligible: GateState, assetTypeSupported: GateState,
    inbound: GateState, zeroOrDust: GateState, newCounterparty: GateState, baselineComplete: GateState,
    lookalikeMatch: GateState, recencyValid: GateState, addressInequality: GateState, minInjectionCountMet: GateState)
  {
    function State(n: GateName): GateState {
      match n
      case NormalizationResolved => normalizationResolved
      case PoisoningEligible => poisoningEligible
      case AssetTypeSupported => assetTypeSupported
      case Inbound => inbound
      case ZeroOrDust => zeroOrDust
      case NewCounterparty => newCounterparty
      case BaselineComplete => baselineComplete
      case LookalikeMatch => lookalikeMatch
      case RecencyValid => recencyValid
      case AddressInequality => addressInequality
      case MinInjectionCountMet => minInjectionCountMet
    }
  }

  const REQUIRED: seq<GateName> := [
    NormalizationResolved, PoisoningEligible, AssetTypeSupported, Inbound, ZeroOrDust, NewCounterparty,
    BaselineComplete, LookalikeMatch, RecencyValid, AddressInequality, MinInjectionCountMet]

  function Label(n: GateName): string {
    match n
    case NormalizationResolved => "normalization_resolved"
    case PoisoningEligible => "poisoning_eligible"
    case AssetTypeSupported => "asset_type_supported"
    case Inbound => "inbound"
    case ZeroOrDust => "zero_or_dust"
    case NewCounterparty => "is_new_counterparty"
    case BaselineComplete => "baseline_complete"
    case LookalikeMatch => "lookalike_match"
    case RecencyValid => "recency_valid"
    case AddressInequality => "address_inequality"
    case MinInjectionCountMet => "min_injection_count_met"
  }

  lemma LabelIsWord(n: GateName)
    ensures GateWord(Label(n))
  {
    match n
    case NormalizationResolved => assert GateWord("normalization_resolved");
    case PoisoningEligible => assert GateWord("poisoning_eligible");
    case AssetTypeSupported => assert GateWord("asset_type_supported");
    case Inbound => assert GateWord("inbound");
    case ZeroOrDust => assert GateWord("zero_or_dust");
    case NewCounterparty => assert GateWord("is_new_counterparty");
    case BaselineComplete => assert GateWord("baseline_complete");
    case LookalikeMatch => assert GateWord("lookalike_match");
    case RecencyValid => assert GateWord("recency_valid");
    case AddressInequality => assert GateWord("address_inequality");
    case MinInjectionCountMet => assert GateWord("min_injection_count_met");
  }

  /** Gates have different labels, so a reason says which gates it means. */
  lemma LabelsDiffer(a: GateName, b: GateName)
    requires Label(a) == Label(b)
    ensures a == b
  {
    assert |Label(a)| == |Label(b)| && Label(a)[0] == Label(b)[0];
  }

  lemma AllRequired(n: GateName)
    ensures n in REQUIRED
  {
    assert REQUIRED[0] == NormalizationResolved && REQUIRED[1] == PoisoningEligible && REQUIRED[2] == AssetTypeSupported
        && REQUIRED[3] == Inbound && REQUIRED[4] == ZeroOrDust && REQUIRED[5] == NewCounterparty
        && REQUIRED[6] == BaselineComplete && REQUIRED[7] == LookalikeMatch && REQUIRED[8] == RecencyValid
        && REQUIRED[9] == AddressInequality && REQUIRED[10] == MinInjectionCountMet;
  }

  predicate AllPass(g: CandidateGate) { forall n: GateName :: g.State(n) == Pass }

  predicate SomeUnknown(g: CandidateGate) { exists n: GateName :: g.State(n) == Unknown }

  /** The labels of the unknown gates. */
  function UnknownLabels(g: CandidateGate): set<string> {
    set n: GateName | g.State(n) == Unknown :: Label(n)
  }

  /** The names that stand for unknown gates. */
  lemma UnknownNames(g: CandidateGate, w: string)
    ensures w in UnknownLabels(g) <==>
      || (w == "normalization_resolved" && g.normalizationResolved == Unknown) || (w == "poisoning_eligible" && g.poisoningEligible == Unknown)
      || (w == "asset_type_supported" && g.assetTypeSupported == Unknown) || (w == "inbound" && g.inbound == Unknown)
      || (w == "zero_or_dust" && g.zeroOrDust == Unknown) || (w == "is_new_counterparty" && g.newCounterparty == Unknown)
      || (w == "baseline_complete" && g.baselineComplete == Unknown) || (w == "lookalike_match" && g.lookalikeMatch == Unknown)
      || (w == "recency_valid" && g.recencyValid == Unknown) || (w == "address_inequality" && g.addressInequality == Unknown)
      || (w == "min_injection_count_met" && g.minInjectionCountMet == Unknown)
  {
    forall n: GateName ensures g.State(n) == Unknown ==> Label(n) in UnknownLabels(g) {}
    assert Label(NormalizationResolved) == "normalization_resolved" && Label(PoisoningEligible) == "poisoning_eligible";
    assert Label(AssetTypeSupported) == "asset_type_supported" && Label(Inbound) == "inbound" && Label(ZeroOrDust) == "zero_or_dust";
    assert Label(NewCounterparty) == "is_new_counterparty" && Label(BaselineComplete) == "baseline_complete";
    assert Label(LookalikeMatch) == "lookalike_match" && Label(RecencyValid) == "recency_valid";
    assert Label(AddressInequality) == "address_inequality" && Label(MinInjectionCountMet) == "min_injection_count_met";
    if w in UnknownLabels(g) {
      var n: GateName :| g.State(n) == Unknown && Label(n) == w;
    }
  }

  datatype CandidateDecision = CandidateDecision(canEmit: bool, incompleteWindow: bool, unknownGateReason: string)

  lemma LabelsAreWords(g: CandidateGate)
    ensures forall w :: w in UnknownLabels(g) ==> GateWord(w)
    ensures UnknownLabels(g) == {} <==> !SomeUnknown(g)
  {
    forall n: GateName ensures GateWord(Label(n)) { LabelIsWord(n); }
    if n :| g.State(n) == Unknown { assert Label(n) in UnknownLabels(g); }
  }

  /** The first pass over the gate table. */
  method CollectUnknown(g: CandidateGate) returns (unknown: seq<string>)
    ensures (set w | w in unknown) == UnknownLabels(g)
    ensures unknown != [] <==> SomeUnknown(g)
  {
    unknown := [];
    for i := 0 to |REQUIRED|
      invariant forall w :: w in unknown <==> exists k :: 0 <= k < i && g.State(REQUIRED[k]) == Unknown && w == Label(REQUIRED[k])
    {
      if g.State(REQUIRED[i]) == Unknown { unknown := unknown + [Label(REQUIRED[i])]; }
    }
    forall n: GateName | g.State(n) == Unknown ensures Label(n) in unknown { AllRequired(n); }
    if unknown != [] { assert unknown[0] in unknown; }
  }

  /** The second pass over the gate table. */
  method CheckAll(g: CandidateGate) returns (ok: bool)
    ensures ok <==> AllPass(g)
  {
    for i := 0 to |REQUIRED|
      invariant forall k :: 0 <= k < i ==> g.State(REQUIRED[k]) == Pass
    {
      if g.State(REQUIRED[i]) != Pass { return false; }
    }
    forall n: GateName ensures g.State(n) == Pass { AllRequired(n); }
    return true;
  }

  /** Emission needs every gate to pass; one unknown gate blocks it, marks the window and is named in the reason. */
  method EvaluateCandidate(g: CandidateGate) returns (d: CandidateDecision)
    ensures d.canEmit <==> AllPass(g)
    ensures d.incompleteWindow <==> SomeUnknown(g)
    ensures GatesOf(d.unknownGateReason) == UnknownLabels(g)
    ensures Blank(d.unknownGateReason) <==> !SomeUnknown(g)
  {
    var unknown := CollectUnknown(g);
    if |unknown| > 0 {
      LabelsAreWords(g);
      assert forall w :: w in unknown ==> w in (set w | w in unknown);
      ReasonRoundTrip(unknown);
      return CandidateDecision(false, true, GATE_PREFIX + Join(unknown, ','));
    }
    var ok := CheckAll(g);
    d := CandidateDecision(ok, false, "");
  }
}
