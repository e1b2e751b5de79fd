/** Transactions as the provider serves them, and their normalization into owner-level transfers. */
module Transfers {
  import opened Text
  import opened Wrappers

  type Address = string

  /** Go's zero time in Unix seconds; every block time lies after it. */
  const ZERO_TIME: int := -62135596800

  type BlockTime = t: int | ZERO_TIME < t witness 0

  datatype NativeTransfer = NativeTransfer(from: string, to: string, amount: string)

  datatype TokenTransfer = TokenTransfer(
    from: string, to: string, fromTokenAccount: string, toTokenAccount: string,
    mint: string, amount: string, decimals: Option<int>, standard: string,
    instructionIndex: Option<int>, innerIndex: Option<int>)

  datatype EnhancedTransaction = EnhancedTransaction(
    signature: string, slot: int, time: BlockTime, failed: bool,
    native: seq<NativeTransfer>, token: seq<TokenTransfer>)

  datatype AssetType = NativeSOL | SPLFungible | OtherAsset
  datatype NormalizationStatus = Resolved | UnresolvedOwner | UnsupportedAsset | Failed
  datatype DustStatus = DustTrue | DustFalse | DustUnknown

  datatype ReasonCode = NoReason | MissingNativeOwner | SelfTransfer | UnsupportedStandard | MissingTokenOwner
                      | SourceIsTokenAccount | DestinationIsTokenAccount | MalformedAmount

  /** The instruction reference that enters a fingerprint. */
  datatype InstructionRef = NativeRef(position: nat) | Spl(index: int) | SplInner(outer: int, inner: int) | SplFallback(position: nat)

  /** The seed that is hashed; the hash is taken to be injective, so the seed stands for it. */
  datatype Fingerprint = Fingerprint(
    signature: string, ref: InstructionRef, source: string, destination: string,
    mint: string, amount: string, asset: AssetType)

  datatype NormalizedTransfer = NormalizedTransfer(
    signature: string, index: nat, fingerprint: Fingerprint, slot: int, blockTime: BlockTime,
    source: Address, destination: Address, sourceTokenAccount: string, destinationTokenAccount: string,
    amountRaw: string, mint: string, assetType: AssetType, assetKey: string, decimals: Option<int>,
    status: NormalizationStatus, reason: ReasonCode, eligible: bool, dust: DustStatus, success: bool)

  predicate IsDigit(c: char) { '0' <= c <= '9' }

  predicate AllDigits(s: string) { forall c :: c in s ==> IsDigit(c) }

  /** The amount kept for an SPL transfer and whether it was well formed. */
  method SanitizeRawAmount(v: string) returns (amount: string, ok: bool)
    ensures ok <==> TrimSpace(v) != [] && AllDigits(TrimSpace(v))
    ensures amount == SanitizedAmount(v)
  {
    var value := TrimSpace(v);
    if value == "" { return "0", false; }
    var i := 0;
    while i < |value|
      invariant 0 <= i <= |value|
      invariant AllDigits(value[..i])
    {
      if !IsDigit(value[i]) {
        assert value[i] in value;
        return "0", false;
      }
      assert value[..i + 1] == value[..i] + [value[i]];
      i := i + 1;
    }
    assert value[..i] == value;
    return value, true;
  }

  predicate WellFormedAmount(v: string) {
    TrimSpace(v) != [] && AllDigits(TrimSpace(v))
  }

  function SanitizedAmount(v: string): string {
    if WellFormedAmount(v) then TrimSpace(v) else "0"
  }

  predicate Fungible(tt: TokenTransfer) {
    tt.standard == "Fungible" || tt.standard == "fungible" || tt.standard == "FUNGIBLE"
  }

  function NativeRow(tx: EnhancedTransaction, i: nat): NormalizedTransfer
    requires i < |tx.native|
  {
    var nt := tx.native[i];
    var src, dst := TrimSpace(nt.from), TrimSpace(nt.to);
    var missing := src == "" || dst == "";
    NormalizedTransfer(
      tx.signature, i, Fingerprint(tx.signature, NativeRef(i), src, dst, "", nt.amount, NativeSOL),
      tx.slot, tx.time, src, dst, "", "", nt.amount, "", NativeSOL, "SOL", None,
      if missing then Failed else Resolved,
      if missing then MissingNativeOwner else if src == dst then SelfTransfer else NoReason,
      !missing && src != dst, DustUnknown, !tx.failed)
  }

  /** Status and reason of a token transfer, strongest objection first. */
  function TokenVerdict(tt: TokenTransfer): (NormalizationStatus, ReasonCode) {
    var src, dst := TrimSpace(tt.from), TrimSpace(tt.to);
    if !Fungible(tt) then (UnsupportedAsset, UnsupportedStandard)
    else if dst != "" && dst == tt.toTokenAccount then (UnresolvedOwner, DestinationIsTokenAccount)
    else if src != "" && src == tt.fromTokenAccount then (UnresolvedOwner, SourceIsTokenAccount)
    else if src == "" || dst == "" then (UnresolvedOwner, MissingTokenOwner)
    else if !WellFormedAmount(tt.amount) then (Failed, MalformedAmount)
    else (Resolved, if src == dst then SelfTransfer else NoReason)
  }

  function TokenRef(tt: TokenTransfer, index: nat): InstructionRef {
    match (tt.instructionIndex, tt.innerIndex)
    case (None, _) => SplFallback(index)
    case (Some(i), None) => Spl(i)
    case (Some(i), Some(j)) => SplInner(i, j)
  }

  function TokenRow(tx: EnhancedTransaction, i: nat): NormalizedTransfer
    requires i < |tx.token|
  {
    var tt := tx.token[i];
    var src, dst := TrimSpace(tt.from), TrimSpace(tt.to);
    var index := |tx.native| + i;
    var asset := if Fungible(tt) then SPLFungible else OtherAsset;
    var amount := SanitizedAmount(tt.amount);
    var verdict := TokenVerdict(tt);
    NormalizedTransfer(
      tx.signature, index, Fingerprint(tx.signature, TokenRef(tt, index), src, dst, tt.mint, amount, asset),
      tx.slot, tx.time, src, dst, tt.fromTokenAccount, tt.toTokenAccount, amount, tt.mint, asset, tt.mint, tt.decimals,
      verdict.0, verdict.1, verdict == (Resolved, NoReason), DustUnknown, !tx.failed)
  }

  /** The rows of a transaction: native transfers first, numbered consecutively. */
  function Row(tx: EnhancedTransaction, i: nat): NormalizedTransfer
    requires i < |tx.native| + |tx.token|
  {
    if i < |tx.native| then NativeRow(tx, i) else TokenRow(tx, i - |tx.native|)
  }

  function Rows(tx: EnhancedTransaction): (rows: seq<NormalizedTransfer>)
    ensures |rows| == |tx.native| + |tx.token|
  {
    seq(|tx.native| + |tx.token|, i requires 0 <= i < |tx.native| + |tx.token| => Row(tx, i))
  }

  /** One native transfer, its status, reason and eligibility reassigned as objections appear. */
  method NormalizeNative(tx: EnhancedTransaction, n: nat) returns (tr: NormalizedTransfer)
    requires n < |tx.native|
    ensures tr == NativeRow(tx, n)
  {
    var nt := tx.native[n];
    var src, dst := TrimSpace(nt.from), TrimSpace(nt.to);
    var status, reason, eligible := Resolved, NoReason, true;
    if src == "" || dst == "" {
      status, reason, eligible := Failed, MissingNativeOwner, false;
    }
    if src != "" && src == dst && status == Resolved {
      reason, eligible := SelfTransfer, false;
    }
    tr := NormalizedTransfer(
      tx.signature, n, Fingerprint(tx.signature, NativeRef(n), src, dst, "", nt.amount, NativeSOL), tx.slot, tx.time,
      src, dst, "", "", nt.amount, "", NativeSOL, "SOL", None, status, reason, eligible, DustUnknown, !tx.failed);
  }

  /** The objections to a token transfer, raised one after another; a later one overrides. */
  method JudgeToken(tt: TokenTransfer, amountOK: bool)
    returns (status: NormalizationStatus, reason: ReasonCode, eligible: bool, assetType: AssetType)
    requires amountOK == WellFormedAmount(tt.amount)
    ensures (status, reason) == TokenVerdict(tt) && eligible == (TokenVerdict(tt) == (Resolved, NoReason))
    ensures assetType == if Fungible(tt) then SPLFungible else OtherAsset
  {
    var src, dst := TrimSpace(tt.from), TrimSpace(tt.to);
    status, reason, eligible, assetType := Resolved, NoReason, true, SPLFungible;
    if !Fungible(tt) {
      status, reason, eligible, assetType := UnsupportedAsset, UnsupportedStandard, false, OtherAsset;
    } else {
      if !amountOK { status, reason, eligible := Failed, MalformedAmount, false; }
      if src == "" || dst == "" { status, reason, eligible := UnresolvedOwner, MissingTokenOwner, false; }
      if src != "" && src == tt.fromTokenAccount {
        status, reason, eligible := UnresolvedOwner, SourceIsTokenAccount, false;
      }
      if dst != "" && dst == tt.toTokenAccount {
        status, reason, eligible := UnresolvedOwner, DestinationIsTokenAccount, false;
      }
      if src != "" && dst != "" && src == dst && status == Resolved {
        reason, eligible := SelfTransfer, false;
      }
    }
  }

  /** One token transfer at position `idx` of the expansion. */
  method NormalizeToken(tx: EnhancedTransaction, n: nat, idx: nat) returns (tr: NormalizedTransfer)
    requires n < |tx.token| && idx == |tx.native| + n
    ensures tr == TokenRow(tx, n)
  {
    var tt := tx.token[n];
    var amountRaw, amountOK := SanitizeRawAmount(tt.amount);
    var status, reason, eligible, assetType := JudgeToken(tt, amountOK);
    var ref := SplFallback(idx);
    if tt.instructionIndex.Some? {
      ref := Spl(tt.instructionIndex.value);
      if tt.innerIndex.Some? { ref := SplInner(tt.instructionIndex.value, tt.innerIndex.value); }
    }
    var src, dst := TrimSpace(tt.from), TrimSpace(tt.to);
    tr := NormalizedTransfer(
      tx.signature, idx, Fingerprint(tx.signature, ref, src, dst, tt.mint, amountRaw, assetType), tx.slot, tx.time,
      src, dst, tt.fromTokenAccount, tt.toTokenAccount, amountRaw, tt.mint, assetType, tt.mint, tt.decimals,
      status, reason, eligible, DustUnknown, !tx.failed);
  }

  method NormalizeNatives(tx: EnhancedTransaction) returns (out: seq<NormalizedTransfer>, idx: nat)
    ensures idx == |out| == |tx.native|
    ensures forall k :: 0 <= k < |out| ==> out[k] == NativeRow(tx, k)
  {
    out, idx := [], 0;
    for n := 0 to |tx.native|
      invariant idx == n == |out|
      invariant forall k :: 0 <= k < |out| ==> out[k] == NativeRow(tx, k)
    {
      var tr := NormalizeNative(tx, n);
      out := out + [tr];
      idx := idx + 1;
    }
  }

  // ---- Rows in terms of what the provider says ----

  /** How many transfers a transaction has; the native ones are numbered first. */
  function TransferCount(tx: EnhancedTransaction): nat { |tx.native| + |tx.token| }

  /** Transfer number `i` goes from owner `from` to owner `to`, white space around the owners aside. */
  predicate Moves(tx: EnhancedTransaction, i: nat, from: Address, to: Address)
    requires i < TransferCount(tx)
  {
    if i < |tx.native| then TrimSpace(tx.native[i].from) == from && TrimSpace(tx.native[i].to) == to
    else var tt := tx.token[i - |tx.native|]; TrimSpace(tt.from) == from && TrimSpace(tt.to) == to
  }

  /** The amount is written with digits only, white space around them aside. */
  predicate DigitsOnly(amount: string) {
    var t := TrimSpace(amount);
    |t| >= 1 && forall k :: 0 <= k < |t| ==> '0' <= t[k] <= '9'
  }

  predicate FungibleStandard(standard: string) { standard in {"Fungible", "fungible", "FUNGIBLE"} }

  /** Transfer number `i` is between known owners. A token transfer must also be of a fungible token, name owners rather
      than token accounts, and have an amount. */
  predicate Resolves(tx: EnhancedTransaction, i: nat)
    requires i < TransferCount(tx)
  {
    if i < |tx.native| then TrimSpace(tx.native[i].from) != "" && TrimSpace(tx.native[i].to) != ""
    else
      var tt := tx.token[i - |tx.native|];
      && FungibleStandard(tt.standard) && TrimSpace(tt.from) !in {"", tt.fromTokenAccount} && TrimSpace(tt.to) !in {"", tt.toTokenAccount}
      && DigitsOnly(tt.amount)
  }

  /** ... and moves between two owners. */
  predicate Counts(tx: EnhancedTransaction, i: nat)
    requires i < TransferCount(tx)
  {
    && Resolves(tx, i)
    && if i < |tx.native| then TrimSpace(tx.native[i].from) != TrimSpace(tx.native[i].to)
       else TrimSpace(tx.token[i - |tx.native|].from) != TrimSpace(tx.token[i - |tx.native|].to)
  }

  /** `row` records the native transfer. */
  predicate RecordsNative(nt: NativeTransfer, row: NormalizedTransfer) {
    && row.source == TrimSpace(nt.from) && row.destination == TrimSpace(nt.to) && row.amountRaw == nt.amount
    && row.assetType == NativeSOL && row.assetKey == "SOL" && row.mint == "" && row.decimals.None?
    && row.sourceTokenAccount == "" && row.destinationTokenAccount == ""
    && (row.status != Resolved ==> row.status == Failed && row.reason == MissingNativeOwner)
  }

  /** `row` records the token transfer; of several objections the strongest is its status and reason. */
  predicate RecordsToken(tt: TokenTransfer, row: NormalizedTransfer) {
    && row.source == TrimSpace(tt.from) && row.destination == TrimSpace(tt.to)
    && row.sourceTokenAccount == tt.fromTokenAccount && row.destinationTokenAccount == tt.toTokenAccount
    && row.mint == tt.mint && row.assetKey == tt.mint && row.decimals == tt.decimals
    && row.amountRaw == (if DigitsOnly(tt.amount) then TrimSpace(tt.amount) else "0")
    && row.assetType == (if FungibleStandard(tt.standard) then SPLFungible else OtherAsset)
    && (row.status == UnsupportedAsset <==> row.reason == UnsupportedStandard)
    && (row.reason == UnsupportedStandard <==> !FungibleStandard(tt.standard))
    && (row.status == UnresolvedOwner <==> row.reason in {DestinationIsTokenAccount, SourceIsTokenAccount, MissingTokenOwner})
    && (row.reason in {DestinationIsTokenAccount, SourceIsTokenAccount, MissingTokenOwner} <==>
          FungibleStandard(tt.standard) && (row.source in {"", tt.fromTokenAccount} || row.destination in {"", tt.toTokenAccount}))
    && (row.reason == DestinationIsTokenAccount ==> row.destination == tt.toTokenAccount)
    && (row.reason == SourceIsTokenAccount ==> row.source == tt.fromTokenAccount && (row.destination == "" || row.destination != tt.toTokenAccount))
    && (row.reason == MissingTokenOwner ==> row.source == "" || row.destination == "")
    && (row.status == Failed <==> row.reason == MalformedAmount)
    && (row.reason == MalformedAmount ==> !DigitsOnly(tt.amount))
  }

  /** `row` records transfer number `i` of the transaction. */
  predicate Records(tx: EnhancedTransaction, i: nat, row: NormalizedTransfer)
    requires i < TransferCount(tx)
  {
    && row.signature == tx.signature && row.slot == tx.slot && row.blockTime == tx.time && row.success == !tx.failed
    && row.index == i && row.dust == DustUnknown
    && (if i < |tx.native| then RecordsNative(tx.native[i], row) else RecordsToken(tx.token[i - |tx.native|], row))
    && (row.status == Resolved <==> Resolves(tx, i)) && (row.eligible <==> Counts(tx, i))
    && (row.reason == SelfTransfer <==> Resolves(tx, i) && !Counts(tx, i)) && (row.reason == NoReason <==> Counts(tx, i))
  }

  lemma AmountsAgree(v: string)
    ensures DigitsOnly(v) <==> WellFormedAmount(v)
  {
    var t := TrimSpace(v);
    if DigitsOnly(v) { assert forall c :: c in t ==> IsDigit(c); }
    if WellFormedAmount(v) { assert forall k :: 0 <= k < |t| ==> t[k] in t && IsDigit(t[k]); }
  }

  lemma NativeIsRecorded(tx: EnhancedTransaction, i: nat)
    requires i < |tx.native|
    ensures Records(tx, i, NativeRow(tx, i))
  {
    hide TrimSpace;
  }

  lemma TokenIsRecorded(tx: EnhancedTransaction, i: nat)
    requires i < |tx.token|
    ensures Records(tx, |tx.native| + i, TokenRow(tx, i))
  {
    AmountsAgree(tx.token[i].amount);
    hide TrimSpace, DigitsOnly, WellFormedAmount;
  }

  /** Every transfer is recorded, in the order of the provider. */
  lemma RowsAreRecorded(tx: EnhancedTransaction)
    ensures |Rows(tx)| == TransferCount(tx) && forall i :: 0 <= i < TransferCount(tx) ==> Records(tx, i, Rows(tx)[i])
  {
    hide Records;
    forall i | 0 <= i < TransferCount(tx) ensures Records(tx, i, Rows(tx)[i]) {
      RowIsRecorded(tx, i);
      hide Row;
      assert Rows(tx)[i] == Row(tx, i);
    }
  }

  lemma RowIsRecorded(tx: EnhancedTransaction, i: nat)
    requires i < TransferCount(tx)
    ensures Records(tx, i, Row(tx, i))
  {
    hide Records, NativeRow, TokenRow;
    if i < |tx.native| { NativeIsRecorded(tx, i); } else { TokenIsRecorded(tx, i - |tx.native|); }
  }

  /** Expands a transaction into its rows. */
  method NormalizeEnhancedTx(tx: EnhancedTransaction) returns (r: Result<seq<NormalizedTransfer>, string>)
    ensures r.Failure? <==> tx.signature == ""
    ensures r.Success? ==> |r.value| == TransferCount(tx) && forall i :: 0 <= i < |r.value| ==> Records(tx, i, r.value[i])
    ensures r.Success? ==> r.value == Rows(tx)
  {
    hide Records, NativeRow, TokenRow;
    RowsAreRecorded(tx);
    if tx.signature == "" { return Failure("missing signature"); }
    var out, idx := NormalizeNatives(tx);
    for n := 0 to |tx.token|
      invariant idx == |tx.native| + n == |out|
      invariant forall k :: 0 <= k < |out| ==> out[k] == Row(tx, k)
    {
      var tr := NormalizeToken(tx, n, idx);
      out := out + [tr];
      idx := idx + 1;
    }
    assert out == Rows(tx);
    return Success(out);
  }

  /** What an eligible row guarantees: resolved distinct owners, a supported asset, a usable SPL amount. */
  lemma EligibleRow(tx: EnhancedTransaction, i: nat)
    requires i < |Rows(tx)|
    ensures var r := Rows(tx)[i];
            && (r.eligible <==> r.status == Resolved && r.source != r.destination)
            && (r.status == Resolved ==> r.source != "" && r.destination != "" && r.assetType != OtherAsset)
            && (r.status == Resolved && r.assetType == SPLFungible ==>
                  r.amountRaw != "" && AllDigits(r.amountRaw)
                  && r.source != r.sourceTokenAccount && r.destination != r.destinationTokenAccount)
  {
    assert Rows(tx)[i] == Row(tx, i);
  }

  predicate ExplicitToken(tx: EnhancedTransaction, i: nat) {
    |tx.native| <= i < |tx.native| + |tx.token| && tx.token[i - |tx.native|].instructionIndex.Some?
  }

  /** The fingerprint of a row, read off the transaction. */
  lemma RowFingerprint(tx: EnhancedTransaction, i: nat)
    requires i < |Rows(tx)|
    ensures i < |tx.native| ==>
              var nt := tx.native[i];
              Rows(tx)[i].fingerprint == Fingerprint(tx.signature, NativeRef(i), TrimSpace(nt.from), TrimSpace(nt.to), "", nt.amount, NativeSOL)
    ensures i >= |tx.native| ==>
              var tt := tx.token[i - |tx.native|];
              Rows(tx)[i].fingerprint == Fingerprint(tx.signature, TokenRef(tt, i), TrimSpace(tt.from), TrimSpace(tt.to), tt.mint,
                                                     SanitizedAmount(tt.amount), if Fungible(tt) then SPLFungible else OtherAsset)
  {
    hide TokenVerdict, SanitizedAmount, Fungible;
    assert Rows(tx)[i] == Row(tx, i);
  }

  /** Two rows of a transaction share a fingerprint exactly when both are token transfers of the same
      instruction reference moving the same amount of the same asset between the same owners. */
  lemma FingerprintCollision(tx: EnhancedTransaction, i: nat, j: nat)
    requires i < j < |Rows(tx)|
    ensures Rows(tx)[i].fingerprint == Rows(tx)[j].fingerprint <==>
            && ExplicitToken(tx, i) && ExplicitToken(tx, j)
            && var a, b := tx.token[i - |tx.native|], tx.token[j - |tx.native|];
            && a.instructionIndex == b.instructionIndex && a.innerIndex == b.innerIndex
            && TrimSpace(a.from) == TrimSpace(b.from) && TrimSpace(a.to) == TrimSpace(b.to)
            && a.mint == b.mint && SanitizedAmount(a.amount) == SanitizedAmount(b.amount)
            && Fungible(a) == Fungible(b)
  {
    RowFingerprint(tx, i);
    RowFingerprint(tx, j);
    hide SanitizedAmount, Fungible, NativeRow, TokenRow;
  }
}
