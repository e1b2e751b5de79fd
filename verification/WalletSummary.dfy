/** The activity profile by which wallets are sourced. */
module WalletSummary {
  import opened Arithmetic
  import opened Text
  import opened Counting
  import opened Transfers
  import opened Lookalike
  import Decimal
  import DustRules

  datatype SourceMode = VictimInboundDust | AttackerOutboundDust

  /** Whose activity is profiled, against which scan window, thresholds and mode. */
  datatype View = View(address: Address, scanStart: int, thresholds: map<string, nat>, mode: SourceMode)

  datatype WalletStats = WalletStats(
    address: Address, scrapeCount: int, scrapeOutbound: int, scrapeInbound: int, sampleTransactions: nat,
    outboundTransfers: nat, inboundTransfers: nat, uniqueCounterparties: nat, legitOutboundCounterparties: nat,
    scanInboundDustTransfers: nat, uniqueDustRecipients: nat, repeatedInboundDustCounterparts: nat,
    lookalikeInboundDustMatches: nat, sourceScore: nat, maxSameTimestampTX: nat, maxTransfersPerTX: nat,
    unknownDustSPL: nat, discoveredFromSeeds: nat)

  // ---- What is counted ----

  predicate Relevant(row: NormalizedTransfer) { row.eligible && row.status == Resolved }

  function Outbound(v: View): NormalizedTransfer -> bool {
    (r: NormalizedTransfer) => Relevant(r) && r.source == v.address
  }

  function Inbound(v: View): NormalizedTransfer -> bool {
    (r: NormalizedTransfer) => Relevant(r) && r.source != v.address && r.destination == v.address
  }

  function Involved(v: View): NormalizedTransfer -> bool {
    (r: NormalizedTransfer) => Outbound(v)(r) || Inbound(v)(r)
  }

  /** The other owner of a transfer that involves the wallet. */
  function Other(v: View, r: NormalizedTransfer): Address { if r.source == v.address then r.destination else r.source }

  predicate NeedsThreshold(r: NormalizedTransfer, thresholds: map<string, nat>) {
    r.assetType == SPLFungible && DustRules.SourceDust(r, map[]) != DustTrue && r.assetKey !in thresholds
  }

  function UnknownDust(v: View): NormalizedTransfer -> bool {
    (r: NormalizedTransfer) => Involved(v)(r) && NeedsThreshold(r, v.thresholds)
  }

  function HasOther(v: View): NormalizedTransfer -> bool {
    (r: NormalizedTransfer) => Involved(v)(r) && Other(v, r) != "" && Other(v, r) != v.address
  }

  /** A payment above dust before the scan window. */
  function Legit(v: View): NormalizedTransfer -> bool {
    (r: NormalizedTransfer) => Outbound(v)(r) && HasOther(v)(r) && r.blockTime < v.scanStart && DustRules.SourceDust(r, v.thresholds) == DustFalse
  }

  /** Dust of the sourced direction inside the scan window. */
  function Dust(v: View): NormalizedTransfer -> bool {
    (r: NormalizedTransfer) =>
      && HasOther(v)(r) && r.blockTime >= v.scanStart && DustRules.SourceDust(r, v.thresholds) == DustTrue
      && (if v.mode == AttackerOutboundDust then Outbound(v)(r) else Inbound(v)(r))
  }

  function DustWith(v: View, c: Address): NormalizedTransfer -> bool {
    (r: NormalizedTransfer) => Dust(v)(r) && Other(v, r) == c
  }

  function Others(v: View, rows: seq<NormalizedTransfer>, p: NormalizedTransfer -> bool): set<Address> {
    set r | r in rows && p(r) :: Other(v, r)
  }

  /** Which transfers of a transaction are counted as what. A counted transfer has two different owners, so its other owner
      is always known. */
  lemma FiguresMeaning(v: View, tx: EnhancedTransaction, i: nat)
    requires i < TransferCount(tx)
    ensures var row := Rows(tx)[i];
            && (Outbound(v)(row) <==> Counts(tx, i) && exists to :: Moves(tx, i, v.address, to))
            && (Inbound(v)(row) <==> Counts(tx, i) && exists from :: Moves(tx, i, from, v.address))
            && (HasOther(v)(row) <==> Outbound(v)(row) || Inbound(v)(row))
            && (Legit(v)(row) <==> Outbound(v)(row) && tx.time < v.scanStart && DustRules.SourceDust(row, v.thresholds) == DustFalse)
            && (Dust(v)(row) <==> tx.time >= v.scanStart && DustRules.SourceDust(row, v.thresholds) == DustTrue
                                  && (v.mode == VictimInboundDust ==> Inbound(v)(row)) && (v.mode == AttackerOutboundDust ==> Outbound(v)(row)))
            && (Outbound(v)(row) ==> Moves(tx, i, v.address, Other(v, row))) && (Inbound(v)(row) ==> Moves(tx, i, Other(v, row), v.address))
  {
    RowsAreRecorded(tx);
    hide Rows, DigitsOnly, DustRules.SourceDust;
    var row := Rows(tx)[i];
    assert Records(tx, i, row);
    assert Moves(tx, i, row.source, row.destination);
    assert forall a, b :: Moves(tx, i, a, b) <==> a == row.source && b == row.destination;
    if Counts(tx, i) { assert Resolves(tx, i) && row.source != row.destination && row.source != "" && row.destination != ""; }
    hide Records, Counts, Resolves, Moves;
    if row.eligible { Directions(v, row); } else { NotCounted(v, row, Tally(0, 0, 0, {}, {}, map[])); }
  }

  /** A token transfer counts as unknown when its mint has no threshold and its amount is not all zeros. */
  lemma UnknownDustMeaning(v: View, r: NormalizedTransfer)
    ensures var t := TrimSpace(r.amountRaw);
            UnknownDust(v)(r) <==>
              && (Outbound(v)(r) || Inbound(v)(r)) && r.assetType == SPLFungible && r.assetKey !in v.thresholds
              && !(t != "" && forall k :: 0 <= k < |t| ==> t[k] == '0')
  {
    var t := TrimSpace(r.amountRaw);
    Decimal.ZeroDigits(t);
    assert DustRules.SourceDust(r, map[]) == DustTrue <==> t != "" && Decimal.AllZeros(t);
    hide DustRules.SourceDust;
    assert UnknownDust(v)(r) <==> Involved(v)(r) && NeedsThreshold(r, v.thresholds);
  }

  function RowsOfTx(tx: EnhancedTransaction): seq<NormalizedTransfer> { if tx.signature == "" then [] else Rows(tx) }

  function AllRows(txs: seq<EnhancedTransaction>): seq<NormalizedTransfer> {
    if txs == [] then [] else AllRows(txs[..|txs| - 1]) + RowsOfTx(txs[|txs| - 1])
  }

  function AtSecond(t: int): EnhancedTransaction -> bool { (tx: EnhancedTransaction) => tx.time == t }

  /** The largest number of transactions sharing a second. */
  function Busiest(txs: seq<EnhancedTransaction>): nat {
    if txs == [] then 0 else Max(Busiest(txs[..|txs| - 1]), Count(txs, AtSecond(txs[|txs| - 1].time)))
  }

  /** The number of the wallet's transfers in one transaction. */
  function Width(v: View, tx: EnhancedTransaction): nat { Count(RowsOfTx(tx), Involved(v)) }

  /** The largest of these numbers. */
  function Widest(v: View, txs: seq<EnhancedTransaction>): nat {
    if txs == [] then 0 else Max(Widest(v, txs[..|txs| - 1]), Width(v, txs[|txs| - 1]))
  }

  predicate Resembles(c: Address, legit: set<Address>) {
    exists l :: l in legit && Lookalike.Resembles(c, l, MatchRule(4, 4, 6))
  }

  /** The owners among `cs` with whom dust was exchanged at least twice. */
  function Repeated(v: View, rows: seq<NormalizedTransfer>, cs: set<Address>): set<Address> {
    set c | c in cs && Count(rows, DustWith(v, c)) >= 2
  }

  function Lookalikes(cs: set<Address>, legit: set<Address>): set<Address> { set c | c in cs && Resembles(c, legit) }

  function SourceScore(s: WalletStats): nat {
    s.lookalikeInboundDustMatches * 100 + s.repeatedInboundDustCounterparts * 50 + s.scanInboundDustTransfers * 10
    + s.legitOutboundCounterparties * 3 + s.discoveredFromSeeds
  }

  /** What one more of each figure is worth. */
  lemma ScoreMeaning(s: WalletStats)
    ensures SourceScore(s.(lookalikeInboundDustMatches := s.lookalikeInboundDustMatches + 1)) == SourceScore(s) + 100
    ensures SourceScore(s.(repeatedInboundDustCounterparts := s.repeatedInboundDustCounterparts + 1)) == SourceScore(s) + 50
    ensures SourceScore(s.(scanInboundDustTransfers := s.scanInboundDustTransfers + 1)) == SourceScore(s) + 10
    ensures SourceScore(s.(legitOutboundCounterparties := s.legitOutboundCounterparties + 1)) == SourceScore(s) + 3
    ensures SourceScore(s.(discoveredFromSeeds := s.discoveredFromSeeds + 1)) == SourceScore(s) + 1
    ensures SourceScore(s) == 0 <==>
              && s.lookalikeInboundDustMatches == s.repeatedInboundDustCounterparts == s.scanInboundDustTransfers == 0
              && s.legitOutboundCounterparties == s.discoveredFromSeeds == 0
  {
  }

  function Scored(s: WalletStats): WalletStats { s.(sourceScore := SourceScore(s)) }

  /** The profile, each figure a count over the transfers or a cardinality of a set of owners. */
  ghost function Summary(v: View, txs: seq<EnhancedTransaction>): WalletStats {
    var rows := AllRows(txs);
    var legit, dust := Others(v, rows, Legit(v)), Others(v, rows, Dust(v));
    Scored(WalletStats(
      v.address, 0, 0, 0, |txs|, Count(rows, Outbound(v)), Count(rows, Inbound(v)), |Others(v, rows, HasOther(v))|, |legit|,
      Count(rows, Dust(v)), |dust|, |Repeated(v, rows, dust)|, |Lookalikes(dust, legit)|, 0, Busiest(txs), Widest(v, txs), Count(rows, UnknownDust(v)), 0))
  }

  /** The busiest second is a maximum over all seconds. */
  lemma {:induction false} BusiestIsMaximal(txs: seq<EnhancedTransaction>, t: int)
    ensures Count(txs, AtSecond(t)) <= Busiest(txs)
    ensures txs != [] ==> exists tx :: tx in txs && Busiest(txs) == Count(txs, AtSecond(tx.time))
  {
    if txs != [] {
      var init, last := txs[..|txs| - 1], txs[|txs| - 1];
      assert txs == init + [last];
      BusiestIsMaximal(init, t);
      if init != [] && Busiest(txs) != Count(txs, AtSecond(last.time)) {
        var tx :| tx in init && Busiest(init) == Count(init, AtSecond(tx.time));
        assert tx in txs;
      }
    }
  }

  lemma {:induction false} WidestBounds(v: View, txs: seq<EnhancedTransaction>, i: nat)
    requires i < |txs|
    ensures Width(v, txs[i]) <= Widest(v, txs)
  {
    hide Width;
    if i < |txs| - 1 { WidestBounds(v, txs[..|txs| - 1], i); }
  }

  lemma {:induction false} WidestIsReached(v: View, txs: seq<EnhancedTransaction>) returns (i: nat)
    requires txs != []
    ensures i < |txs| && Widest(v, txs) == Width(v, txs[i])
  {
    hide Width;
    i := |txs| - 1;
    if i > 0 && Widest(v, txs) != Width(v, txs[i]) { i := WidestIsReached(v, txs[..i]); }
  }

  /** The widest transaction is a maximum over all of them. */
  lemma WidestIsMaximal(v: View, txs: seq<EnhancedTransaction>)
    ensures forall i :: 0 <= i < |txs| ==> Width(v, txs[i]) <= Widest(v, txs)
    ensures txs != [] ==> exists i :: 0 <= i < |txs| && Widest(v, txs) == Width(v, txs[i])
  {
    forall i | 0 <= i < |txs| ensures Width(v, txs[i]) <= Widest(v, txs) { WidestBounds(v, txs, i); }
    if txs != [] { var i := WidestIsReached(v, txs); }
  }

  // ---- Counting transfers ----

  /** What the pass over the transfers accumulates. */
  datatype Tally = Tally(
    outbound: nat, inbound: nat, unknown: nat, counterparties: set<Address>, legit: set<Address>, dust: map<Address, nat>)

  function DustOf(dust: map<Address, nat>, c: Address): nat { if c in dust then dust[c] else 0 }

  ghost predicate Tallies(t: Tally, v: View, rows: seq<NormalizedTransfer>) {
    && t.outbound == Count(rows, Outbound(v)) && t.inbound == Count(rows, Inbound(v)) && t.unknown == Count(rows, UnknownDust(v))
    && t.counterparties == Others(v, rows, HasOther(v)) && t.legit == Others(v, rows, Legit(v))
    && t.dust.Keys == Others(v, rows, Dust(v)) && forall c :: DustOf(t.dust, c) == Count(rows, DustWith(v, c))
  }

  /** `out` is `t` with the transfer counted where it belongs, dust aside. */
  ghost predicate Counted(v: View, r: NormalizedTransfer, t: Tally, out: Tally) {
    && out.outbound == t.outbound + (if Outbound(v)(r) then 1 else 0) && out.inbound == t.inbound + (if Inbound(v)(r) then 1 else 0)
    && out.unknown == t.unknown + (if UnknownDust(v)(r) then 1 else 0)
    && out.counterparties == t.counterparties + (if HasOther(v)(r) then {Other(v, r)} else {})
    && out.legit == t.legit + if Legit(v)(r) then {Other(v, r)} else {}
  }

  ghost predicate DustCounted(v: View, r: NormalizedTransfer, t: Tally, out: Tally) {
    out.dust == if Dust(v)(r) then t.dust[Other(v, r) := DustOf(t.dust, Other(v, r)) + 1] else t.dust
  }

  /** A transfer out of the wallet. */
  method AddOutbound(v: View, r: NormalizedTransfer, t: Tally, dust: DustStatus, needsThreshold: bool) returns (out: Tally)
    requires r.eligible && r.status == Resolved && r.source == v.address
    requires dust == DustRules.SourceDust(r, v.thresholds) && needsThreshold == NeedsThreshold(r, v.thresholds)
    ensures Counted(v, r, t, out) && out.dust == t.dust
  {
    hide DustRules.SourceDust, NeedsThreshold;
    Directions(v, r);
    out := t.(outbound := t.outbound + 1);
    if r.destination != "" && r.destination != v.address {
      out := out.(counterparties := out.counterparties + {r.destination});
      if r.blockTime < v.scanStart && dust == DustFalse { out := out.(legit := out.legit + {r.destination}); }
    }
    if needsThreshold { out := out.(unknown := out.unknown + 1); }
  }

  /** A transfer into the wallet. */
  method AddInbound(v: View, r: NormalizedTransfer, t: Tally, dust: DustStatus, needsThreshold: bool) returns (out: Tally)
    requires r.eligible && r.status == Resolved && r.source != v.address && r.destination == v.address
    requires dust == DustRules.SourceDust(r, v.thresholds) && needsThreshold == NeedsThreshold(r, v.thresholds)
    ensures Counted(v, r, t, out) && DustCounted(v, r, t, out)
  {
    hide DustRules.SourceDust, NeedsThreshold;
    Directions(v, r);
    out := t.(inbound := t.inbound + 1);
    if r.source != "" && r.source != v.address {
      out := out.(counterparties := out.counterparties + {r.source});
      if v.mode == VictimInboundDust && r.blockTime >= v.scanStart && dust == DustTrue {
        out := out.(dust := out.dust[r.source := DustOf(out.dust, r.source) + 1]);
      }
    }
    if needsThreshold { out := out.(unknown := out.unknown + 1); }
  }

  /** One transfer: the switch over its direction, then the attacker-mode check. */
  method AddTransfer(v: View, r: NormalizedTransfer, t: Tally) returns (out: Tally, involved: bool)
    ensures involved == Involved(v)(r) && Counted(v, r, t, out) && DustCounted(v, r, t, out)
  {
    hide DustRules.SourceDust, Counted;
    out, involved := t, false;
    if !r.eligible || r.status != Resolved {
      NotCounted(v, r, t);
      return;
    }
    Directions(v, r);
    var dust := DustRules.SourceDustStatus(r, v.thresholds);
    var zero := DustRules.SourceDustStatus(r, map[]);
    var needsThreshold := r.assetType == SPLFungible && zero != DustTrue && r.assetKey !in v.thresholds;
    if r.source == v.address {
      involved := true;
      out := AddOutbound(v, r, t, dust, needsThreshold);
    } else if r.destination == v.address {
      involved := true;
      out := AddInbound(v, r, t, dust, needsThreshold);
    } else {
      NotCounted(v, r, t);
    }
    if v.mode == AttackerOutboundDust && r.source == v.address && r.destination != "" && r.destination != v.address
       && r.blockTime >= v.scanStart && dust == DustTrue {
      ghost var before := out;
      out := out.(dust := out.dust[r.destination := DustOf(out.dust, r.destination) + 1]);
      DustAside(v, r, t, before, out);
    }
  }

  lemma Directions(v: View, r: NormalizedTransfer)
    requires Relevant(r)
    ensures Outbound(v)(r) <==> r.source == v.address
    ensures Inbound(v)(r) <==> r.source != v.address && r.destination == v.address
    ensures Involved(v)(r) <==> r.source == v.address || r.destination == v.address
  {
    assert Involved(v)(r) <==> Outbound(v)(r) || Inbound(v)(r);
  }

  lemma NotCounted(v: View, r: NormalizedTransfer, t: Tally)
    requires !r.eligible || r.status != Resolved || (r.source != v.address && r.destination != v.address)
    ensures !Involved(v)(r) && Counted(v, r, t, t) && DustCounted(v, r, t, t)
  {
    hide DustRules.SourceDust, NeedsThreshold;
    assert !Outbound(v)(r) && !Inbound(v)(r);
  }

  lemma DustAside(v: View, r: NormalizedTransfer, t: Tally, out: Tally, more: Tally)
    requires Counted(v, r, t, out) && more == out.(dust := more.dust)
    ensures Counted(v, r, t, more)
  {
  }

  lemma OthersSnoc(v: View, rows: seq<NormalizedTransfer>, r: NormalizedTransfer, p: NormalizedTransfer -> bool)
    ensures Others(v, rows + [r], p) == Others(v, rows, p) + if p(r) then {Other(v, r)} else {}
  {
    assert forall x :: x in rows + [r] <==> x in rows || x == r;
  }

  lemma TallySnoc(v: View, rows: seq<NormalizedTransfer>, r: NormalizedTransfer, t: Tally, out: Tally)
    requires Tallies(t, v, rows)
    requires Counted(v, r, t, out) && DustCounted(v, r, t, out)
    ensures Tallies(out, v, rows + [r])
  {
    hide Outbound, Inbound, UnknownDust, HasOther, Legit, Dust, Others;
    CountSnoc(rows, r, Outbound(v));
    CountSnoc(rows, r, Inbound(v));
    CountSnoc(rows, r, UnknownDust(v));
    OthersSnoc(v, rows, r, HasOther(v));
    OthersSnoc(v, rows, r, Legit(v));
    OthersSnoc(v, rows, r, Dust(v));
    forall c ensures DustOf(out.dust, c) == Count(rows + [r], DustWith(v, c)) {
      CountSnoc(rows, r, DustWith(v, c));
    }
  }

  /** The transfers of one transaction. */
  method AddRows(v: View, rows: seq<NormalizedTransfer>, t: Tally, ghost past: seq<NormalizedTransfer>) returns (out: Tally, inTx: nat)
    requires Tallies(t, v, past)
    ensures Tallies(out, v, past + rows) && inTx == Count(rows, Involved(v))
  {
    hide Tallies, Counted, DustCounted, Involved;
    out, inTx := t, 0;
    assert past + rows[..0] == past;
    for i := 0 to |rows|
      invariant Tallies(out, v, past + rows[..i]) && inTx == Count(rows[..i], Involved(v))
    {
      ghost var before := out;
      var involved;
      out, involved := AddTransfer(v, rows[i], out);
      TallySnoc(v, past + rows[..i], rows[i], before, out);
      assert past + rows[..i + 1] == past + rows[..i] + [rows[i]];
      CountStep(rows, i, Involved(v));
      if involved { inTx := inTx + 1; }
    }
    assert rows[..|rows|] == rows;
  }

  method HasLookalikeMatch(suspicious: Address, legit: set<Address>) returns (found: bool)
    ensures found == Resembles(suspicious, legit)
  {
    var todo := legit;
    while todo != {}
      invariant todo <= legit
      invariant forall l :: l in legit - todo ==> !Lookalike.Resembles(suspicious, l, MatchRule(4, 4, 6))
      decreases |todo|
    {
      var l :| l in todo;
      var prefix := CommonPrefixLength(suspicious, l);
      var suffix := CommonSuffixLength(suspicious, l);
      ThresholdMeaning(suspicious, l, MatchRule(4, 4, 6));
      if (prefix >= 4 && suffix >= 4) || prefix >= 6 || suffix >= 6 { return true; }
      todo := todo - {l};
    }
    return false;
  }

  /** Dust exchanged with the owners in `cs`. */
  function DustAmong(v: View, cs: set<Address>): NormalizedTransfer -> bool {
    (r: NormalizedTransfer) => Dust(v)(r) && Other(v, r) in cs
  }

  lemma {:induction false} DustAmongOneMore(v: View, rows: seq<NormalizedTransfer>, cs: set<Address>, c: Address)
    requires c !in cs
    ensures Count(rows, DustAmong(v, cs + {c})) == Count(rows, DustAmong(v, cs)) + Count(rows, DustWith(v, c))
  {
    hide Dust;
    if rows != [] { DustAmongOneMore(v, rows[..|rows| - 1], cs, c); }
  }

  lemma {:induction false} DustAmongNone(v: View, rows: seq<NormalizedTransfer>)
    ensures Count(rows, DustAmong(v, {})) == 0
  {
    if rows != [] { DustAmongNone(v, rows[..|rows| - 1]); }
  }

  lemma {:induction false} DustAmongAll(v: View, rows: seq<NormalizedTransfer>, cs: set<Address>)
    requires Others(v, rows, Dust(v)) <= cs
    ensures Count(rows, DustAmong(v, cs)) == Count(rows, Dust(v))
  {
    if rows != [] {
      var init := rows[..|rows| - 1];
      assert rows == init + [rows[|rows| - 1]];
      assert rows[|rows| - 1] in rows;
      DustAmongAll(v, init, cs);
    }
  }

  lemma OneMoreRepeated(v: View, rows: seq<NormalizedTransfer>, cs: set<Address>, c: Address)
    requires c !in cs
    ensures |Repeated(v, rows, cs + {c})| == |Repeated(v, rows, cs)| + if Count(rows, DustWith(v, c)) >= 2 then 1 else 0
  {
    hide DustWith, Count;
    assert Repeated(v, rows, cs + {c}) == Repeated(v, rows, cs) + if Count(rows, DustWith(v, c)) >= 2 then {c} else {};
  }

  lemma OneMoreLookalike(cs: set<Address>, c: Address, legit: set<Address>)
    requires c !in cs
    ensures |Lookalikes(cs + {c}, legit)| == |Lookalikes(cs, legit)| + if Resembles(c, legit) then 1 else 0
  {
    hide Resembles;
    assert Lookalikes(cs + {c}, legit) == Lookalikes(cs, legit) + if Resembles(c, legit) then {c} else {};
  }

  lemma NoOwners(v: View, rows: seq<NormalizedTransfer>, legit: set<Address>)
    ensures Repeated(v, rows, {}) == {} && Lookalikes({}, legit) == {}
  {
  }

  /** The last loop, over the dust map in whatever order iteration yields it. */
  method SumDust(v: View, rows: seq<NormalizedTransfer>, dust: map<Address, nat>, legit: set<Address>)
    returns (total: nat, repeated: nat, lookalikes: nat)
    requires dust.Keys == Others(v, rows, Dust(v)) && forall c :: DustOf(dust, c) == Count(rows, DustWith(v, c))
    ensures total == Count(rows, Dust(v)) && repeated == |Repeated(v, rows, dust.Keys)| && lookalikes == |Lookalikes(dust.Keys, legit)|
  {
    hide Dust, Others, DustWith, Resembles, Repeated, Lookalikes, DustAmong;
    total, repeated, lookalikes := 0, 0, 0;
    var todo := dust.Keys;
    ghost var done: set<Address> := {};
    DustAmongNone(v, rows);
    NoOwners(v, rows, legit);
    while todo != {}
      invariant done + todo == dust.Keys && done !! todo
      invariant total == Count(rows, DustAmong(v, done)) && repeated == |Repeated(v, rows, done)| && lookalikes == |Lookalikes(done, legit)|
      decreases |todo|
    {
      var c :| c in todo;
      DustAmongOneMore(v, rows, done, c);
      OneMoreRepeated(v, rows, done, c);
      OneMoreLookalike(done, c, legit);
      assert DustOf(dust, c) == Count(rows, DustWith(v, c));
      total := total + dust[c];
      if dust[c] >= 2 { repeated := repeated + 1; }
      var alike := HasLookalikeMatch(c, legit);
      if alike { lookalikes := lookalikes + 1; }
      done, todo := done + {c}, todo - {c};
    }
    assert done == dust.Keys;
    DustAmongAll(v, rows, done);
  }

  /** Transactions seen per second. */
  ghost predicate CountsSeconds(perSecond: map<int, nat>, txs: seq<EnhancedTransaction>) {
    forall s :: Count(txs, AtSecond(s)) == if s in perSecond then perSecond[s] else 0
  }

  lemma SecondStep(perSecond: map<int, nat>, txs: seq<EnhancedTransaction>, tx: EnhancedTransaction)
    requires CountsSeconds(perSecond, txs)
    ensures var t := tx.time as int;
            var after := perSecond[t := (if t in perSecond then perSecond[t] else 0) + 1];
            CountsSeconds(after, txs + [tx]) && Busiest(txs + [tx]) == Max(Busiest(txs), after[t])
  {
    assert (txs + [tx])[..|txs|] == txs;
    forall s ensures Count(txs + [tx], AtSecond(s)) == Count(txs, AtSecond(s)) + if AtSecond(s)(tx) then 1 else 0 {
      CountSnoc(txs, tx, AtSecond(s));
    }
  }

  lemma RowsStep(v: View, txs: seq<EnhancedTransaction>, tx: EnhancedTransaction)
    ensures AllRows(txs + [tx]) == AllRows(txs) + RowsOfTx(tx)
    ensures Widest(v, txs + [tx]) == Max(Widest(v, txs), Width(v, tx))
  {
    assert (txs + [tx])[..|txs|] == txs;
  }

  /** What holds after the transactions `txs`. */
  ghost predicate Profiled(v: View, txs: seq<EnhancedTransaction>, t: Tally, perSecond: map<int, nat>, busiest: nat, widest: nat) {
    Tallies(t, v, AllRows(txs)) && CountsSeconds(perSecond, txs) && busiest == Busiest(txs) && widest == Widest(v, txs)
  }

  lemma NothingProfiled(v: View)
    ensures Profiled(v, [], Tally(0, 0, 0, {}, {}, map[]), map[], 0, 0)
  {
  }

  /** One transaction; one that cannot be normalized counts towards its second only. */
  method AddTransaction(v: View, tx: EnhancedTransaction, t: Tally, perSecond: map<int, nat>, busiest: nat, widest: nat, ghost past: seq<EnhancedTransaction>)
    returns (t': Tally, perSecond': map<int, nat>, busiest': nat, widest': nat)
    requires Profiled(v, past, t, perSecond, busiest, widest)
    ensures Profiled(v, past + [tx], t', perSecond', busiest', widest')
  {
    hide Tallies, Involved, CountsSeconds, AtSecond, AllRows, Busiest, Widest, Rows, Records, TransferCount;
    t', busiest', widest' := t, busiest, widest;
    SecondStep(perSecond, past, tx);
    RowsStep(v, past, tx);
    var second := tx.time as int;
    perSecond' := perSecond[second := (if second in perSecond then perSecond[second] else 0) + 1];
    if perSecond'[second] > busiest' { busiest' := perSecond'[second]; }
    var rows := NormalizeEnhancedTx(tx);
    if rows.Failure? {
      assert AllRows(past) + [] == AllRows(past);
      return;
    }
    var inTx;
    t', inTx := AddRows(v, rows.value, t, AllRows(past));
    if inTx > widest' { widest' := inTx; }
  }

  /** The pass over the transactions. */
  method TallyAll(v: View, txs: seq<EnhancedTransaction>) returns (t: Tally, perSecond: map<int, nat>, busiest: nat, widest: nat)
    ensures Profiled(v, txs, t, perSecond, busiest, widest)
  {
    hide Profiled;
    t, perSecond, busiest, widest := Tally(0, 0, 0, {}, {}, map[]), map[], 0, 0;
    NothingProfiled(v);
    for i := 0 to |txs|
      invariant Profiled(v, txs[..i], t, perSecond, busiest, widest)
    {
      assert txs[..i + 1] == txs[..i] + [txs[i]];
      t, perSecond, busiest, widest := AddTransaction(v, txs[i], t, perSecond, busiest, widest, txs[..i]);
    }
    assert txs[..|txs|] == txs;
  }

  /** The profile of a wallet from a sample of its transactions. */
  method SummarizeWallet(v: View, txs: seq<EnhancedTransaction>) returns (s: WalletStats)
    ensures s == Summary(v, txs)
  {
    hide AllRows, Others, Repeated, Lookalikes, Busiest, Widest, Dust, Legit, HasOther, Outbound, Inbound, UnknownDust, DustWith;
    var t, _, busiest, widest := TallyAll(v, txs);
    var total, repeated, lookalikes := SumDust(v, AllRows(txs), t.dust, t.legit);
    s := WalletStats(
      v.address, 0, 0, 0, |txs|, t.outbound, t.inbound, |t.counterparties|, |t.legit|, total, |t.dust|, repeated, lookalikes,
      0, busiest, widest, t.unknown, 0);
    s := s.(sourceScore := SourceScore(s));
  }
}
