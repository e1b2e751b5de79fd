/** What a selection of wallets comes to when the provider answers: the best of all candidates that qualify. */
module TopWallets {
  import opened Arithmetic
  import opened Text
  import opened Wrappers
  import opened Counting
  import opened Transfers
  import opened Fetch
  import opened WalletSummary
  import opened Source
  import Sorting

  /** The profiles of the candidates that qualify on their whole window. */
  ghost function QualifiedOf(client: Client, cs: seq<Discovery>, o: Options): seq<WalletStats> {
    if cs == [] then []
    else
      var before, c := QualifiedOf(client, cs[..|cs| - 1], o), cs[|cs| - 1];
      var s := TrueStats(client.History(c.address), c, o);
      if StatsRejectReason(s, o).None? then before + [s] else before
  }

  lemma {:induction false} QualifiedOfMembers(client: Client, cs: seq<Discovery>, o: Options, s: WalletStats)
    ensures s in QualifiedOf(client, cs, o) <==> exists c :: c in cs && Qualified(client.History(c.address), c, o, s)
  {
    hide TrueStats, StatsRejectReason;
    if cs != [] {
      var init, last := cs[..|cs| - 1], cs[|cs| - 1];
      assert cs == init + [last];
      QualifiedOfMembers(client, init, o, s);
      assert forall c :: c in cs <==> c in init || c == last;
    }
  }

  lemma TrueAddress(h: seq<EnhancedTransaction>, c: Discovery, o: Options)
    ensures TrueStats(h, c, o).address == c.address
  {
    SummaryHead(ViewOf(c.address, o), Window(h, WindowStart(o), o.scanEnd));
  }

  ghost predicate DistinctAddresses(s: seq<WalletStats>) { forall i, j :: 0 <= i < j < |s| ==> s[i].address != s[j].address }

  lemma {:induction false} QualifiedAreDistinct(client: Client, cs: seq<Discovery>, o: Options)
    requires Distinct(cs)
    ensures DistinctAddresses(QualifiedOf(client, cs, o))
  {
    hide TrueStats, StatsRejectReason;
    if cs != [] {
      var init, last := cs[..|cs| - 1], cs[|cs| - 1];
      assert cs == init + [last];
      QualifiedAreDistinct(client, init, o);
      var before, s := QualifiedOf(client, init, o), TrueStats(client.History(last.address), last, o);
      TrueAddress(client.History(last.address), last, o);
      forall i | 0 <= i < |before| ensures before[i].address != s.address {
        QualifiedOfMembers(client, init, o, before[i]);
        var c :| c in init && Qualified(client.History(c.address), c, o, before[i]);
        TrueAddress(client.History(c.address), c, o);
        var k :| 0 <= k < |init| && init[k] == c;
        assert cs[k].address != cs[|cs| - 1].address;
      }
    }
  }

  /** The profiles of the wallets that were turned away. */
  function TurnedAwayStats(rejected: seq<RejectedWallet>): seq<WalletStats> {
    if rejected == [] then []
    else
      var before, x := TurnedAwayStats(rejected[..|rejected| - 1]), rejected[|rejected| - 1];
      if TurnedAway(x) then before + [x.stats] else before
  }

  lemma {:induction false} TurnedAwayMembers(rejected: seq<RejectedWallet>)
    ensures forall s :: s in TurnedAwayStats(rejected) <==> exists x :: x in rejected && TurnedAway(x) && x.stats == s
  {
    hide TurnedAway;
    if rejected != [] {
      var init, last := rejected[..|rejected| - 1], rejected[|rejected| - 1];
      assert rejected == init + [last];
      TurnedAwayMembers(init);
      assert forall x :: x in rejected <==> x in init || x == last;
    }
  }

  lemma {:induction false} TurnedAwayCounts(rejected: seq<RejectedWallet>, a: Address)
    ensures Count(TurnedAwayStats(rejected), IsStats(a)) <= Count(rejected, IsRejection(a))
  {
    hide TurnedAway;
    if rejected != [] {
      var init, last := rejected[..|rejected| - 1], rejected[|rejected| - 1];
      TurnedAwayCounts(init, a);
      CountSnoc(TurnedAwayStats(init), last.stats, IsStats(a));
    }
  }

  /** Every candidate's window lies inside the caps of a provider that answers every request. */
  ghost predicate Undisturbed(client: Client, cs: seq<Discovery>, o: Options) {
    && Responds(client) && ValidParams(SampleParams(o))
    && forall c :: c in cs ==> Fits(client, client.History(c.address), SampleParams(o))
  }

  /** Then a rejection judges the whole profile or turns away a wallet that qualifies. */
  lemma OnlyProfilesReject(client: Client, cs: seq<Discovery>, o: Options, c: Discovery, x: RejectedWallet, from: nat, to: nat)
    requires Undisturbed(client, cs, o) && c in cs && Justified(client, c, o, x, from, to)
    ensures x.deepDive == NotQueued && x.stats == TrueStats(client.History(c.address), c, o)
    ensures if TurnedAway(x) then StatsRejectReason(x.stats, o).None? else StatsRejectReason(x.stats, o) == Some(x.reason)
  {
    hide TrueStats, StatsRejectReason, Fits, Explained, ErrorExplained, ShouldDeepDive;
    NothingExplains(client, client.History(c.address), SampleParams(o), from, to);
  }

  lemma AllCountedOnce(r: SourceResult, cs: seq<Discovery>, s: seq<WalletStats>)
    requires Partitions(r, cs) && s == r.accepted + TurnedAwayStats(r.rejected)
    ensures DistinctAddresses(s)
  {
    forall i, j | 0 <= i < j < |s| ensures s[i].address != s[j].address {
      var a := s[j].address;
      CountAppend(r.accepted, TurnedAwayStats(r.rejected), IsStats(a));
      TurnedAwayCounts(r.rejected, a);
      CountRemove(s, j, IsStats(a));
      var rest := s[..j] + s[j + 1..];
      assert rest[i] == s[i] && rest[i] in rest;
      CountPositive(rest, IsStats(a));
    }
  }

  lemma SameAddressSameCandidate(cs: seq<Discovery>, c: Discovery, d: Discovery)
    requires Distinct(cs) && c in cs && d in cs && c.address == d.address
    ensures c == d
  {
    var i :| 0 <= i < |cs| && cs[i] == c;
    var j :| 0 <= j < |cs| && cs[j] == d;
  }

  /** Accepted and turned away together are exactly the wallets that qualify. */
  lemma PlacedAreQualified(client: Client, cs: seq<Discovery>, o: Options, r: SourceResult, from: nat, to: nat, s: WalletStats)
    requires Distinct(cs) && Partitions(r, cs) && Reliable(client, cs, o, r, from, to) && Undisturbed(client, cs, o)
    ensures s in r.accepted + TurnedAwayStats(r.rejected) <==> s in QualifiedOf(client, cs, o)
  {
    hide TrueStats, StatsRejectReason, Justified, Undisturbed;
    TurnedAwayMembers(r.rejected);
    QualifiedOfMembers(client, cs, o, s);
    if s in TurnedAwayStats(r.rejected) {
      var x :| x in r.rejected && TurnedAway(x) && x.stats == s;
      var c :| c in cs && Justified(client, c, o, x, from, to);
      OnlyProfilesReject(client, cs, o, c, x, from, to);
      assert Qualified(client.History(c.address), c, o, s);
    }
    if s in QualifiedOf(client, cs, o) {
      var c :| c in cs && Qualified(client.History(c.address), c, o, s);
      QualifiedIsPlaced(client, cs, o, r, from, to, c);
    }
  }

  lemma QualifiedIsPlaced(client: Client, cs: seq<Discovery>, o: Options, r: SourceResult, from: nat, to: nat, c: Discovery)
    requires Distinct(cs) && Partitions(r, cs) && Reliable(client, cs, o, r, from, to) && Undisturbed(client, cs, o)
    requires c in cs && StatsRejectReason(TrueStats(client.History(c.address), c, o), o).None?
    ensures var s := TrueStats(client.History(c.address), c, o);
            s in r.accepted || exists x :: x in r.rejected && TurnedAway(x) && x.stats == s
  {
    hide TrueStats, StatsRejectReason, Justified, Undisturbed;
    CountPositive(r.accepted, IsStats(c.address));
    CountPositive(r.rejected, IsRejection(c.address));
    if a :| a in r.accepted && a.address == c.address {
      var d :| d in cs && Qualified(client.History(d.address), d, o, a);
      TrueAddress(client.History(d.address), d, o);
      SameAddressSameCandidate(cs, c, d);
    } else {
      assert Count(r.accepted, IsStats(c.address)) + Count(r.rejected, IsRejection(c.address)) == 1;
      var x :| x in r.rejected && x.stats.address == c.address;
      var d :| d in cs && Justified(client, d, o, x, from, to);
      OnlyProfilesReject(client, cs, o, d, x, from, to);
      TrueAddress(client.History(d.address), d, o);
      SameAddressSameCandidate(cs, c, d);
    }
  }

  lemma NoRankTies(s: seq<WalletStats>)
    requires DistinctAddresses(s)
    ensures Sorting.AntisymmetricOn(s, Ranks)
  {
    forall a, b | a in s && b in s && Ranks(a, b) && Ranks(b, a) ensures a == b {
      LexAntisymmetric(a.address, b.address);
      var i :| 0 <= i < |s| && s[i] == a;
      var j :| 0 <= j < |s| && s[j] == b;
    }
  }

  lemma JoinedIsSorted(front: seq<WalletStats>, rest: seq<WalletStats>)
    requires Sorting.SortedBy(front, Ranks) && Sorting.SortedBy(rest, Ranks) && forall a, b :: a in front && b in rest ==> Ranks(a, b)
    ensures Sorting.SortedBy(front + rest, Ranks)
  {
    hide Ranks;
    var whole := front + rest;
    forall i, j | 0 <= i < j < |whole| ensures Ranks(whole[i], whole[j]) {
      if i < |front| <= j { assert front[i] in front && rest[j - |front|] in rest; }
    }
  }

  /** A ranked front and a rest that ranks after it are the front of the ranking of both. */
  lemma FrontOfRanking(front: seq<WalletStats>, rest: seq<WalletStats>, all: seq<WalletStats>)
    requires multiset(front + rest) == multiset(all) && DistinctAddresses(all)
    requires Sorting.SortedBy(front, Ranks) && forall a, b :: a in front && b in rest ==> Ranks(a, b)
    ensures |all| == |front| + |rest| && Sorting.SortBy(all, Ranks)[..|front|] == front
  {
    var sorted, ranked := Sorting.SortBy(rest, Ranks), Sorting.SortBy(all, Ranks);
    hide Ranks;
    RanksOrders(rest);
    RanksOrders(all);
    Sorting.SortSorts(rest, Ranks);
    Sorting.SortSorts(all, Ranks);
    Sorting.SameElements(rest, sorted);
    Sorting.SameElements(front + rest, all);
    Sorting.SameElements(ranked, all);
    NoRankTies(all);
    var whole := front + sorted;
    JoinedIsSorted(front, sorted);
    assert multiset(whole) == multiset(ranked);
    Sorting.SortedUnique(ranked, whole, Ranks);
    assert whole[..|front|] == front;
  }

  /** When the provider answers and every window lies inside the caps, the accepted wallets are exactly the first
      `targetCount` of all candidates that qualify on their whole window, in the four-key order. */
  lemma SelectionIsExact(client: Client, cs: seq<Discovery>, o: Options, r: SourceResult, queue: seq<DeepDive>, from: nat, to: nat)
    requires Defaulted(o) && Distinct(cs) && Undisturbed(client, cs, o) && Selected(client, cs, o, r, queue, from, to)
    ensures var ranked := Sorting.SortBy(QualifiedOf(client, cs, o), Ranks);
            r.accepted == ranked[..Min(|ranked|, o.targetCount)]
  {
    forall a: WalletStats, b: WalletStats ensures Ranks(a, b) <==> NoWorse(a, b) { RanksMeaning(a, b); }
    hide Ranks, NoWorse, Undisturbed, QualifiedOf, TurnedAwayStats, Partitions, Reliable, QueueServed, Distinct;
    var away, all := TurnedAwayStats(r.rejected), QualifiedOf(client, cs, o);
    forall s ensures s in r.accepted + away <==> s in all { PlacedAreQualified(client, cs, o, r, from, to, s); }
    AllCountedOnce(r, cs, r.accepted + away);
    QualifiedAreDistinct(client, cs, o);
    DistinctElements(r.accepted + away);
    DistinctElements(all);
    Sorting.DistinctMultiset(r.accepted + away, all);
    TurnedAwayMembers(r.rejected);
    FrontOfRanking(r.accepted, away, all);
    if away != [] {
      assert away[0] in away;
      var x :| x in r.rejected && TurnedAway(x) && x.stats == away[0];
      assert |r.accepted| == o.targetCount;
    }
  }

  lemma DistinctElements(s: seq<WalletStats>)
    requires DistinctAddresses(s)
    ensures Sorting.Distinct(s)
  {
  }
}
