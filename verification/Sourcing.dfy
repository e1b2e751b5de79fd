/** Where candidates come from: seeds, their neighbours, and the whole of wallet sourcing. */
module Sourcing {
  import opened Arithmetic
  import opened Text
  import opened Wrappers
  import opened Transfers
  import opened Fetch
  import opened Source

  // ---- Seeds ----

  /** The trimmed non-blank wallets, each once, in order. */
  function Seeds(wallets: seq<string>): seq<Address> {
    if wallets == [] then []
    else
      var before, a := Seeds(wallets[..|wallets| - 1]), TrimSpace(wallets[|wallets| - 1]);
      if a == "" || a in before then before else before + [a]
  }

  /** The part of a string before its first `#`, if it has one. */
  function BeforeHash(s: string): string {
    if s == "" || s[0] == '#' then "" else [s[0]] + BeforeHash(s[1..])
  }

  /** What comes before the first `#`, and all of a string without one. */
  lemma {:induction false} BeforeHashMeaning(s: string)
    ensures BeforeHash(s) <= s && '#' !in BeforeHash(s)
    ensures BeforeHash(s) == s || s[|BeforeHash(s)|] == '#'
  {
    if s != "" && s[0] != '#' {
      BeforeHashMeaning(s[1..]);
      assert s == [s[0]] + s[1..];
    }
  }

  /** A line of a wallet file without its comment. */
  function Cleaned(line: string): string { TrimSpace(BeforeHash(TrimSpace(line))) }

  function AllCleaned(lines: seq<string>): seq<string> {
    seq(|lines|, i requires 0 <= i < |lines| => Cleaned(lines[i]))
  }

  /** Seeds are trimmed, not blank, and listed once each. */
  lemma {:induction false} SeedsMeaning(wallets: seq<string>)
    ensures forall a :: a in Seeds(wallets) <==> a != "" && exists w :: w in wallets && TrimSpace(w) == a
    ensures forall i, j :: 0 <= i < j < |Seeds(wallets)| ==> Seeds(wallets)[i] != Seeds(wallets)[j]
  {
    if wallets != [] {
      var init, last := wallets[..|wallets| - 1], wallets[|wallets| - 1];
      assert wallets == init + [last];
      SeedsMeaning(init);
      assert forall w :: w in wallets <==> w in init || w == last;
    }
  }

  /** Removing repetitions from a later part first changes nothing. */
  lemma {:induction false} SeedsOfSeeds(a: seq<string>, b: seq<string>)
    ensures Seeds(a + Seeds(b)) == Seeds(a + b)
    ensures forall x :: x in Seeds(b) ==> x in Seeds(a + b)
  {
    if b == [] {
      assert a + Seeds(b) == a && a + b == a;
    } else {
      var init, last := b[..|b| - 1], b[|b| - 1];
      assert b == init + [last];
      SeedsOfSeeds(a, init);
      SeedsMeaning(init);
      assert (a + b)[..|a + b| - 1] == a + init;
      var x := TrimSpace(last);
      if !(x == "" || x in Seeds(init)) {
        assert (a + Seeds(b))[..|a + Seeds(b)| - 1] == a + Seeds(init);
      }
    }
  }

  /** The explicit wallets and then the lines of the seed file, each wallet once. */
  method LoadSeedWallets(explicit: seq<string>, lines: seq<string>) returns (out: seq<Address>)
    ensures out == Seeds(explicit + AllCleaned(lines))
  {
    out := [];
    var seen: set<string> := {};
    for i := 0 to |explicit|
      invariant out == Seeds(explicit[..i]) && forall a :: a in seen <==> a in out
    {
      assert explicit[..i + 1][..i] == explicit[..i];
      var wallet := TrimSpace(explicit[i]);
      if wallet == "" { continue; }
      if wallet in seen { continue; }
      seen, out := seen + {wallet}, out + [wallet];
    }
    assert explicit[..|explicit|] == explicit;
    var fromFile := ReadWalletLines(lines);
    SeedsMeaning(AllCleaned(lines));
    hide AllCleaned;
    out := AddFromFile(out, seen, fromFile, explicit);
    SeedsOfSeeds(explicit, AllCleaned(lines));
  }

  /** The wallets of the file go behind the explicit ones. */
  method AddFromFile(known: seq<Address>, seenBefore: set<string>, fromFile: seq<Address>, ghost explicit: seq<string>) returns (out: seq<Address>)
    requires known == Seeds(explicit) && forall a :: a in seenBefore <==> a in known
    requires forall a :: a in fromFile ==> a != "" && Trimmed(a)
    ensures out == Seeds(explicit + fromFile)
  {
    hide Seeds, TrimSpace;
    out := known;
    var seen := seenBefore;
    assert explicit + fromFile[..0] == explicit;
    for i := 0 to |fromFile|
      invariant out == Seeds(explicit + fromFile[..i]) && forall a :: a in seen <==> a in out
    {
      assert fromFile[i] in fromFile;
      OneMoreSeed(explicit + fromFile[..i], fromFile[i]);
      assert explicit + fromFile[..i + 1] == explicit + fromFile[..i] + [fromFile[i]];
      if fromFile[i] in seen { continue; }
      seen, out := seen + {fromFile[i]}, out + [fromFile[i]];
    }
    assert fromFile[..|fromFile|] == fromFile;
  }

  lemma OneMoreSeed(wallets: seq<string>, a: Address)
    requires a != "" && Trimmed(a)
    ensures Seeds(wallets + [a]) == if a in Seeds(wallets) then Seeds(wallets) else Seeds(wallets) + [a]
  {
    assert (wallets + [a])[..|wallets + [a]| - 1] == wallets;
  }

  method CleanLine(line: string) returns (s: string)
    ensures s == Cleaned(line)
  {
    hide BeforeHash;
    s := TrimSpace(line);
    var k := IndexHash(s);
    if k < |s| { s := TrimSpace(s[..k]); } else { assert s[..k] == s; }
  }

  /** Where the comment starts, or the end of the string. */
  method IndexHash(s: string) returns (k: nat)
    ensures k <= |s| && BeforeHash(s) == s[..k]
  {
    hide BeforeHash;
    k := 0;
    assert s[0..] == s;
    while k < |s| && s[k] != '#'
      invariant 0 <= k <= |s|
      invariant BeforeHash(s) == s[..k] + BeforeHash(s[k..])
    {
      NotAHash(s, k);
      k := k + 1;
    }
    NothingBefore(s, k);
  }

  lemma NotAHash(s: string, k: nat)
    requires k < |s| && s[k] != '#'
    ensures s[..k] + BeforeHash(s[k..]) == s[..k + 1] + BeforeHash(s[k + 1..])
  {
    assert s[k..][1..] == s[k + 1..] && s[..k + 1] == s[..k] + [s[k]];
  }

  lemma NothingBefore(s: string, k: nat)
    requires k <= |s| && (k == |s| || s[k] == '#')
    ensures BeforeHash(s[k..]) == []
  {
  }

  method ReadWalletLines(lines: seq<string>) returns (out: seq<Address>)
    ensures out == Seeds(AllCleaned(lines))
  {
    out := [];
    var seen: set<string> := {};
    for i := 0 to |lines|
      invariant out == Seeds(AllCleaned(lines)[..i]) && forall a :: a in seen <==> a in out
    {
      assert AllCleaned(lines)[..i + 1][..i] == AllCleaned(lines)[..i];
      var line := CleanLine(lines[i]);
      if line == "" { continue; }
      if line in seen { continue; }
      seen, out := seen + {line}, out + [line];
    }
    assert AllCleaned(lines)[..|lines|] == AllCleaned(lines);
  }

  // ---- Neighbours ----

  /** `a` is an owner in a transfer of the transactions. */
  predicate OwnerIn(txs: seq<EnhancedTransaction>, a: Address) {
    exists tx :: tx in txs && tx.signature != "" && OwnedIn(Rows(tx), a)
  }

  predicate OwnedIn(rows: seq<NormalizedTransfer>, a: Address) { exists i :: 0 <= i < |rows| && IsOwner(rows[i], a) }

  predicate IsOwner(row: NormalizedTransfer, a: Address) { TrimSpace(row.source) == a || TrimSpace(row.destination) == a }

  /** Seed number `i` leads to wallet `a`: it is the seed itself, or an owner in the seed's transactions that is none of
      the seeds so far. */
  predicate LeadsTo(seeds: seq<Address>, pages: seq<seq<EnhancedTransaction>>, o: Options, i: nat, a: Address)
    requires i < |seeds| && i < |pages|
  {
    a != "" && ((o.scoreSeedWallets && a == seeds[i]) || (o.discoverNeighbors && a !in seeds[..i + 1] && OwnerIn(pages[i], a)))
  }

  /** Every wallet that a seed leads to is discovered, with exactly those seeds. */
  ghost predicate Discovers(discovered: map<Address, set<Address>>, seeds: seq<Address>, pages: seq<seq<EnhancedTransaction>>, o: Options, n: nat) {
    && n <= |seeds| && n <= |pages|
    && (forall a :: a in discovered ==> discovered[a] != {})
    && forall a, s :: Leads(discovered, s, a) <==> LedBy(seeds, pages, o, n, s, a)
  }

  predicate Leads(discovered: map<Address, set<Address>>, s: Address, a: Address) { a in discovered && s in discovered[a] }

  /** Seed `s`, one of the first `n`, leads to wallet `a`. */
  predicate LedBy(seeds: seq<Address>, pages: seq<seq<EnhancedTransaction>>, o: Options, n: nat, s: Address, a: Address)
    requires n <= |seeds| && n <= |pages|
  {
    exists i :: 0 <= i < n && seeds[i] == s && LeadsTo(seeds, pages, o, i, a)
  }

  function SeedParams(o: Options): FetchWindowParams {
    FetchWindowParams(WindowStart(o), o.scanEnd, o.seedMaxPages, o.maxTXPerWallet, o.maxRetries, o.requestDelay)
  }

  /** A seed's transactions are looked up in the look-back before the scan and the scan itself, within the limits for seeds. */
  lemma SeedWindowMeaning(o: Options, at: int)
    ensures SeedParams(o).start <= at < SeedParams(o).end <==> o.scanStart - at <= o.baselineLookback && at < o.scanEnd
    ensures SeedParams(o).maxPages == o.seedMaxPages && SeedParams(o).maxTx == o.maxTXPerWallet
    ensures SeedParams(o).maxRetries == o.maxRetries && SeedParams(o).requestDelay == o.requestDelay
  {
  }

  /** `known` with wallet `address` discovered through `seed`, unless it is blank or a seed already. */
  function With(known: map<Address, set<Address>>, seed: Address, seedSet: Option<set<Address>>, address: Address): map<Address, set<Address>> {
    var a := TrimSpace(address);
    if a == "" || (seedSet.Some? && a in seedSet.value) then known
    else known[a := (if a in known then known[a] else {}) + {seed}]
  }

  method AddDiscovered(known: map<Address, set<Address>>, seed: Address, seedSet: Option<set<Address>>, address: Address)
    returns (out: map<Address, set<Address>>)
    ensures out == With(known, seed, seedSet, address)
  {
    var a := TrimSpace(address);
    if a == "" { return known; }
    if seedSet.Some? {
      if a in seedSet.value { return known; }
    }
    var seeds := if a in known then known[a] else {};
    out := known[a := seeds + {seed}];
  }

  /** `out` is `known` with the wallets in `found` discovered through `seed`. */
  ghost predicate Adds(out: map<Address, set<Address>>, known: map<Address, set<Address>>, seed: Address, found: iset<Address>) {
    && (forall a :: a in out <==> a in known || a in found)
    && (forall a :: a in out ==> out[a] == (if a in known then known[a] else {}) + (if a in found then {seed} else {}))
  }

  lemma WithAdds(out: map<Address, set<Address>>, known: map<Address, set<Address>>, seed: Address, found: iset<Address>,
                 seedSet: Option<set<Address>>, address: Address)
    requires Adds(out, known, seed, found)
    ensures var a := TrimSpace(address);
            Adds(With(out, seed, seedSet, address), known, seed,
                 if a == "" || (seedSet.Some? && a in seedSet.value) then found else found + iset{a})
  {
  }

  /** The owners in the rows, blanks and seeds left out. */
  ghost function OwnersOf(rows: seq<NormalizedTransfer>, seedSet: set<Address>): iset<Address> {
    iset a | a != "" && a !in seedSet && OwnedIn(rows, a)
  }

  ghost function OwnersAmong(txs: seq<EnhancedTransaction>, seedSet: set<Address>): iset<Address> {
    iset a | a != "" && a !in seedSet && OwnerIn(txs, a)
  }

  /** The owners of one transaction's transfers. */
  method AddOwners(known: map<Address, set<Address>>, seed: Address, seedSet: set<Address>, rows: seq<NormalizedTransfer>,
                   ghost base: map<Address, set<Address>>, ghost found: iset<Address>)
    returns (out: map<Address, set<Address>>)
    requires Adds(known, base, seed, found)
    ensures Adds(out, base, seed, found + OwnersOf(rows, seedSet))
  {
    hide Adds;
    out := known;
    assert found + OwnersOf(rows[..0], seedSet) == found;
    for i := 0 to |rows|
      invariant Adds(out, base, seed, found + OwnersOf(rows[..i], seedSet))
    {
      ghost var so := found + OwnersOf(rows[..i], seedSet);
      WithAdds(out, base, seed, so, Some(seedSet), rows[i].source);
      out := AddDiscovered(out, seed, Some(seedSet), rows[i].source);
      ghost var a, b := TrimSpace(rows[i].source), TrimSpace(rows[i].destination);
      ghost var mid := if a == "" || a in seedSet then so else so + iset{a};
      WithAdds(out, base, seed, mid, Some(seedSet), rows[i].destination);
      out := AddDiscovered(out, seed, Some(seedSet), rows[i].destination);
      OneMoreRow(rows, seedSet, i);
      assert found + OwnersOf(rows[..i + 1], seedSet) == if b == "" || b in seedSet then mid else mid + iset{b};
    }
    assert rows[..|rows|] == rows;
  }

  lemma OneMoreOwner(rows: seq<NormalizedTransfer>, row: NormalizedTransfer, a: Address)
    ensures OwnedIn(rows + [row], a) <==> OwnedIn(rows, a) || IsOwner(row, a)
  {
    hide IsOwner;
    var after := rows + [row];
    assert after[|rows|] == row && forall k :: 0 <= k < |rows| ==> after[k] == rows[k];
  }

  lemma OneMoreRow(rows: seq<NormalizedTransfer>, seedSet: set<Address>, i: nat)
    requires i < |rows|
    ensures OwnersOf(rows[..i + 1], seedSet) == OwnersOf(rows[..i], seedSet) + (iset a | a != "" && a !in seedSet && IsOwner(rows[i], a))
  {
    hide IsOwner, OwnedIn;
    assert rows[..i + 1] == rows[..i] + [rows[i]];
    forall a ensures OwnedIn(rows[..i + 1], a) <==> OwnedIn(rows[..i], a) || IsOwner(rows[i], a) { OneMoreOwner(rows[..i], rows[i], a); }
  }

  lemma OneMoreTx(txs: seq<EnhancedTransaction>, seedSet: set<Address>, i: nat)
    requires i < |txs|
    ensures OwnersAmong(txs[..i + 1], seedSet)
         == OwnersAmong(txs[..i], seedSet) + if txs[i].signature == "" then iset{} else OwnersOf(Rows(txs[i]), seedSet)
  {
    hide OwnedIn, Rows;
    assert forall tx :: tx in txs[..i + 1] <==> tx in txs[..i] || tx == txs[i];
  }

  /** The neighbours of one seed. */
  method AddNeighbours(known: map<Address, set<Address>>, seed: Address, seedSet: set<Address>, txs: seq<EnhancedTransaction>)
    returns (out: map<Address, set<Address>>)
    ensures Adds(out, known, seed, OwnersAmong(txs, seedSet))
  {
    out := known;
    assert Adds(known, known, seed, OwnersAmong(txs[..0], seedSet));
    hide Adds, OwnersOf;
    for i := 0 to |txs|
      invariant Adds(out, known, seed, OwnersAmong(txs[..i], seedSet))
    {
      hide OwnersAmong, Records, TransferCount, Rows;
      OneMoreTx(txs, seedSet, i);
      var rows := NormalizeEnhancedTx(txs[i]);
      if rows.Failure? {
        assert OwnersAmong(txs[..i], seedSet) + iset{} == OwnersAmong(txs[..i], seedSet);
        continue;
      }
      out := AddOwners(out, seed, seedSet, rows.value, known, OwnersAmong(txs[..i], seedSet));
    }
    assert txs[..|txs|] == txs;
  }

  // ---- Discovery ----

  /** What was fetched for seed `i`: part of its window, all of it unless truncated. */
  ghost predicate FetchedFor(client: Client, o: Options, seed: Address, txs: seq<EnhancedTransaction>) {
    exists r: FetchWindowResult :: r.transactions == txs && Fetch.Faithful(client.History(seed), SeedParams(o), r)
  }

  ghost predicate PagesFetched(client: Client, o: Options, seeds: seq<Address>, pages: seq<seq<EnhancedTransaction>>, n: nat) {
    && n <= |seeds| && n == |pages|
    && (o.discoverNeighbors ==> forall i :: 0 <= i < n ==> FetchedFor(client, o, seeds[i], pages[i]))
  }

  /** What seed number `i` leads to. */
  ghost function Reached(seeds: seq<Address>, pages: seq<seq<EnhancedTransaction>>, o: Options, i: nat): iset<Address>
    requires i < |seeds| && i < |pages|
  {
    iset a | LeadsTo(seeds, pages, o, i, a)
  }

  lemma DiscoversStep(known: map<Address, set<Address>>, out: map<Address, set<Address>>, seeds: seq<Address>, pages: seq<seq<EnhancedTransaction>>,
                      page: seq<EnhancedTransaction>, o: Options, i: nat)
    requires Discovers(known, seeds, pages, o, i) && i < |seeds| && |pages| == i
    requires Adds(out, known, seeds[i], Reached(seeds, pages + [page], o, i))
    ensures Discovers(out, seeds, pages + [page], o, i + 1)
  {
    hide LeadsTo, LedBy;
    var more, n := pages + [page], i + 1;
    forall a, s ensures Leads(out, s, a) <==> LedBy(seeds, more, o, n, s, a) {
      LedByStep(seeds, pages, page, o, i, s, a);
      assert a in Reached(seeds, more, o, i) <==> LeadsTo(seeds, more, o, i, a);
      assert Leads(known, s, a) <==> LedBy(seeds, pages, o, i, s, a);
    }
    forall a | a in out ensures out[a] != {} {
      if a in known { assert known[a] <= out[a]; } else { assert seeds[i] in out[a]; }
    }
  }

  lemma LedByStep(seeds: seq<Address>, pages: seq<seq<EnhancedTransaction>>, page: seq<EnhancedTransaction>, o: Options, i: nat, s: Address, a: Address)
    requires i < |seeds| && |pages| == i
    ensures LedBy(seeds, pages + [page], o, i + 1, s, a)
       <==> LedBy(seeds, pages, o, i, s, a) || (s == seeds[i] && LeadsTo(seeds, pages + [page], o, i, a))
  {
    hide OwnerIn;
    var more := pages + [page];
    forall k | 0 <= k < i ensures LeadsTo(seeds, more, o, k, a) <==> LeadsTo(seeds, pages, o, k, a) { assert more[k] == pages[k]; }
    hide LeadsTo;
    if LedBy(seeds, pages, o, i, s, a) {
      var k :| 0 <= k < i && seeds[k] == s && LeadsTo(seeds, pages, o, k, a);
      assert LeadsTo(seeds, more, o, k, a);
    }
  }

  /** What one seed leads to, once its page is known. */
  method DiscoverFrom(known: map<Address, set<Address>>, seeds: seq<Address>, i: nat, seedSet: set<Address>, page: seq<EnhancedTransaction>, o: Options,
                      ghost pages: seq<seq<EnhancedTransaction>>)
    returns (out: map<Address, set<Address>>)
    requires i < |seeds| && |pages| == i && Discovers(known, seeds, pages, o, i)
    requires seeds[i] != "" && Trimmed(seeds[i]) && forall a :: a in seedSet <==> a in seeds[..i + 1]
    ensures Discovers(out, seeds, pages + [page], o, i + 1)
  {
    out := known;
    ghost var self := if o.scoreSeedWallets then iset{seeds[i]} else iset{};
    assert Adds(out, known, seeds[i], iset{});
    hide OwnersAmong, Discovers, Adds, LeadsTo;
    if o.scoreSeedWallets {
      WithAdds(out, known, seeds[i], iset{}, None, seeds[i]);
      out := AddDiscovered(out, seeds[i], None, seeds[i]);
    }
    if o.discoverNeighbors {
      ghost var before := out;
      out := AddNeighbours(out, seeds[i], seedSet, page);
      AddsTwice(out, before, known, seeds[i], self, OwnersAmong(page, seedSet));
    }
    WhatIsReached(seeds, i, seedSet, page, o, pages);
    assert iset{} + self == self && self + iset{} == self;
    DiscoversStep(known, out, seeds, pages, page, o, i);
  }

  lemma WhatIsReached(seeds: seq<Address>, i: nat, seedSet: set<Address>, page: seq<EnhancedTransaction>, o: Options, pages: seq<seq<EnhancedTransaction>>)
    requires i < |seeds| && |pages| == i && seeds[i] != "" && forall a :: a in seedSet <==> a in seeds[..i + 1]
    ensures Reached(seeds, pages + [page], o, i)
         == (if o.scoreSeedWallets then iset{seeds[i]} else iset{}) + (if o.discoverNeighbors then OwnersAmong(page, seedSet) else iset{})
  {
    hide OwnerIn;
  }

  lemma AddsTwice(out: map<Address, set<Address>>, mid: map<Address, set<Address>>, known: map<Address, set<Address>>, seed: Address,
                  first: iset<Address>, second: iset<Address>)
    requires Adds(mid, known, seed, first) && Adds(out, mid, seed, second)
    ensures Adds(out, known, seed, first + second)
  {
  }

  /** Seeds and, if asked for, the owners in their transactions; a failed fetch fails the discovery. */
  method Discover(client: Client, seeds: seq<Address>, o: Options)
    returns (r: Result<map<Address, set<Address>>, FetchError>, ghost pages: seq<seq<EnhancedTransaction>>)
    requires forall a :: NewestFirst(client.History(a))
    requires forall a :: a in seeds ==> a != "" && Trimmed(a)
    modifies client`attempts
    ensures r.Success? ==> Discovers(r.value, seeds, pages, o, |seeds|) && PagesFetched(client, o, seeds, pages, |seeds|)
    ensures r.Failure? ==> o.discoverNeighbors && ErrorExplained(client, SeedParams(o), r.error, old(client.attempts), client.attempts)
    ensures old(client.attempts) <= client.attempts
    ensures client.attempts <= old(client.attempts) + if o.discoverNeighbors then |seeds| * FetchCost(SeedParams(o)) else 0
  {
    ghost var from, cost := client.attempts, if o.discoverNeighbors then FetchCost(SeedParams(o)) else 0;
    var discovered: map<Address, set<Address>>, seedSet: set<Address> := map[], {};
    pages := [];
    assert Discovers(discovered, seeds, [], o, 0);
    hide Discovers, FetchCost, ErrorExplained, FetchedFor;
    for i := 0 to |seeds|
      invariant Discovers(discovered, seeds, pages, o, i) && PagesFetched(client, o, seeds, pages, i)
      invariant forall a :: a in seedSet <==> a in seeds[..i]
      invariant from <= client.attempts <= from + i * cost
    {
      assert forall a :: a in seeds[..i + 1] <==> a in seeds[..i] || a == seeds[i];
      assert seeds[i] in seeds;
      seedSet := seedSet + {seeds[i]};
      CostStep(i, cost);
      CostUpTo(i + 1, |seeds|, cost);
      var page: seq<EnhancedTransaction> := [];
      if o.discoverNeighbors {
        var fetched := FetchPage(client, seeds[i], o, from);
        if fetched.Failure? { return Failure(fetched.error), pages; }
        page := fetched.value;
      }
      discovered := DiscoverFrom(discovered, seeds, i, seedSet, page, o, pages);
      pages := pages + [page];
    }
    r := Success(discovered);
  }

  /** A seed's transactions. */
  method FetchPage(client: Client, seed: Address, o: Options, ghost from: nat) returns (r: Result<seq<EnhancedTransaction>, FetchError>)
    requires NewestFirst(client.History(seed)) && from <= client.attempts
    modifies client`attempts
    ensures r.Success? ==> FetchedFor(client, o, seed, r.value)
    ensures r.Failure? ==> ErrorExplained(client, SeedParams(o), r.error, from, client.attempts)
    ensures old(client.attempts) <= client.attempts <= old(client.attempts) + FetchCost(SeedParams(o))
  {
    ghost var at := client.attempts;
    CostIs(o);
    hide FetchCost, ErrorExplained, Fetch.Faithful, NewestFirst;
    var fetched, err := FetchEnhancedWindow(client, seed, SeedParams(o));
    ExplanationsWiden(client, client.History(seed), SeedParams(o), at, client.attempts, from, client.attempts);
    if err.Some? { return Failure(err.value); }
    assert FetchedFor(client, o, seed, fetched.transactions);
    r := Success(fetched.transactions);
  }

  lemma CostIs(o: Options)
    ensures FetchCost(SeedParams(o)) == Max(SeedParams(o).maxPages, 0) * (Max(SeedParams(o).maxRetries, 0) + 1)
  {
  }

  // ---- Sourcing ----

  datatype SourceError = NoSeeds | EmptyWindow | SeedFetchFailed(error: FetchError)

  /** How many seeds led to each wallet. */
  method CountSeeds(discovered: map<Address, set<Address>>) returns (counts: map<Address, nat>)
    ensures counts == map a | a in discovered :: |discovered[a]|
  {
    counts := map a | a in discovered :: |discovered[a]|;
  }

  /** The seeds a call uses: distinct, and no more than the cap. */
  function CappedSeeds(explicit: seq<string>, lines: seq<string>, o: Options): seq<Address> {
    var all := Seeds(explicit + AllCleaned(lines));
    all[..Min(|all|, Max(o.maxSeedWallets, 0))]
  }

  /** Page requests the whole of a sourcing may cost. */
  function SourceCost(o: Options): nat {
    (if o.discoverNeighbors then Max(o.maxSeedWallets, 0) * FetchCost(SeedParams(o)) else 0) + SelectionCost(o)
  }

  /** Those seeds are wallets worth fetching, and no more than the cap. */
  lemma CappedSeedsAreWallets(explicit: seq<string>, lines: seq<string>, o: Options)
    ensures forall a :: a in CappedSeeds(explicit, lines, o) ==> a != "" && Trimmed(a)
    ensures |CappedSeeds(explicit, lines, o)| <= Max(o.maxSeedWallets, 0)
  {
    var all := Seeds(explicit + AllCleaned(lines));
    SeedsMeaning(explicit + AllCleaned(lines));
    hide Seeds, AllCleaned;
    forall a | a in CappedSeeds(explicit, lines, o) ensures a != "" && Trimmed(a) { assert a in all; }
  }

  /** What a sourcing delivers: candidates discovered from its seeds and a selection among them. */
  ghost predicate Sourced(client: Client, explicit: seq<string>, lines: seq<string>, o: Options, r: SourceResult,
                          candidates: seq<Discovery>, queue: seq<DeepDive>, from: nat, to: nat) {
    var seeds := CappedSeeds(explicit, lines, o);
    && Selected(client, candidates, o, r, queue, from, to)
    && exists discovered, pages :: Discovers(discovered, seeds, pages, o, |seeds|) && PagesFetched(client, o, seeds, pages, |seeds|)
                                 && AreCandidates(candidates, map a | a in discovered :: |discovered[a]|, o)
  }

  /** From seeds to accepted and rejected wallets. `lines` are those of the seed file, empty if there is none. */
  method SourceWallets(client: Client, explicit: seq<string>, lines: seq<string>, options: Options)
    returns (r: Result<SourceResult, SourceError>, ghost candidates: seq<Discovery>, ghost queue: seq<DeepDive>, ghost mid: nat)
    requires forall a :: NewestFirst(client.History(a))
    modifies client`attempts
    ensures r == Failure(EmptyWindow) ==> options.scanStart >= options.scanEnd
    ensures r == Failure(NoSeeds) ==> Seeds(explicit + AllCleaned(lines)) == []
    ensures options.scanStart >= options.scanEnd || Seeds(explicit + AllCleaned(lines)) == [] ==> r.Failure?
    ensures r.Failure? && r.error.SeedFetchFailed? ==>
              WithDefaults(options).discoverNeighbors
              && ErrorExplained(client, SeedParams(WithDefaults(options)), r.error.error, old(client.attempts), client.attempts)
    ensures old(client.attempts) <= mid <= client.attempts
    ensures !WithDefaults(options).discoverNeighbors ==> mid == old(client.attempts)
    ensures r.Success? ==> Sourced(client, explicit, lines, WithDefaults(options), r.value, candidates, queue, mid, client.attempts)
    ensures client.attempts <= old(client.attempts) + SourceCost(WithDefaults(options))
  {
    candidates, queue, mid := [], [], client.attempts;
    if options.scanStart >= options.scanEnd { return Failure(EmptyWindow), candidates, queue, mid; }
    var o := WithDefaults(options);
    DefaultsAreDefaulted(options);
    hide WithDefaults, SelectionCost, FetchCost, ErrorExplained, Discovers, PagesFetched, Selected, AreCandidates;
    var seeds := LoadSeedWallets(explicit, lines);
    if |seeds| == 0 { return Failure(NoSeeds), candidates, queue, mid; }
    if o.maxSeedWallets > 0 && |seeds| > o.maxSeedWallets { seeds := seeds[..o.maxSeedWallets]; }
    assert seeds == CappedSeeds(explicit, lines, o);
    CappedSeedsAreWallets(explicit, lines, o);
    CostUpTo(|seeds|, o.maxSeedWallets, FetchCost(SeedParams(o)));
    var discovered, pages := Discover(client, seeds, o);
    mid := client.attempts;
    if discovered.Failure? { return Failure(SeedFetchFailed(discovered.error)), candidates, queue, mid; }
    var counts := CountSeeds(discovered.value);
    var result, cs, q := SelectWallets(client, counts, o);
    candidates, queue := cs, q;
    assert Discovers(discovered.value, seeds, pages, o, |seeds|) && PagesFetched(client, o, seeds, pages, |seeds|)
        && AreCandidates(candidates, map a | a in discovered.value :: |discovered.value[a]|, o);
    r := Success(result);
  }

  lemma DefaultsAreDefaulted(options: Options)
    ensures Defaulted(WithDefaults(options))
  {
  }

  /** Sourcing of given seeds only: each is a candidate itself, and no neighbours are looked for. */
  method SourceDiscovered(client: Client, seedWallets: seq<string>, options: Options)
    returns (r: Result<SourceResult, SourceError>, ghost candidates: seq<Discovery>, ghost queue: seq<DeepDive>)
    requires forall a :: NewestFirst(client.History(a))
    modifies client`attempts
    ensures var o := WithDefaults(options.(scoreSeedWallets := true, discoverNeighbors := false));
            && (r.Failure? <==> Seeds(seedWallets) == [] || options.scanStart >= options.scanEnd)
            && (r.Success? ==> Sourced(client, seedWallets, [], o, r.value, candidates, queue, old(client.attempts), client.attempts))
            && old(client.attempts) <= client.attempts <= old(client.attempts) + SelectionCost(o)
  {
    var o := options.(scoreSeedWallets := true, discoverNeighbors := false);
    assert seedWallets + AllCleaned([]) == seedWallets;
    assert SourceCost(WithDefaults(o)) == SelectionCost(WithDefaults(o)) && !WithDefaults(o).discoverNeighbors;
    hide SourceCost, NewestFirst, Defaulted, SeedParams, SelectionCost, Sourced, Seeds, FetchCost, ErrorExplained, WithDefaults, AllCleaned;
    ghost var mid;
    r, candidates, queue, mid := SourceWallets(client, seedWallets, [], o);
  }

  lemma SeedsLeadToThemselves(discovered: map<Address, set<Address>>, seeds: seq<Address>, pages: seq<seq<EnhancedTransaction>>, o: Options, a: Address)
    requires Discovers(discovered, seeds, pages, o, |seeds|) && o.scoreSeedWallets && !o.discoverNeighbors && "" !in seeds
    ensures a in discovered <==> a in seeds
    ensures a in discovered ==> discovered[a] == {a}
  {
    if a in seeds {
      var i :| 0 <= i < |seeds| && seeds[i] == a;
      assert LeadsTo(seeds, pages, o, i, a);
      assert LedBy(seeds, pages, o, |seeds|, a, a) && Leads(discovered, a, a);
    }
    if a in discovered {
      forall s | s in discovered[a] ensures s == a && a in seeds { assert Leads(discovered, s, a); }
      var s :| s in discovered[a];
    }
  }

  /** Without neighbours, exactly the seeds are candidates, each with itself as its one seed. */
  lemma SeedsAreCandidates(client: Client, explicit: seq<string>, lines: seq<string>, o: Options, r: SourceResult,
                           candidates: seq<Discovery>, queue: seq<DeepDive>, from: nat, to: nat)
    requires Sourced(client, explicit, lines, o, r, candidates, queue, from, to) && o.scoreSeedWallets && !o.discoverNeighbors
    ensures AreCandidates(candidates, map a | a in CappedSeeds(explicit, lines, o) :: 1, o)
  {
    hide Selected, AreCandidates, Discovers, PagesFetched, CappedSeeds;
    var seeds := CappedSeeds(explicit, lines, o);
    var discovered, pages :| Discovers(discovered, seeds, pages, o, |seeds|) && PagesFetched(client, o, seeds, pages, |seeds|)
                             && AreCandidates(candidates, map a | a in discovered :: |discovered[a]|, o);
    CappedSeedsAreWallets(explicit, lines, o);
    forall a
      ensures a in discovered <==> a in seeds
      ensures a in discovered ==> |discovered[a]| == 1
    {
      SeedsLeadToThemselves(discovered, seeds, pages, o, a);
    }
    assert (map a | a in discovered :: |discovered[a]|) == map a | a in seeds :: 1;
  }
}
