/** Reading wallet lists: trimming, comments, duplicates, exclusions and the cap. */
module Wallets {
  import opened Arithmetic
  import opened Text

  predicate IsEntry(line: string) {
    TrimSpace(line) != "" && TrimSpace(line)[0] != '#'
  }

  /** The first occurrence of every listed address that is not excluded, in order. */
  function Listed(lines: seq<string>, excluded: set<string>): seq<string> {
    if lines == [] then []
    else
      var before, line := Listed(lines[..|lines| - 1], excluded), lines[|lines| - 1];
      var a := TrimSpace(line);
      if IsEntry(line) && a !in excluded && a !in before then before + [a] else before
  }

  /** Every entry that is not excluded is listed, once. */
  lemma {:induction false} ListedMeaning(lines: seq<string>, excluded: set<string>)
    ensures forall a :: a in Listed(lines, excluded) <==> a != "" && a[0] != '#' && a !in excluded && exists line :: line in lines && TrimSpace(line) == a
    ensures forall i, j :: 0 <= i < j < |Listed(lines, excluded)| ==> Listed(lines, excluded)[i] != Listed(lines, excluded)[j]
  {
    if lines != [] {
      var init, line := lines[..|lines| - 1], lines[|lines| - 1];
      ListedMeaning(init, excluded);
      assert forall x :: x in lines <==> x in init || x == line;
    }
  }

  lemma {:induction false} ListedPrefix(lines: seq<string>, excluded: set<string>, i: nat)
    requires i <= |lines|
    ensures Listed(lines[..i], excluded) <= Listed(lines, excluded)
  {
    if i < |lines| {
      assert lines[..|lines| - 1][..i] == lines[..i];
      ListedPrefix(lines[..|lines| - 1], excluded, i);
    } else {
      assert lines[..i] == lines;
    }
  }

  function Capped(s: seq<string>, max: int): seq<string> {
    if max > 0 then s[..Min(|s|, max)] else s
  }

  /** Stops reading once the cap is reached. */
  method LoadAddressesExcluding(lines: seq<string>, excludedLines: seq<string>, max: int) returns (out: seq<string>)
    ensures out == Capped(Listed(lines, set a | a in Listed(excludedLines, {})), max)
  {
    var excluded := set a | a in Listed(excludedLines, {});
    out := [];
    for i := 0 to |lines|
      invariant out == Listed(lines[..i], excluded) && (max > 0 ==> |out| < max)
    {
      var addr := TrimSpace(lines[i]);
      assert lines[..i + 1][..i] == lines[..i];
      ListedPrefix(lines, excluded, i + 1);
      if addr == "" || addr[0] == '#' { continue; }
      if addr in excluded { continue; }
      if addr in out { continue; }
      out := out + [addr];
      if max > 0 && |out| >= max { return; }
    }
    assert lines[..|lines|] == lines;
  }

  /** Keeps at most `max` addresses but counts all distinct ones. */
  method NormalizeAddresses(addresses: seq<string>, max: int) returns (out: seq<string>, total: nat)
    ensures out == Capped(Listed(addresses, {}), max) && total == |Listed(addresses, {})|
  {
    out := [];
    var seen: set<string> := {};
    ghost var listed: seq<string> := [];
    for i := 0 to |addresses|
      invariant listed == Listed(addresses[..i], {}) && out == Capped(listed, max)
      invariant (forall a :: a in seen <==> a in listed) && |seen| == |listed|
    {
      assert addresses[..i + 1][..i] == addresses[..i];
      ghost var before := listed;
      listed := Listed(addresses[..i + 1], {});
      var addr := TrimSpace(addresses[i]);
      if addr == "" || addr[0] == '#' { continue; }
      if addr in seen { continue; }
      assert listed == before + [addr];
      seen := seen + {addr};
      if max > 0 && |out| >= max { continue; }
      out := out + [addr];
    }
    assert addresses[..|addresses|] == addresses;
    total := |seen|;
  }

  /** Nothing is dropped by the cap exactly when the counts agree. */
  lemma CapDropsNothing(addresses: seq<string>, max: int)
    ensures |Listed(addresses, {})| > |Capped(Listed(addresses, {}), max)| <==> Capped(Listed(addresses, {}), max) != Listed(addresses, {})
  {
    var s := Listed(addresses, {});
    if max > 0 && |s| <= max { assert s[..|s|] == s; }
  }
}
