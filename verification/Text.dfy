/** The string operations the scanner relies on: trimming white space and byte-order comparison. */
module Text {

  /** The characters strings.TrimSpace removes. */
  predicate IsSpace(c: char) {
    c in {'\t', '\n', '\r', ' ', '\U{0B}', '\U{0C}', '\U{85}', '\U{A0}', '\U{1680}',
          '\U{2028}', '\U{2029}', '\U{202F}', '\U{205F}', '\U{3000}'}
    || '\U{2000}' <= c <= '\U{200A}'
  }

  /** A string with no white space at either end. */
  predicate Trimmed(s: string) {
    s == [] || (!IsSpace(s[0]) && !IsSpace(s[|s| - 1]))
  }

  function TrimSpace(s: string): (r: string)
    ensures Trimmed(r)
    ensures Trimmed(s) ==> r == s
    decreases |s|
  {
    if s != [] && IsSpace(s[0]) then TrimSpace(s[1..])
    else if s != [] && IsSpace(s[|s| - 1]) then TrimSpace(s[..|s| - 1])
    else s
  }

  /** Trimming drops the white space at both ends, all of it, and nothing else. */
  lemma {:induction false} TrimSpaceDrops(s: string) returns (i: nat, j: nat)
    ensures i <= j <= |s| && TrimSpace(s) == s[i..j]
    ensures forall k :: 0 <= k < i || j <= k < |s| ==> IsSpace(s[k])
    ensures i < j ==> !IsSpace(s[i]) && !IsSpace(s[j - 1])
    decreases |s|
  {
    if s != [] && IsSpace(s[0]) {
      i, j := TrimSpaceDrops(s[1..]);
      i, j := i + 1, j + 1;
    } else if s != [] && IsSpace(s[|s| - 1]) {
      i, j := TrimSpaceDrops(s[..|s| - 1]);
    } else {
      i, j := 0, |s|;
    }
  }

  /** The code points of white space. */
  lemma SpaceCodes(c: char)
    ensures var x := c as int;
            IsSpace(c) <==> 9 <= x <= 13 || x == 32 || x == 133 || x == 160 || x == 5760 || 8192 <= x <= 8202
                            || 8232 <= x <= 8233 || x == 8239 || x == 8287 || x == 12288
  {
  }

  predicate Blank(s: string) {
    TrimSpace(s) == []
  }

  /** A blank string is white space throughout. */
  lemma BlankMeaning(s: string)
    ensures Blank(s) <==> forall k :: 0 <= k < |s| ==> IsSpace(s[k])
  {
    var i, j := TrimSpaceDrops(s);
    if i < j { assert !IsSpace(s[i]); }
  }

  /** Go's `<=` on strings. */
  predicate LexLeq(a: string, b: string) {
    a == [] || (b != [] && (a[0] < b[0] || (a[0] == b[0] && LexLeq(a[1..], b[1..]))))
  }

  /** `a` comes first exactly when it ends, or has the smaller character, where the two part. */
  lemma {:induction false} LexMeaning(a: string, b: string)
    ensures LexLeq(a, b) <==>
              exists k :: 0 <= k <= |a| && k <= |b| && a[..k] == b[..k] && (k == |a| || (k < |b| && a[k] < b[k]))
  {
    if a == [] {
      assert a[..0] == b[..0];
    } else if b != [] && a[0] == b[0] {
      LexMeaning(a[1..], b[1..]);
      if k :| 0 <= k <= |a[1..]| && k <= |b[1..]| && a[1..][..k] == b[1..][..k] && (k == |a[1..]| || (k < |b[1..]| && a[1..][k] < b[1..][k])) {
        assert a[..k + 1] == [a[0]] + a[1..][..k] && b[..k + 1] == [b[0]] + b[1..][..k];
      }
      if k :| 0 <= k <= |a| && k <= |b| && a[..k] == b[..k] && (k == |a| || (k < |b| && a[k] < b[k])) {
        assert k > 0 && a[1..][..k - 1] == a[..k][1..] && b[1..][..k - 1] == b[..k][1..];
      }
    } else {
      assert a[..0] == b[..0];
      if k :| 0 < k <= |a| && k <= |b| && a[..k] == b[..k] { assert a[..k][0] == b[..k][0]; }
    }
  }

  predicate LexLess(a: string, b: string) {
    LexLeq(a, b) && a != b
  }

  lemma {:induction false} LexTotal(a: string, b: string)
    ensures LexLeq(a, b) || LexLeq(b, a)
  {
    if a != [] && b != [] && a[0] == b[0] {
      LexTotal(a[1..], b[1..]);
    }
  }

  lemma {:induction false} LexAntisymmetric(a: string, b: string)
    requires LexLeq(a, b) && LexLeq(b, a)
    ensures a == b
  {
    if a != [] && b != [] {
      LexAntisymmetric(a[1..], b[1..]);
    }
  }

  lemma {:induction false} LexTransitive(a: string, b: string, c: string)
    requires LexLeq(a, b) && LexLeq(b, c)
    ensures LexLeq(a, c)
  {
    if a != [] && a[0] == b[0] == c[0] {
      LexTransitive(a[1..], b[1..], c[1..]);
    }
  }

  /** A proper extension of a string comes after it, whatever follows. */
  lemma {:induction false} LexPrefix(a: string, b: string)
    requires |a| <= |b| && a == b[..|a|]
    ensures LexLeq(a, b)
  {
    if a != [] {
      assert a[1..] == b[1..][..|a| - 1];
      LexPrefix(a[1..], b[1..]);
    }
  }
}
