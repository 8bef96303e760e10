/** The JavaScript string operations the two screens rely on: `String.prototype.trim`
    and `String.prototype.includes`. Strings are sequences of Unicode scalar values;
    every character `trim` removes lies in the Basic Multilingual Plane, so the UTF-16
    representation of JavaScript strings makes no difference to these two operations. */
module JsText {

  /** The characters `trim` strips: ECMAScript's WhiteSpace (TAB, VT, FF, SPACE,
      NO-BREAK SPACE, ZERO WIDTH NO-BREAK SPACE and the Unicode "Zs" category) and
      LineTerminator (LF, CR, LINE SEPARATOR, PARAGRAPH SEPARATOR) productions. */
  predicate IsTrimmable(c: char) {
    || c == '\t' || c == '\n' || c == '\U{000B}' || c == '\U{000C}' || c == '\r'
    || c == ' ' || c == '\U{00A0}' || c == '\U{1680}'
    || ('\U{2000}' <= c <= '\U{200A}')
    || c == '\U{2028}' || c == '\U{2029}' || c == '\U{202F}' || c == '\U{205F}'
    || c == '\U{3000}' || c == '\U{FEFF}'
  }

  /** Every character of `s` is one `trim` strips (vacuously true of ""). */
  predicate AllTrimmable(s: string) {
    forall i :: 0 <= i < |s| ==> IsTrimmable(s[i])
  }

  /** `s` with its leading trimmable characters removed. */
  function TrimStart(s: string): (r: string)
    ensures |r| <= |s| && r == s[|s| - |r|..]
    ensures AllTrimmable(s[..|s| - |r|])
    ensures r == [] || !IsTrimmable(r[0])
  {
    if |s| > 0 && IsTrimmable(s[0]) then
      var r := TrimStart(s[1..]);
      assert s[..|s| - |r|] == [s[0]] + s[1..][..|s| - 1 - |r|];
      r
    else s
  }

  /** `s` with its trailing trimmable characters removed. */
  function TrimEnd(s: string): (r: string)
    ensures |r| <= |s| && r == s[..|r|]
    ensures AllTrimmable(s[|r|..])
    ensures r == [] || !IsTrimmable(r[|r| - 1])
  {
    if |s| > 0 && IsTrimmable(s[|s| - 1]) then
      var r := TrimEnd(s[..|s| - 1]);
      assert s[|r|..] == s[..|s| - 1][|r|..] + [s[|s| - 1]];
      r
    else s
  }

  /** JavaScript's `s.trim()`. */
  function Trim(s: string): string {
    TrimEnd(TrimStart(s))
  }

  /** Reference definition of trimming: `r` is the slice `s[i..j]` such that everything
      before `i` and after `j` is trimmable and `r` neither starts nor ends with a
      trimmable character. */
  ghost predicate IsTrimOf(r: string, s: string) {
    exists i, j :: 0 <= i <= j <= |s| && TrimCut(r, s, i, j)
  }

  ghost predicate TrimCut(r: string, s: string, i: int, j: int)
    requires 0 <= i <= j <= |s|
  {
    && r == s[i..j]
    && AllTrimmable(s[..i])
    && AllTrimmable(s[j..])
    && (r == [] || (!IsTrimmable(r[0]) && !IsTrimmable(r[|r| - 1])))
  }

  /** Slicing a suffix again is slicing the original. */
  lemma SuffixSlices(s: string, i: nat, n: nat)
    requires i + n <= |s|
    ensures s[i..][..n] == s[i..i + n]
    ensures s[i..][n..] == s[i + n..]
  {
  }

  /** `Trim` meets the reference definition. */
  lemma TrimMeetsSpec(s: string)
    ensures IsTrimOf(Trim(s), s)
  {
    var a := TrimStart(s);
    var r := TrimEnd(a);
    var i := |s| - |a|;
    var j := i + |r|;
    assert r == s[i..j] by {
      SuffixSlices(s, i, |r|);
    }
    assert AllTrimmable(s[j..]) by {
      SuffixSlices(s, i, |r|);
      assert s[j..] == a[|r|..];
    }
    assert r == [] || !IsTrimmable(r[0]) by {
      assert r == [] || r[0] == a[0];
    }
    assert TrimCut(r, s, i, j);
  }

  /** A cut leaves nothing exactly when the whole string is trimmable. */
  lemma CutEmptyIff(r: string, s: string, i: int, j: int)
    requires 0 <= i <= j <= |s| && TrimCut(r, s, i, j)
    ensures r == [] <==> AllTrimmable(s)
  {
    if r == [] {
      assert s == s[..i] + s[j..];
    } else {
      assert s[i] == r[0];
    }
  }

  /** A cut that leaves something starts at the first and ends after the last
      non-trimmable character. */
  lemma CutBounds(r: string, s: string, i: int, j: int)
    requires 0 <= i <= j <= |s| && TrimCut(r, s, i, j) && r != []
    ensures i < j && !IsTrimmable(s[i]) && !IsTrimmable(s[j - 1])
    ensures forall k :: 0 <= k < i ==> IsTrimmable(s[k])
    ensures forall k :: j <= k < |s| ==> IsTrimmable(s[k])
  {
    assert s[i] == r[0] && s[j - 1] == r[|r| - 1];
    assert forall k :: 0 <= k < i ==> s[k] == s[..i][k];
    assert forall k :: j <= k < |s| ==> s[k] == s[j..][k - j];
  }

  /** The reference definition determines the trimmed string uniquely, so every
      string meeting it is `Trim(s)`. */
  lemma TrimSpecUnique(s: string, r1: string, r2: string)
    requires IsTrimOf(r1, s) && IsTrimOf(r2, s)
    ensures r1 == r2
  {
    var i1, j1 :| 0 <= i1 <= j1 <= |s| && TrimCut(r1, s, i1, j1);
    var i2, j2 :| 0 <= i2 <= j2 <= |s| && TrimCut(r2, s, i2, j2);
    CutEmptyIff(r1, s, i1, j1);
    CutEmptyIff(r2, s, i2, j2);
    if r1 != [] && r2 != [] {
      CutBounds(r1, s, i1, j1);
      CutBounds(r2, s, i2, j2);
      assert i1 == i2 && j1 == j2;
    }
  }

  /** `s.trim()` is empty exactly when `s` consists of trimmable characters only:
      the test `!s.trim()` rejects the empty and the whitespace-only inputs and no other. */
  lemma TrimEmptyIff(s: string)
    ensures Trim(s) == [] <==> AllTrimmable(s)
  {
    TrimMeetsSpec(s);
    var i, j :| 0 <= i <= j <= |s| && TrimCut(Trim(s), s, i, j);
    CutEmptyIff(Trim(s), s, i, j);
  }

  /** Trimming twice trims nothing more. */
  lemma TrimIdempotent(s: string)
    ensures Trim(Trim(s)) == Trim(s)
  {
    var r := Trim(s);
    if r != [] {
      assert TrimStart(r) == r;
      assert TrimEnd(r) == r;
    }
  }

  /** `needle` occurs in `hay` starting at index `k`. */
  ghost predicate OccursAt(hay: string, needle: string, k: int) {
    0 <= k && k + |needle| <= |hay| && hay[k..k + |needle|] == needle
  }

  /** JavaScript's `hay.includes(needle)`, computed by testing each start position in turn. */
  function Includes(hay: string, needle: string): bool
  {
    if |needle| <= |hay| && hay[..|needle|] == needle then true
    else if hay == [] then false
    else Includes(hay[1..], needle)
  }

  /** `Includes` holds exactly when the needle occurs at some position; in particular
      every string includes "". */
  lemma {:induction false} IncludesIff(hay: string, needle: string)
    ensures Includes(hay, needle) <==> exists k :: OccursAt(hay, needle, k)
  {
    if |needle| <= |hay| && hay[..|needle|] == needle {
      assert OccursAt(hay, needle, 0);
    } else if hay == [] {
    } else {
      IncludesIff(hay[1..], needle);
      if exists k :: OccursAt(hay[1..], needle, k) {
        var k :| OccursAt(hay[1..], needle, k);
        assert hay[1..][k..k + |needle|] == hay[k + 1..k + 1 + |needle|];
        assert OccursAt(hay, needle, k + 1);
      }
      if exists k :: OccursAt(hay, needle, k) {
        var k :| OccursAt(hay, needle, k);
        assert k != 0;
        assert hay[1..][k - 1..k - 1 + |needle|] == hay[k..k + |needle|];
        assert OccursAt(hay[1..], needle, k - 1);
      }
    }
  }

  /** A string includes each of its slices. */
  lemma IncludesSlice(hay: string, k: nat, n: nat)
    requires k + n <= |hay|
    ensures Includes(hay, hay[k..k + n])
  {
    assert OccursAt(hay, hay[k..k + n], k);
    IncludesIff(hay, hay[k..k + n]);
  }
}
