/**
 The string primitives the program borrows from JavaScript: the white-space
 class `\s` (shared by `String.prototype.trim`), `s.replace(/\s+/g, '')`,
 `s.trim()`, and the `\d` digit class.
 */
module Text {

  /** JavaScript white space: the WhiteSpace and LineTerminator characters of ECMA-262. */
  predicate IsSpace(c: char) {
    || c == ' ' || c == '\t' || c == '\n' || c == '\U{B}' || c == '\U{C}' || c == '\r'
    || c == '\U{A0}' || c == '\U{1680}' || ('\U{2000}' <= c <= '\U{200A}')
    || c == '\U{2028}' || c == '\U{2029}' || c == '\U{202F}' || c == '\U{205F}'
    || c == '\U{3000}' || c == '\U{FEFF}'
  }

  /** `\d` in a JavaScript regular expression (ASCII digits only). */
  predicate IsDigit(c: char) {
    '0' <= c <= '9'
  }

  /** `/^\d+$/.test(s)`: non-empty and digits only. */
  predicate AllDigits(s: string) {
    |s| > 0 && forall i :: 0 <= i < |s| ==> IsDigit(s[i])
  }

  predicate AllSpace(s: string) {
    forall i :: 0 <= i < |s| ==> IsSpace(s[i])
  }

  predicate NoSpace(s: string) {
    forall i :: 0 <= i < |s| ==> !IsSpace(s[i])
  }

  // ---------------------------------------------------------------------------
  // s.replace(/\s+/g, '')
  // ---------------------------------------------------------------------------

  /** Every white-space character removed, the rest kept in order. */
  function StripSpaces(s: string): (r: string)
    ensures |r| <= |s|
    ensures NoSpace(r)
  {
    if |s| == 0 then []
    else (if IsSpace(s[0]) then [] else [s[0]]) + StripSpaces(s[1..])
  }

  /** Stripping distributes over concatenation. */
  lemma {:induction false} StripSpacesAppend(a: string, b: string)
    ensures StripSpaces(a + b) == StripSpaces(a) + StripSpaces(b)
  {
    if |a| == 0 {
      assert a + b == b;
    } else {
      var h := if IsSpace(a[0]) then [] else [a[0]];
      assert (a + b)[0] == a[0];
      assert (a + b)[1..] == a[1..] + b;
      assert StripSpaces(a + b) == h + StripSpaces(a[1..] + b);
      StripSpacesAppend(a[1..], b);
      assert StripSpaces(a) == h + StripSpaces(a[1..]);
    }
  }

  /** A string without white space is left alone. */
  lemma {:induction false} StripSpacesNoSpace(s: string)
    requires NoSpace(s)
    ensures StripSpaces(s) == s
  {
    if |s| > 0 {
      StripSpacesNoSpace(s[1..]);
    }
  }

  /** A string of white space strips to nothing. */
  lemma {:induction false} StripSpacesAllSpace(s: string)
    requires AllSpace(s)
    ensures StripSpaces(s) == []
  {
    if |s| > 0 {
      StripSpacesAllSpace(s[1..]);
    }
  }

  /** The first character that survives stripping, and where it sits in `s`. */
  lemma {:induction false} FirstVisible(s: string) returns (i: nat)
    requires |StripSpaces(s)| > 0
    ensures i < |s| && !IsSpace(s[i])
    ensures StripSpaces(s) == [s[i]] + StripSpaces(s[i + 1..])
  {
    if IsSpace(s[0]) {
      var k := FirstVisible(s[1..]);
      i := k + 1;
      assert s[1..][k + 1..] == s[i + 1..];
    } else {
      i := 0;
    }
  }

  /** `s` holds at least three characters that are not white space, at positions i < j < k. */
  ghost predicate HasThreeVisible(s: string) {
    exists i, j, k :: 0 <= i < j < k < |s| && !IsSpace(s[i]) && !IsSpace(s[j]) && !IsSpace(s[k])
  }

  /** A visible character at position `i` survives stripping the suffix from `i`. */
  lemma StripAtVisible(s: string, i: nat)
    requires i < |s| && !IsSpace(s[i])
    ensures |StripSpaces(s[i..])| == 1 + |StripSpaces(s[i + 1..])|
  {
    assert s[i..][0] == s[i];
    assert s[i..][1..] == s[i + 1..];
  }

  /** A longer suffix strips to at least as many characters. */
  lemma {:induction false} StripSuffixMonotone(s: string, i: nat, j: nat)
    requires i <= j <= |s|
    ensures |StripSpaces(s[i..])| >= |StripSpaces(s[j..])|
    decreases j - i
  {
    if i < j {
      assert s[i..][1..] == s[i + 1..];
      StripSuffixMonotone(s, i + 1, j);
    }
  }

  /** Three visible characters at i < j < k survive stripping. */
  lemma ThreeVisibleSurviveAt(s: string, i: nat, j: nat, k: nat)
    requires i < j < k < |s| && !IsSpace(s[i]) && !IsSpace(s[j]) && !IsSpace(s[k])
    ensures |StripSpaces(s)| >= 3
  {
    assert s[0..] == s;
    StripSuffixMonotone(s, 0, i);
    StripAtVisible(s, i);
    StripSuffixMonotone(s, i + 1, j);
    StripAtVisible(s, j);
    StripSuffixMonotone(s, j + 1, k);
    StripAtVisible(s, k);
  }

  /** Three characters that survive stripping sit at three positions of `s`. */
  lemma ThreeSurvivorsVisible(s: string)
    requires |StripSpaces(s)| >= 3
    ensures HasThreeVisible(s)
  {
    var i := FirstVisible(s);
    var s1 := s[i + 1..];
    var j1 := FirstVisible(s1);
    var s2 := s1[j1 + 1..];
    var k1 := FirstVisible(s2);
    var j := i + 1 + j1;
    var k := j + 1 + k1;
    assert s[j] == s1[j1];
    assert s2 == s[j + 1..];
    assert s[k] == s2[k1];
  }

  /** At least three characters survive stripping exactly when three visible ones exist. */
  lemma ThreeVisibleIff(s: string)
    ensures |StripSpaces(s)| >= 3 <==> HasThreeVisible(s)
  {
    if |StripSpaces(s)| >= 3 {
      ThreeSurvivorsVisible(s);
    }
    if HasThreeVisible(s) {
      var i, j, k :| 0 <= i < j < k < |s| && !IsSpace(s[i]) && !IsSpace(s[j]) && !IsSpace(s[k]);
      ThreeVisibleSurviveAt(s, i, j, k);
    }
  }

  // ---------------------------------------------------------------------------
  // s.trim()
  // ---------------------------------------------------------------------------

  /** Length of the longest all-white-space prefix. */
  function LeadingSpaces(s: string): (n: nat)
    ensures n <= |s|
    ensures AllSpace(s[..n])
    ensures n < |s| ==> !IsSpace(s[n])
  {
    if |s| == 0 || !IsSpace(s[0]) then 0
    else
      var n := 1 + LeadingSpaces(s[1..]);
      assert forall i :: 1 <= i < n ==> s[..n][i] == s[1..][..n - 1][i - 1];
      n
  }

  /** Length of the longest all-white-space suffix. */
  function TrailingSpaces(s: string): (n: nat)
    ensures n <= |s|
    ensures AllSpace(s[|s| - n..])
    ensures n < |s| ==> !IsSpace(s[|s| - n - 1])
  {
    if |s| == 0 || !IsSpace(s[|s| - 1]) then 0
    else
      var t := s[..|s| - 1];
      var n := 1 + TrailingSpaces(t);
      assert s[|s| - n..] == t[|t| - (n - 1)..] + [s[|s| - 1]];
      n
  }

  /** `r` is `s` with its white-space margins removed: a slice of `s` whose
      surroundings are all white space and whose ends are not. */
  ghost predicate IsTrimOf(r: string, s: string) {
    exists i, j :: 0 <= i <= j <= |s| && r == s[i..j]
      && AllSpace(s[..i]) && AllSpace(s[j..])
      && (|r| > 0 ==> !IsSpace(r[0]) && !IsSpace(r[|r| - 1]))
  }

  /** `s.trim()`. */
  function Trim(s: string): (r: string)
    ensures IsTrimOf(r, s)
  {
    var i := LeadingSpaces(s);
    var t := s[i..];
    var j := i + |t| - TrailingSpaces(t);
    assert t[..|t| - TrailingSpaces(t)] == s[i..j];
    assert s[j..] == t[|t| - TrailingSpaces(t)..];
    assert j > i ==> s[i] == t[0];
    s[i..j]
  }

  /** Trimming is a no-op on a string whose ends are not white space. */
  lemma TrimNoMargins(s: string)
    requires |s| > 0 ==> !IsSpace(s[0]) && !IsSpace(s[|s| - 1])
    ensures Trim(s) == s
  {
    var t := s[LeadingSpaces(s)..];
    assert t == s;
  }

  /** Trimming twice is trimming once. */
  lemma TrimIdempotent(s: string)
    ensures Trim(Trim(s)) == Trim(s)
  {
    TrimNoMargins(Trim(s));
  }
}
