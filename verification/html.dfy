/**
 `escapeHtml`, defined identically on the timer and history pages: each of
 `& < > " '` becomes its character reference, everything else is kept. The
 decoder for those five references is its inverse.
 */
module Html {

  predicate IsSpecial(c: char) {
    c == '&' || c == '<' || c == '>' || c == '"' || c == '\''
  }

  /** The replacement for one character. */
  function EscapeChar(c: char): (r: string)
    ensures |r| > 0
    ensures !IsSpecial(c) ==> r == [c]
  {
    match c
    case '&' => "&amp;"
    case '<' => "&lt;"
    case '>' => "&gt;"
    case '"' => "&quot;"
    case '\'' => "&#39;"
    case _ => [c]
  }

  /** `String(s).replace(/[&<>"']/g, ...)`: decoding the result gives back `s`. */
  function EscapeHtml(s: string): (r: string)
    ensures UnescapeHtml(r) == s
  {
    if |s| == 0 then ""
    else
      var rest := EscapeHtml(s[1..]);
      UnescapeStep(s[0], rest);
      assert [s[0]] + s[1..] == s;
      EscapeChar(s[0]) + rest
  }

  predicate IsPrefix(p: string, s: string) {
    |p| <= |s| && s[..|p|] == p
  }

  /** `s` begins with one of the five references `escapeHtml` writes. */
  predicate StartsEntity(s: string) {
    IsPrefix("&amp;", s) || IsPrefix("&lt;", s) || IsPrefix("&gt;", s)
    || IsPrefix("&quot;", s) || IsPrefix("&#39;", s)
  }

  /** No raw `<`, `>`, `"` or `'`, and every `&` starts a reference. */
  predicate SafeHtml(r: string) {
    forall i :: 0 <= i < |r| ==>
      (r[i] != '<' && r[i] != '>' && r[i] != '"' && r[i] != '\'')
      && (r[i] == '&' ==> StartsEntity(r[i..]))
  }

  /** Decodes the five references, left to right; any other text is kept. */
  function UnescapeHtml(s: string): string
    decreases |s|
  {
    if |s| == 0 then ""
    else if s[0] != '&' then [s[0]] + UnescapeHtml(s[1..])
    else if IsPrefix("&amp;", s) then "&" + UnescapeHtml(s[5..])
    else if IsPrefix("&lt;", s) then "<" + UnescapeHtml(s[4..])
    else if IsPrefix("&gt;", s) then ">" + UnescapeHtml(s[4..])
    else if IsPrefix("&quot;", s) then "\"" + UnescapeHtml(s[6..])
    else if IsPrefix("&#39;", s) then "'" + UnescapeHtml(s[5..])
    else "&" + UnescapeHtml(s[1..])
  }

  lemma PrefixOfAppend(p: string, a: string, b: string)
    requires IsPrefix(p, a)
    ensures IsPrefix(p, a + b)
  {
    assert (a + b)[..|p|] == a[..|p|];
  }

  /** The escaped text is safe to place in markup. */
  lemma {:induction false} EscapeHtmlSafe(s: string)
    ensures SafeHtml(EscapeHtml(s))
  {
    if |s| > 0 {
      EscapeHtmlSafe(s[1..]);
      SafeCons(s[0], EscapeHtml(s[1..]));
    }
  }

  /** One escaped character in front of safe text keeps it safe. */
  lemma SafeCons(c: char, rest: string)
    requires SafeHtml(rest)
    ensures SafeHtml(EscapeChar(c) + rest)
  {
    var e := EscapeChar(c);
    var r := e + rest;
    forall i | 0 <= i < |r|
      ensures r[i] != '<' && r[i] != '>' && r[i] != '"' && r[i] != '\''
      ensures r[i] == '&' ==> StartsEntity(r[i..])
    {
      if i < |e| {
        if r[i] == '&' {
          assert i == 0;
          assert r[i..] == e + rest;
          PrefixOfAppend(e, e, rest);
        }
      } else {
        assert r[i] == rest[i - |e|];
        assert r[i..] == rest[i - |e|..];
      }
    }
  }

  /** Text without any of the five special characters is returned unchanged. */
  lemma {:induction false} EscapeHtmlPlain(s: string)
    requires forall i :: 0 <= i < |s| ==> !IsSpecial(s[i])
    ensures EscapeHtml(s) == s
  {
    if |s| > 0 {
      EscapeHtmlPlain(s[1..]);
    }
  }

  /** Decoding undoes one escaped character in front of any text. */
  lemma UnescapeStep(c: char, rest: string)
    ensures UnescapeHtml(EscapeChar(c) + rest) == [c] + UnescapeHtml(rest)
  {
    var e := EscapeChar(c);
    var s := e + rest;
    assert s[|e|..] == rest;
    if IsSpecial(c) {
      assert s[..|e|] == e;
      if c != '&' {
        assert !IsPrefix("&amp;", s) by { assert s[1] != 'a'; }
      }
      if c != '&' && c != '<' {
        assert !IsPrefix("&lt;", s) by { assert s[1] != 'l'; }
      }
      if c == '"' || c == '\'' {
        assert !IsPrefix("&gt;", s) by { assert s[1] != 'g'; }
      }
      if c == '\'' {
        assert !IsPrefix("&quot;", s) by { assert s[1] != 'q'; }
      }
    } else {
      assert s[0] == c;
    }
  }
}
