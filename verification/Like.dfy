/** Literal text search through SQL ILIKE with an escape character (section 8.5 of ISO/IEC 9075-2).

    `fold` stands for the case folding of ILIKE; the products search escapes with '!', the users
    search with a backslash. */
module Like {

  /** ILIKE: after the escape character any character stands for itself. */
  predicate Matches(text: string, pattern: string, escape: char, fold: char -> char)
    decreases |pattern|, |text|
  {
    if pattern == "" then text == ""
    else if pattern[0] == escape then
      |pattern| > 1 && text != "" && fold(text[0]) == fold(pattern[1]) && Matches(text[1..], pattern[2..], escape, fold)
    else if pattern[0] == '%' then
      Matches(text, pattern[1..], escape, fold) || (text != "" && Matches(text[1..], pattern, escape, fold))
    else
      && text != "" && (pattern[0] == '_' || fold(text[0]) == fold(pattern[0]))
      && Matches(text[1..], pattern[1..], escape, fold)
  }

  predicate Special(c: char, escape: char) {
    c == '%' || c == '_' || c == escape
  }

  /** `search.replace(/[%_!]/g, '!$&')` */
  function Escaped(s: string, escape: char): string {
    if s == "" then ""
    else (if Special(s[0], escape) then [escape, s[0]] else [s[0]]) + Escaped(s[1..], escape)
  }

  /** `%${escaped}%` */
  function SearchTerm(s: string, escape: char): string {
    "%" + Escaped(s, escape) + "%"
  }

  /** `s` occurs in `text` at position i, up to case. */
  predicate OccursAt(text: string, s: string, i: nat, fold: char -> char) {
    i + |s| <= |text| && forall k :: 0 <= k < |s| ==> fold(text[i + k]) == fold(s[k])
  }

  ghost predicate Contains(text: string, s: string, fold: char -> char) {
    exists i: nat :: OccursAt(text, s, i, fold)
  }

  lemma {:induction false} PercentMatchesAll(text: string, escape: char, fold: char -> char)
    requires escape != '%'
    ensures Matches(text, "%", escape, fold)
  {
    if text != "" {
      PercentMatchesAll(text[1..], escape, fold);
    } else {
      assert "%"[1..] == "";
      assert Matches(text, "", escape, fold);
    }
  }

  /** A leading percent sign lets the rest of the pattern match at some suffix. */
  lemma {:induction false} PercentSkips(text: string, rest: string, escape: char, fold: char -> char)
    requires escape != '%'
    ensures Matches(text, "%" + rest, escape, fold) <==>
            exists i :: 0 <= i <= |text| && Matches(text[i..], rest, escape, fold)
  {
    assert ("%" + rest)[1..] == rest;
    assert text[0..] == text;
    if text != "" {
      PercentSkips(text[1..], rest, escape, fold);
      forall i | 0 <= i < |text| ensures text[1..][i..] == text[i + 1..] {
      }
      if i :| 0 <= i <= |text| && Matches(text[i..], rest, escape, fold) {
        if i > 0 {
          assert text[1..][i - 1..] == text[i..];
        }
      }
      if i :| 0 <= i <= |text[1..]| && Matches(text[1..][i..], rest, escape, fold) {
        assert Matches(text[i + 1..], rest, escape, fold);
      }
    }
  }

  /** The pattern language: `%` stands for any text, `_` for any one character, the escape character makes
      the next one literal, and every other character stands for itself up to case. */
  lemma PatternMeans(text: string, c: char, rest: string, escape: char, fold: char -> char)
    requires escape != '%' && escape != '_'
    ensures Matches(text, "", escape, fold) <==> text == ""
    ensures Matches(text, "%" + rest, escape, fold) <==>
            exists i :: 0 <= i <= |text| && Matches(text[i..], rest, escape, fold)
    ensures Matches(text, "_" + rest, escape, fold) <==> text != "" && Matches(text[1..], rest, escape, fold)
    ensures Matches(text, [escape, c] + rest, escape, fold) <==>
            text != "" && fold(text[0]) == fold(c) && Matches(text[1..], rest, escape, fold)
    ensures c != '%' && c != '_' && c != escape ==>
              (Matches(text, [c] + rest, escape, fold) <==>
                 text != "" && fold(text[0]) == fold(c) && Matches(text[1..], rest, escape, fold))
  {
    PercentSkips(text, rest, escape, fold);
    assert ("_" + rest)[1..] == rest && ([c] + rest)[1..] == rest && ([escape, c] + rest)[2..] == rest;
  }

  /** An escaped string followed by a percent sign matches exactly the texts that begin with it. */
  lemma {:induction false} EscapedIsPrefix(text: string, s: string, escape: char, fold: char -> char)
    requires escape != '%' && escape != '_'
    ensures Matches(text, Escaped(s, escape) + "%", escape, fold) <==> OccursAt(text, s, 0, fold)
  {
    var pattern := Escaped(s, escape) + "%";
    if s == "" {
      assert pattern == "%";
      PercentMatchesAll(text, escape, fold);
    } else {
      var rest := Escaped(s[1..], escape) + "%";
      if Special(s[0], escape) {
        assert pattern == [escape, s[0]] + rest;
        assert pattern[2..] == rest;
      } else {
        assert pattern == [s[0]] + rest;
        assert pattern[1..] == rest;
      }
      if text != "" {
        EscapedIsPrefix(text[1..], s[1..], escape, fold);
        OccursInTail(text, s, fold);
      }
    }
  }

  lemma OccursInTail(text: string, s: string, fold: char -> char)
    requires text != "" && s != ""
    ensures OccursAt(text, s, 0, fold) <==> fold(text[0]) == fold(s[0]) && OccursAt(text[1..], s[1..], 0, fold)
  {
    if OccursAt(text[1..], s[1..], 0, fold) && fold(text[0]) == fold(s[0]) {
      forall k | 0 <= k < |s| ensures fold(text[0 + k]) == fold(s[k]) {
        if k > 0 {
          assert text[1..][0 + (k - 1)] == text[k] && s[1..][k - 1] == s[k];
        }
      }
    }
    if OccursAt(text, s, 0, fold) {
      forall k | 0 <= k < |s[1..]| ensures fold(text[1..][0 + k]) == fold(s[1..][k]) {
        assert fold(text[0 + (k + 1)]) == fold(s[k + 1]);
      }
    }
  }

  lemma OccursInSuffix(text: string, s: string, i: nat, fold: char -> char)
    requires i <= |text|
    ensures OccursAt(text[i..], s, 0, fold) <==> OccursAt(text, s, i, fold)
  {
    if i + |s| <= |text| {
      forall k | 0 <= k < |s| ensures fold(text[i..][0 + k]) == fold(s[k]) <==> fold(text[i + k]) == fold(s[k]) {
        assert text[i..][0 + k] == text[i + k];
      }
    }
  }

  /** Escaping makes the search literal: for every search string and every text, with any escape
      character other than the wildcards themselves. */
  lemma SearchIsLiteral(text: string, s: string, escape: char, fold: char -> char)
    requires escape != '%' && escape != '_'
    ensures Matches(text, SearchTerm(s, escape), escape, fold) <==> Contains(text, s, fold)
  {
    hide Matches;
    var rest := Escaped(s, escape) + "%";
    assert SearchTerm(s, escape) == "%" + rest;
    PercentSkips(text, rest, escape, fold);
    forall i | 0 <= i <= |text|
      ensures Matches(text[i..], rest, escape, fold) <==> OccursAt(text, s, i, fold)
    {
      EscapedIsPrefix(text[i..], s, escape, fold);
      OccursInSuffix(text, s, i, fold);
    }
  }

  /** Without escaping, a wildcard in the search string finds texts that do not contain it. */
  lemma UnescapedIsNotLiteral(fold: char -> char)
    requires fold('%') != fold('a')
    ensures Matches("a", "%" + "%" + "%", '!', fold) && !Contains("a", "%", fold)
  {
    assert "%" + "%" + "%" == "%" + ("%" + "%");
    PercentSkips("a", "%" + "%", '!', fold);
    PercentSkips("a", "%", '!', fold);
    PercentMatchesAll("a", '!', fold);
    assert "a"[0..] == "a";
    forall i: nat ensures !OccursAt("a", "%", i, fold) {
      assert i == 0 ==> fold("a"[i + 0]) != fold("%"[0]);
    }
  }
}
