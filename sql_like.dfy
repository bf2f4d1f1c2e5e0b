/** The part of SQLite's LIKE operator that `searchKnowledge` relies on: a
    pattern without an ESCAPE clause in which `%` matches any run of characters,
    `_` matches exactly one character, and other characters match case-insensitively
    for ASCII letters only. */
module SqlLike {

  /** SQLite's LIKE folds only the 26 ASCII upper-case letters. */
  function FoldAscii(c: char): (d: char)
    ensures 'A' <= c <= 'Z' ==> 'a' <= d <= 'z' && d as int == c as int + 32
    ensures !('A' <= c <= 'Z') ==> d == c
  {
    if 'A' <= c <= 'Z' then (c as int + 32) as char else c
  }

  predicate SameFolded(a: char, b: char) {
    FoldAscii(a) == FoldAscii(b)
  }

  /** `s LIKE p`. Only `%` lets a match differ in length from the pattern. */
  predicate Like(p: string, s: string)
    decreases |p| + |s|
    ensures Like(p, s) && '%' !in p ==> |s| == |p|
    ensures p == [] ==> (Like(p, s) <==> s == [])
  {
    if p == [] then s == []
    else if p[0] == '%' then Like(p[1..], s) || (s != [] && Like(p, s[1..]))
    else s != [] && (p[0] == '_' || SameFolded(p[0], s[0])) && Like(p[1..], s[1..])
  }

  predicate NoWildcards(t: string) {
    '%' !in t && '_' !in t
  }

  /** `t` matches the first |t| characters of `s`, ignoring ASCII case. */
  predicate PrefixFolded(t: string, s: string) {
    |t| <= |s| && forall j :: 0 <= j < |t| ==> SameFolded(t[j], s[j])
  }

  /** `t` occurs in `s` at offset `i`, ignoring ASCII case. */
  predicate OccursFoldedAt(s: string, t: string, i: int) {
    0 <= i <= |s| && PrefixFolded(t, s[i..])
  }

  /** `s` contains `t` as a substring, ignoring ASCII case. */
  predicate ContainsFolded(s: string, t: string) {
    exists i :: 0 <= i <= |s| && OccursFoldedAt(s, t, i)
  }

  lemma {:induction false} PercentMatchesAll(s: string)
    ensures Like("%", s)
  {
    if s != [] {
      PercentMatchesAll(s[1..]);
    }
  }

  /** Without wildcards, `t%` matches exactly the strings that start with `t`
      (ignoring ASCII case). */
  lemma {:induction false} TrailingPercent(t: string, s: string)
    requires NoWildcards(t)
    ensures Like(t + "%", s) <==> PrefixFolded(t, s)
  {
    if t == [] {
      assert t + "%" == "%";
      PercentMatchesAll(s);
    } else {
      assert (t + "%")[1..] == t[1..] + "%";
      assert (t + "%")[0] == t[0];
      if s != [] {
        TrailingPercent(t[1..], s[1..]);
        if PrefixFolded(t[1..], s[1..]) && SameFolded(t[0], s[0]) {
          forall j | 0 <= j < |t| ensures SameFolded(t[j], s[j]) {
            if j > 0 {
              assert t[1..][j - 1] == t[j] && s[1..][j - 1] == s[j];
            }
          }
        }
        if PrefixFolded(t, s) {
          forall j | 0 <= j < |t| - 1 ensures SameFolded(t[1..][j], s[1..][j]) {
            assert t[1..][j] == t[j + 1] && s[1..][j] == s[j + 1];
          }
        }
      }
    }
  }

  /** A leading `%` lets the rest of the pattern match any suffix. */
  lemma {:induction false} LeadingPercent(q: string, s: string)
    ensures Like("%" + q, s) <==> exists i :: 0 <= i <= |s| && Like(q, s[i..])
  {
    var p := "%" + q;
    assert p[0] == '%' && p[1..] == q;
    assert s[0..] == s;
    if s != [] {
      LeadingPercent(q, s[1..]);
      if Like(p, s[1..]) {
        var i :| 0 <= i <= |s[1..]| && Like(q, s[1..][i..]);
        assert s[1..][i..] == s[i + 1..];
      }
      if exists i :: 0 <= i <= |s| && Like(q, s[i..]) {
        var i :| 0 <= i <= |s| && Like(q, s[i..]);
        if i > 0 {
          assert s[1..][i - 1..] == s[i..];
        }
      }
    }
  }

  /** The search pattern `%term%` of a term without wildcards matches exactly the
      strings that contain the term, ignoring ASCII case. */
  lemma SubstringPattern(t: string, s: string)
    requires NoWildcards(t)
    ensures Like("%" + t + "%", s) <==> ContainsFolded(s, t)
  {
    assert "%" + t + "%" == "%" + (t + "%");
    LeadingPercent(t + "%", s);
    if Like("%" + t + "%", s) {
      var i :| 0 <= i <= |s| && Like(t + "%", s[i..]);
      TrailingPercent(t, s[i..]);
      assert OccursFoldedAt(s, t, i);
    }
    if ContainsFolded(s, t) {
      var i :| 0 <= i <= |s| && OccursFoldedAt(s, t, i);
      TrailingPercent(t, s[i..]);
    }
  }
}
